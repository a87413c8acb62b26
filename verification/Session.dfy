/** The agent as a step machine: the main goroutine (`App.Run`, `Client.Run` and
    `serveConnection`), the read loop, the heartbeat loop and the command goroutines of
    the current gateway session, sharing a replay map, a write mutex, a semaphore, two
    wait groups, an error channel and the health flags.

    A step is one atomic action of one goroutine, or of the environment. Which step comes
    next is up to the scheduler: every claim is about all runs. */
module Session {
  import opened Wrappers
  import opened Api
  import opened Replay
  import opened Router

  const DEFAULT_CONCURRENCY := 8

  /** `NewClient`: a bound that is not positive means the default. */
  function Capacity(configured: int): (n: nat)
    ensures n >= 1
  {
    if configured <= 0 then DEFAULT_CONCURRENCY else configured
  }

  datatype Frame = Garbage | Message(cmd: Command)

  datatype Fault = PolicyClose | OtherFault

  datatype Ending = Cancelled | Failed(fault: Fault)

  /** Where the main goroutine is. */
  datatype Phase =
    | Dialing
    | Selecting                       // the select in serveConnection
    | Cancelling(ending: Ending)      // before connCancel
    | SayingGoodbye(ending: Ending)   // before the close frame
    | Closing(ending: Ending)         // before conn.Close
    | JoiningLoops(ending: Ending)    // in loopWG.Wait
    | JoiningCommands(ending: Ending) // in commandWG.Wait
    | Returned(ending: Ending)        // before onConnectionState(false)
    | Deciding(ending: Ending)
    | Sleeping
    | AwaitingCredentials
    | Exited

  /** A decoded command and its place among those decoded on this session. */
  datatype Job = Job(serial: nat, cmd: Command)

  /** Where the read loop is; `ticket` is the claim's place in the accepted history. */
  datatype Reader =
    | Reading
    | Claiming(job: Job)
    | AwaitingSlot(job: Job, ticket: nat)
    | Adding(job: Job, ticket: nat)    // holds a slot, before wg.Add
    | Spawning(job: Job, ticket: nat)  // after wg.Add, before go
    | Replying(job: Job, code: Code)
    | WritingReply(job: Job, code: Code)
    | ReaderReporting(fault: Fault)
    | ReaderLeaving
    | ReaderGone

  datatype Heart =
    | Resting | WantsLock | Pinging | Notifying
    | HeartReporting(fault: Fault) | HeartLeaving | HeartGone

  /** A command goroutine: in the handler; waiting for the write mutex; writing; about to
      free its slot; about to call wg.Done. `launch` is its start's place in the history. */
  datatype Stage = Handling | Answering | Writing | Releasing | Signalling

  datatype Worker = Worker(cmd: Command, launch: nat, stage: Stage)

  datatype Owner = ByReader | ByHeart | ByWorker(serial: nat)

  /** A data frame written in answer to a command; a refusal has its code. */
  datatype Answer = Answer(serial: nat, id: string, refusal: Option<Code>)

  /** One gateway session. The tallies and histories (`decoded`, `wire`, `denied`,
      `refused`, `abandoned`, `finished`, `beats`) record what happened; no step reads them. */
  datatype Link = Link(
    inbox: seq<Frame>,
    reader: Reader,
    heart: Heart,
    workers: map<nat, Worker>,
    slots: nat,              // entries in commandSem
    loops: nat,              // loopWG
    running: nat,            // commandWG
    errors: seq<Fault>,      // errCh, two slots
    cancelled: bool,         // connCtx
    closed: bool,
    writer: Option<Owner>,   // writeMu
    decoded: seq<Command>,
    wire: seq<Answer>,
    denied: nat, refused: nat, abandoned: nat, finished: nat,
    beats: nat)

  datatype CallRecord = CallRecord(cmd: Command, call: Call)

  datatype Setup = Setup(router: Router, concurrency: int)

  /** The start of a command goroutine: which client, the claim's place among those that
      client accepted, and when. */
  datatype Launch = Launch(client: nat, ticket: nat, at: int)

  /** `seen` belongs to the current client, whose accepted claims are in `accepted`; those
      of the clients before it, in their order, are in `past`. The histories `past`,
      `accepted`, `launches` and `calls` span the whole run; no step reads them. */
  datatype State = State(
    setup: Setup,
    now: int,
    stopping: bool,
    phase: Phase,
    credentialsReady: bool,
    connected: bool,
    seen: map<string, int>,
    past: seq<seq<Claim>>,
    accepted: seq<Claim>,
    horizon: int,
    launches: seq<Launch>,
    calls: seq<CallRecord>,
    link: Link)

  datatype Report = Sent | DroppedOnCancel | DroppedOnFull

  datatype EnvStep = Pass(d: nat) | Arrive(frame: Frame) | Stop

  datatype MainStep =
    | DialFails | DialRevoked | DialOpens
    | SelectStop | SelectError
    | Cancel | Goodbye | CloseSocket | JoinLoops | JoinCommands
    | Disconnect | Decide | Wake | GiveUp | Rotate

  datatype ReaderStep =
    | Discard | Deny | Admit | ReadFails(fault: Fault)
    | ClaimGranted(seen: map<string, int>) | ClaimRefused(seen: map<string, int>) | TakeSlot | Abandon | AddWork | Spawn
    | LockReply | SendReply(ok: bool) | ReportRead(how: Report) | LeaveRead

  datatype HeartStep =
    | Tick | HeartDone | LockBeat | SendBeat(ok: bool) | Notify | ReportBeat(how: Report) | LeaveBeat

  datatype WorkerStep =
    | CallApi(call: Call) | Respond(encodes: bool) | LockAnswer | SendAnswer(ok: bool) | Release | Signal

  datatype Step =
    | Env(env: EnvStep)
    | Main(main: MainStep)
    | Read(read: ReaderStep)
    | Beat(beat: HeartStep)
    | Work(serial: nat, work: WorkerStep)

  const NO_LINK := Link([], ReaderGone, HeartGone, map[], 0, 0, 0, [], false, false, None, [], [], 0, 0, 0, 0, 0)

  /** `serveConnection` after both `go` statements. */
  const NEW_LINK := NO_LINK.(reader := Reading, heart := Resting, loops := 2)

  function Init(setup: Setup, now: int): State {
    State(setup, now, false, Dialing, true, false, map[], [], [], now, [], [], NO_LINK)
  }

  function Ready(s: State): bool {
    s.credentialsReady && s.connected
  }

  predicate InSession(p: Phase) {
    p.Selecting? || p.Cancelling? || p.SayingGoodbye? || p.Closing? || p.JoiningLoops? || p.JoiningCommands?
  }

  /** The session's context: cancelled with the parent or by `connCancel`. */
  predicate ContextDone(s: State) {
    s.stopping || s.link.cancelled
  }

  /** `reportConnectionError`: the ready cases of the select, or its default. */
  predicate CanReport(s: State, how: Report) {
    match how
    case Sent => |s.link.errors| < 2
    case DroppedOnCancel => ContextDone(s)
    case DroppedOnFull => |s.link.errors| >= 2 && !ContextDone(s)
  }

  function Reported(l: Link, fault: Fault, how: Report): seq<Fault> {
    if how.Sent? then l.errors + [fault] else l.errors
  }

  // The environment.

  predicate EnvEnabled(s: State, e: EnvStep) {
    e.Arrive? ==> InSession(s.phase) && !s.link.closed
  }

  function EnvNext(s: State, e: EnvStep): State {
    match e
    case Pass(d) => s.(now := s.now + d)
    case Arrive(frame) => s.(link := s.link.(inbox := s.link.inbox + [frame]))
    case Stop => s.(stopping := true)
  }

  // The main goroutine.

  predicate MainEnabled(s: State, m: MainStep) {
    match m
    case DialFails => s.phase.Dialing?
    case DialRevoked => s.phase.Dialing?
    case DialOpens => s.phase.Dialing?
    case SelectStop => s.phase.Selecting? && s.stopping
    case SelectError => s.phase.Selecting? && s.link.errors != []
    case Cancel => s.phase.Cancelling?
    case Goodbye => s.phase.SayingGoodbye?
    case CloseSocket => s.phase.Closing?
    case JoinLoops => s.phase.JoiningLoops? && s.link.loops == 0
    case JoinCommands => s.phase.JoiningCommands? && s.link.running == 0
    case Disconnect => s.phase.Returned?
    case Decide => s.phase.Deciding?
    case Wake => s.phase.Sleeping?
    case GiveUp => (s.phase.Dialing? || s.phase.Sleeping? || s.phase.AwaitingCredentials?) && s.stopping
    case Rotate => s.phase.AwaitingCredentials?
  }

  function MainNext(s: State, m: MainStep): State
    requires MainEnabled(s, m)
  {
    match m
    case DialFails => s.(phase := Sleeping)
    case DialRevoked => s.(phase := AwaitingCredentials)
    case DialOpens => s.(phase := Selecting, link := NEW_LINK)
    case SelectStop => s.(phase := Cancelling(Cancelled))
    case SelectError =>
      s.(phase := Cancelling(Failed(s.link.errors[0])), link := s.link.(errors := s.link.errors[1..]))
    case Cancel => s.(phase := SayingGoodbye(s.phase.ending), link := s.link.(cancelled := true))
    case Goodbye => s.(phase := Closing(s.phase.ending))
    case CloseSocket => s.(phase := JoiningLoops(s.phase.ending), link := s.link.(closed := true))
    case JoinLoops => s.(phase := JoiningCommands(s.phase.ending))
    case JoinCommands => s.(phase := Returned(s.phase.ending))
    case Disconnect => s.(phase := Deciding(s.phase.ending), connected := false)
    case Decide =>
      s.(phase := match s.phase.ending
                  case Cancelled => Exited
                  case Failed(PolicyClose) => AwaitingCredentials
                  case Failed(OtherFault) => Sleeping)
    case Wake => s.(phase := Dialing)
    case GiveUp => s.(phase := Exited)
    case Rotate => // a new client, hence a new replay map
      s.(phase := Dialing, credentialsReady := true,
         seen := map[], past := s.past + [s.accepted], accepted := [], horizon := s.now)
  }

  // The read loop. `Fits` says where the loop has to stand; `Enabled` adds what the
  // decoder, the policy and the replay map say.

  predicate ReaderFits(s: State, r: ReaderStep) {
    var l := s.link;
    match r
    case Discard => l.reader.Reading? && l.inbox != []
    case Deny => l.reader.Reading? && l.inbox != [] && l.inbox[0].Message?
    case Admit => l.reader.Reading? && l.inbox != [] && l.inbox[0].Message?
    case ReadFails(_) => l.reader.Reading?
    case ClaimGranted(_) => l.reader.Claiming?
    case ClaimRefused(_) => l.reader.Claiming?
    case TakeSlot => l.reader.AwaitingSlot? && l.slots < Capacity(s.setup.concurrency)
    case Abandon => l.reader.AwaitingSlot? && ContextDone(s)
    case AddWork => l.reader.Adding?
    case Spawn => l.reader.Spawning?
    case LockReply => l.reader.Replying? && l.writer == None
    case SendReply(ok) => l.reader.WritingReply? && (ok ==> !l.closed)
    case ReportRead(how) => l.reader.ReaderReporting? && CanReport(s, how)
    case LeaveRead => l.reader.ReaderLeaving? && l.loops > 0
  }

  predicate IsCommand(frame: Frame) {
    frame.Message? && frame.cmd.kind.CommandMessage?
  }

  predicate ReaderEnabled(s: State, r: ReaderStep) {
    ReaderFits(s, r) &&
    match r
    case Discard => !IsCommand(s.link.inbox[0])
    case Deny => IsCommand(s.link.inbox[0]) && !PolicyAllows(s.link.inbox[0].cmd)
    case Admit => IsCommand(s.link.inbox[0]) && PolicyAllows(s.link.inbox[0].cmd)
    case ClaimGranted(seen) => Claims(s.seen, s.link.reader.job.cmd.id, s.now) == (true, seen)
    case ClaimRefused(seen) => Claims(s.seen, s.link.reader.job.cmd.id, s.now) == (false, seen)
    case _ => true
  }

  function ReaderNext(s: State, r: ReaderStep): State
    requires ReaderFits(s, r)
  {
    var l := s.link;
    match r
    case Discard => s.(link := l.(inbox := l.inbox[1..]))
    case Deny =>
      var cmd := l.inbox[0].cmd;
      s.(link := l.(inbox := l.inbox[1..], decoded := l.decoded + [cmd],
                    reader := Replying(Job(|l.decoded|, cmd), PolicyDenied), denied := l.denied + 1))
    case Admit =>
      var cmd := l.inbox[0].cmd;
      s.(link := l.(inbox := l.inbox[1..], decoded := l.decoded + [cmd], reader := Claiming(Job(|l.decoded|, cmd))))
    case ReadFails(fault) => s.(link := l.(reader := ReaderReporting(fault)))
    case ClaimGranted(seen) =>
      var job := l.reader.job;
      s.(seen := seen, horizon := s.now, accepted := s.accepted + [Accepted(job.cmd.id, s.now)],
         link := l.(reader := AwaitingSlot(job, |s.accepted|)))
    case ClaimRefused(seen) =>
      s.(seen := seen, horizon := s.now,
         link := l.(reader := Replying(l.reader.job, DuplicateCommand), refused := l.refused + 1))
    case TakeSlot => s.(link := l.(reader := Adding(l.reader.job, l.reader.ticket), slots := l.slots + 1))
    case Abandon => s.(link := l.(reader := ReaderLeaving, abandoned := l.abandoned + 1))
    case AddWork => s.(link := l.(reader := Spawning(l.reader.job, l.reader.ticket), running := l.running + 1))
    case Spawn =>
      var worker := Worker(l.reader.job.cmd, |s.launches|, Handling);
      s.(launches := s.launches + [Launch(|s.past|, l.reader.ticket, s.now)],
         link := l.(reader := Reading, workers := l.workers[l.reader.job.serial := worker]))
    case LockReply => s.(link := l.(reader := WritingReply(l.reader.job, l.reader.code), writer := Some(ByReader)))
    case SendReply(ok) =>
      var job := l.reader.job;
      s.(link := l.(reader := Reading, writer := None,
                    wire := if ok then l.wire + [Answer(job.serial, job.cmd.id, Some(l.reader.code))] else l.wire))
    case ReportRead(how) => s.(link := l.(reader := ReaderLeaving, errors := Reported(l, l.reader.fault, how)))
    case LeaveRead => s.(link := l.(reader := ReaderGone, loops := l.loops - 1))
  }

  // The heartbeat loop.

  predicate HeartEnabled(s: State, h: HeartStep) {
    var l := s.link;
    match h
    case Tick => l.heart.Resting?
    case HeartDone => l.heart.Resting? && ContextDone(s)
    case LockBeat => l.heart.WantsLock? && l.writer == None
    case SendBeat(ok) => l.heart.Pinging? && (ok ==> !l.closed)
    case Notify => l.heart.Notifying?
    case ReportBeat(how) => l.heart.HeartReporting? && CanReport(s, how)
    case LeaveBeat => l.heart.HeartLeaving? && l.loops > 0
  }

  function HeartNext(s: State, h: HeartStep): State
    requires HeartEnabled(s, h)
  {
    var l := s.link;
    match h
    case Tick => s.(link := l.(heart := WantsLock))
    case HeartDone => s.(link := l.(heart := HeartLeaving))
    case LockBeat => s.(link := l.(heart := Pinging, writer := Some(ByHeart)))
    case SendBeat(ok) =>
      if ok then s.(link := l.(heart := Notifying, writer := None, beats := l.beats + 1))
      else s.(link := l.(heart := HeartReporting(OtherFault), writer := None))
    case Notify => s.(connected := true, link := l.(heart := Resting))
    case ReportBeat(how) => s.(link := l.(heart := HeartLeaving, errors := Reported(l, l.heart.fault, how)))
    case LeaveBeat => s.(link := l.(heart := HeartGone, loops := l.loops - 1))
  }

  // A command goroutine. Deferred calls run last in, first out: slot, then wait group.

  predicate WorkerFits(s: State, k: nat, w: WorkerStep) {
    var l := s.link;
    k in l.workers &&
    match w
    case CallApi(_) => l.workers[k].stage.Handling?
    case Respond(_) => l.workers[k].stage.Handling?
    case LockAnswer => l.workers[k].stage.Answering? && l.writer == None
    case SendAnswer(ok) => l.workers[k].stage.Writing? && (ok ==> !l.closed)
    case Release => l.workers[k].stage.Releasing? && l.slots > 0
    case Signal => l.workers[k].stage.Signalling? && l.running > 0
  }

  ghost predicate WorkerEnabled(s: State, k: nat, w: WorkerStep) {
    WorkerFits(s, k, w) && (w.CallApi? ==> MayCall(s.setup.router, s.link.workers[k].cmd, w.call))
  }

  function Moved(l: Link, k: nat, stage: Stage): map<nat, Worker>
    requires k in l.workers
  {
    l.workers[k := l.workers[k].(stage := stage)]
  }

  function WorkerNext(s: State, k: nat, w: WorkerStep): State
    requires WorkerFits(s, k, w)
  {
    var l := s.link;
    match w
    case CallApi(call) => s.(calls := s.calls + [CallRecord(l.workers[k].cmd, call)])
    case Respond(encodes) => s.(link := l.(workers := Moved(l, k, if encodes then Answering else Releasing)))
    case LockAnswer => s.(link := l.(workers := Moved(l, k, Writing), writer := Some(ByWorker(k))))
    case SendAnswer(ok) =>
      s.(link := l.(workers := Moved(l, k, Releasing), writer := None,
                    wire := if ok then l.wire + [Answer(k, l.workers[k].cmd.id, None)] else l.wire))
    case Release => s.(link := l.(workers := Moved(l, k, Signalling), slots := l.slots - 1))
    case Signal => s.(link := l.(workers := l.workers - {k}, running := l.running - 1, finished := l.finished + 1))
  }

  // Steps and runs.

  ghost predicate Enabled(s: State, step: Step) {
    match step
    case Env(e) => EnvEnabled(s, e)
    case Main(m) => MainEnabled(s, m)
    case Read(r) => ReaderEnabled(s, r)
    case Beat(h) => HeartEnabled(s, h)
    case Work(k, w) => WorkerEnabled(s, k, w)
  }

  ghost function Next(s: State, step: Step): State
    requires Enabled(s, step)
  {
    match step
    case Env(e) => EnvNext(s, e)
    case Main(m) => MainNext(s, m)
    case Read(r) => ReaderNext(s, r)
    case Beat(h) => HeartNext(s, h)
    case Work(k, w) => WorkerNext(s, k, w)
  }

  ghost predicate Runs(from: State, steps: seq<Step>, to: State)
    decreases |steps|
  {
    if steps == [] then from == to
    else Enabled(from, steps[0]) && Runs(Next(from, steps[0]), steps[1..], to)
  }

  /** Some run of a configured agent leads to `s`. */
  ghost predicate Reachable(s: State) {
    exists setup: Setup, now: int, steps: seq<Step> :: Runs(Init(setup, now), steps, s)
  }
}
