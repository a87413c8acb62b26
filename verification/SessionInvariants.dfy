/** What every step of the session machine keeps. Each predicate is one concern; each has
    its own preservation lemma, so the proofs stay small. */
module SessionInvariants {
  import opened Wrappers
  import opened Api
  import opened Replay
  import opened Router
  import opened Session

  function B(b: bool): nat { if b then 1 else 0 }

  // Counting command goroutines by how far they have got.

  function Rank(stage: Stage): nat {
    match stage
    case Handling => 5
    case Answering => 4
    case Writing => 3
    case Releasing => 2
    case Signalling => 1
  }

  ghost function Those(ws: map<nat, Worker>, i: nat): set<nat> {
    set k | k in ws && Rank(ws[k].stage) >= i
  }

  ghost function AtLeast(ws: map<nat, Worker>, i: nat): nat {
    |Those(ws, i)|
  }

  /** Goroutines that have not called wg.Done; those that still hold a slot. */
  ghost function Running(ws: map<nat, Worker>): nat { AtLeast(ws, 1) }
  ghost function Holding(ws: map<nat, Worker>): nat { AtLeast(ws, 2) }

  /** The steps the command goroutines have left. */
  ghost function Load(ws: map<nat, Worker>): nat {
    AtLeast(ws, 1) + AtLeast(ws, 2) + AtLeast(ws, 3) + AtLeast(ws, 4) + AtLeast(ws, 5)
  }

  lemma ThoseSplit(ws: map<nat, Worker>, k: nat, i: nat)
    requires k in ws
    ensures Those(ws - {k}, i) == Those(ws, i) - {k}
    ensures k in Those(ws, i) <==> Rank(ws[k].stage) >= i
  {
  }

  lemma AtLeastSplit(ws: map<nat, Worker>, k: nat, i: nat)
    requires k in ws
    ensures AtLeast(ws, i) == AtLeast(ws - {k}, i) + B(Rank(ws[k].stage) >= i)
  {
    ThoseSplit(ws, k, i);
  }

  lemma LoadSplit(ws: map<nat, Worker>, k: nat)
    requires k in ws
    ensures Running(ws) == Running(ws - {k}) + 1
    ensures Holding(ws) == Holding(ws - {k}) + B(ws[k].stage != Signalling)
    ensures Load(ws) == Load(ws - {k}) + Rank(ws[k].stage)
  {
    AtLeastSplit(ws, k, 1);
    AtLeastSplit(ws, k, 2);
    AtLeastSplit(ws, k, 3);
    AtLeastSplit(ws, k, 4);
    AtLeastSplit(ws, k, 5);
  }

  lemma LoadMoved(l: Link, k: nat, stage: Stage)
    requires k in l.workers
    ensures var ws, was := Moved(l, k, stage), l.workers;
      && Running(ws) == Running(was)
      && Holding(ws) + B(was[k].stage != Signalling) == Holding(was) + B(stage != Signalling)
      && Load(ws) + Rank(was[k].stage) == Load(was) + Rank(stage)
  {
    LoadSplit(l.workers, k);
    LoadSplit(Moved(l, k, stage), k);
    assert Moved(l, k, stage) - {k} == l.workers - {k};
  }

  lemma LoadAdded(ws: map<nat, Worker>, k: nat, w: Worker)
    requires k !in ws
    ensures Running(ws[k := w]) == Running(ws) + 1
    ensures Holding(ws[k := w]) == Holding(ws) + B(w.stage != Signalling)
    ensures Load(ws[k := w]) == Load(ws) + Rank(w.stage)
  {
    LoadSplit(ws[k := w], k);
    assert ws[k := w] - {k} == ws;
  }

  lemma {:induction false} AtMostAll(ws: map<nat, Worker>, i: nat)
    ensures AtLeast(ws, i) <= |ws|
    ensures i <= 1 ==> AtLeast(ws, i) == |ws|
  {
    var some := Those(ws, i);
    assert ws.Keys == some + (ws.Keys - some);
    if i <= 1 {
      assert ws.Keys - some == {};
    }
  }

  lemma NoWorkers(ws: map<nat, Worker>)
    ensures Running(ws) == |ws|
    ensures ws == map[] ==> Holding(ws) == 0 && Load(ws) == 0
  {
    AtMostAll(ws, 1);
    AtMostAll(ws, 2);
    AtMostAll(ws, 3);
    AtMostAll(ws, 4);
    AtMostAll(ws, 5);
  }

  // Where the read loop stands with its current command.

  /** Decoded and let through the policy, but not yet refused, abandoned or started. */
  predicate Undecided(r: Reader) {
    r.Claiming? || r.AwaitingSlot? || r.Adding? || r.Spawning?
  }

  predicate HasJob(r: Reader) {
    Undecided(r) || r.Replying? || r.WritingReply?
  }

  predicate HoldsSlot(r: Reader) {
    r.Adding? || r.Spawning?
  }

  predicate HasTicket(r: Reader) {
    r.AwaitingSlot? || r.Adding? || r.Spawning?
  }

  predicate ReaderEnded(r: Reader) {
    r.ReaderLeaving? || r.ReaderGone?
  }

  predicate HeartEnded(h: Heart) {
    h.HeartLeaving? || h.HeartGone?
  }

  /** Which goroutines exist in which phase, and what has been cancelled and closed. */
  ghost predicate Wiring(phase: Phase, l: Link) {
    && l.loops == B(!l.reader.ReaderGone?) + B(!l.heart.HeartGone?)
    && (!InSession(phase) || phase.JoiningCommands? ==> l.reader.ReaderGone? && l.heart.HeartGone?)
    && (!InSession(phase) ==> l.workers == map[] && l.writer == None)
    && (InSession(phase) ==> (l.cancelled <==> !phase.Selecting? && !phase.Cancelling?))
    && (InSession(phase) ==> (l.closed <==> phase.JoiningLoops? || phase.JoiningCommands?))
  }

  /** Semaphore, wait group and tallies agree with the goroutines. */
  ghost predicate Counts(capacity: nat, l: Link) {
    && 1 <= capacity
    && l.slots == Holding(l.workers) + B(HoldsSlot(l.reader)) <= capacity
    && l.running == Running(l.workers) + B(l.reader.Spawning?)
    && |l.decoded| == l.denied + l.refused + l.abandoned + l.finished + Running(l.workers) + B(Undecided(l.reader))
    && l.abandoned <= B(ReaderEnded(l.reader))
  }

  /** The ending that has been picked. */
  function EndingOf(phase: Phase): Option<Ending> {
    match phase
    case Cancelling(e) => Some(e)
    case SayingGoodbye(e) => Some(e)
    case Closing(e) => Some(e)
    case JoiningLoops(e) => Some(e)
    case JoiningCommands(e) => Some(e)
    case Returned(e) => Some(e)
    case Deciding(e) => Some(e)
    case _ => None
  }

  /** Each loop puts at most one error in the channel, and before the context is done
      exactly one when it ends. Only a stop ends a session without one. */
  ghost predicate Errors(phase: Phase, stopping: bool, l: Link) {
    var ended := B(ReaderEnded(l.reader)) + B(HeartEnded(l.heart));
    && |l.errors| <= ended
    && (phase.Selecting? && !stopping ==> |l.errors| == ended)
    && (EndingOf(phase) == Some(Cancelled) ==> stopping)
  }

  /** The credentials flag stays up; the other one is up exactly from the first heartbeat a
      session has announced to the end of that session. */
  ghost predicate Readiness(phase: Phase, credentialsReady: bool, connected: bool, l: Link) {
    && credentialsReady
    && (connected <==> (InSession(phase) || phase.Returned?) && l.beats >= 1 + B(l.heart.Notifying?))
    && (l.heart.Notifying? ==> l.beats >= 1)
  }

  /** The write mutex is held by exactly the goroutine that is writing. */
  ghost predicate Locks(writer: Option<Owner>, reader: Reader, heart: Heart, ws: map<nat, Worker>) {
    && (writer == Some(ByReader) <==> reader.WritingReply?)
    && (writer == Some(ByHeart) <==> heart.Pinging?)
    && WorkersLock(writer, ws)
  }

  ghost predicate WorkersLock(writer: Option<Owner>, ws: map<nat, Worker>) {
    && (forall k :: k in ws && ws[k].stage.Writing? ==> writer == Some(ByWorker(k)))
    && (writer.Some? && writer.value.ByWorker? ==> writer.value.serial in ws && ws[writer.value.serial].stage.Writing?)
  }

  /** Command goroutines carry the commands they were started for. */
  ghost predicate WorkerJobs(ws: map<nat, Worker>, decoded: seq<Command>) {
    forall k :: k in ws ==> k < |decoded| && ws[k].cmd == decoded[k]
  }

  /** The read loop works on the command decoded last. */
  ghost predicate ReaderJob(reader: Reader, decoded: seq<Command>, ws: map<nat, Worker>) {
    HasJob(reader) ==>
      reader.job.serial + 1 == |decoded| && decoded[reader.job.serial] == reader.job.cmd && reader.job.serial !in ws
  }

  /** Whatever goes past the policy check was let through by it. */
  ghost predicate PolicyHeld(reader: Reader, ws: map<nat, Worker>) {
    && (Undecided(reader) ==> PolicyAllows(reader.job.cmd))
    && (forall k :: k in ws ==> PolicyAllows(ws[k].cmd))
  }

  /** Each answer carries the id of a decoded command, and no command has two. */
  ghost predicate WireSound(wire: seq<Answer>, decoded: seq<Command>) {
    && (forall i :: 0 <= i < |wire| ==> wire[i].serial < |decoded| && wire[i].id == decoded[wire[i].serial].id)
    && (forall i, j :: 0 <= i < j < |wire| ==> wire[i].serial != wire[j].serial)
  }

  ghost predicate Unanswered(wire: seq<Answer>, k: nat) {
    forall i :: 0 <= i < |wire| ==> wire[i].serial != k
  }

  /** No goroutine is answered before it has written. */
  ghost predicate WorkersTurn(wire: seq<Answer>, ws: map<nat, Worker>) {
    forall k :: k in ws && Rank(ws[k].stage) >= 3 ==> Unanswered(wire, k)
  }

  ghost predicate ReaderTurn(wire: seq<Answer>, reader: Reader) {
    HasJob(reader) ==> Unanswered(wire, reader.job.serial)
  }

  /** The claims the client number `client` accepted. */
  function ClaimsOf(past: seq<seq<Claim>>, accepted: seq<Claim>, client: nat): seq<Claim> {
    if client < |past| then past[client] else accepted
  }

  ghost predicate PastSpaced(past: seq<seq<Claim>>) {
    forall c :: 0 <= c < |past| ==> WellSpaced(past[c])
  }

  /** A start spends a claim of its client, and not before it was made. */
  ghost predicate LaunchOwned(launch: Launch, past: seq<seq<Claim>>, accepted: seq<Claim>, now: int) {
    var claims := ClaimsOf(past, accepted, launch.client);
    launch.client <= |past| && launch.ticket < |claims| && claims[launch.ticket].at <= launch.at <= now
  }

  /** Clients come one after the other, and start goroutines in claim order. */
  ghost predicate LaunchesInOrder(launches: seq<Launch>) {
    forall i, j :: 0 <= i < j < |launches| ==>
      && launches[i].client <= launches[j].client && launches[i].at <= launches[j].at
      && (launches[i].client == launches[j].client ==> launches[i].ticket < launches[j].ticket)
  }

  ghost predicate Launches(launches: seq<Launch>, past: seq<seq<Claim>>, accepted: seq<Claim>, now: int) {
    && PastSpaced(past)
    && (forall i :: 0 <= i < |launches| ==> LaunchOwned(launches[i], past, accepted, now))
    && LaunchesInOrder(launches)
  }

  ghost predicate ReaderTicket(reader: Reader, launches: seq<Launch>, client: nat, accepted: seq<Claim>) {
    HasTicket(reader) ==>
      && reader.ticket + 1 == |accepted|
      && accepted[reader.ticket].id == reader.job.cmd.id
      && (forall i :: 0 <= i < |launches| && launches[i].client == client ==> launches[i].ticket < reader.ticket)
  }

  /** Each goroutine has its own start, under its command's id. */
  ghost predicate WorkerTickets(ws: map<nat, Worker>, launches: seq<Launch>, client: nat, accepted: seq<Claim>) {
    && (forall k :: k in ws ==>
          && ws[k].launch < |launches| && launches[ws[k].launch].client == client
          && launches[ws[k].launch].ticket < |accepted|
          && accepted[launches[ws[k].launch].ticket].id == ws[k].cmd.id)
    && (forall j, k :: j in ws && k in ws && j != k ==> ws[j].launch != ws[k].launch)
  }

  ghost predicate Tickets(s: State) {
    && Launches(s.launches, s.past, s.accepted, s.now)
    && ReaderTicket(s.link.reader, s.launches, |s.past|, s.accepted)
    && WorkerTickets(s.link.workers, s.launches, |s.past|, s.accepted)
  }

  /** Every Kubernetes call was made for a command both filters let through. */
  ghost predicate CallsAllowed(router: Router, calls: seq<CallRecord>) {
    forall i :: 0 <= i < |calls| ==> PolicyAllows(calls[i].cmd) && MayCall(router, calls[i].cmd, calls[i].call)
  }

  ghost predicate Inv(s: State) {
    var l := s.link;
    && Wiring(s.phase, l)
    && Counts(Capacity(s.setup.concurrency), l)
    && Errors(s.phase, s.stopping, l)
    && Readiness(s.phase, s.credentialsReady, s.connected, l)
    && Locks(l.writer, l.reader, l.heart, l.workers)
    && WorkerJobs(l.workers, l.decoded)
    && ReaderJob(l.reader, l.decoded, l.workers)
    && PolicyHeld(l.reader, l.workers)
    && WireSound(l.wire, l.decoded)
    && WorkersTurn(l.wire, l.workers)
    && ReaderTurn(l.wire, l.reader)
    && Tracks(s.seen, s.accepted, s.horizon, s.now)
    && Tickets(s)
    && CallsAllowed(s.setup.router, s.calls)
  }

  // The environment.

  lemma EnvKeeps(s: State, e: EnvStep)
    requires Inv(s) && EnvEnabled(s, e)
    ensures Inv(EnvNext(s, e))
  {
  }

  // The main goroutine.

  /** Once both loops are gone and the wait group is empty, nobody is left. */
  lemma NobodyLeft(capacity: nat, l: Link)
    requires Counts(capacity, l) && Locks(l.writer, l.reader, l.heart, l.workers)
    requires l.reader.ReaderGone? && l.heart.HeartGone? && l.running == 0
    ensures l.workers == map[] && l.writer == None
  {
    NoWorkers(l.workers);
  }

  lemma NewLinkCounts(capacity: nat)
    requires 1 <= capacity
    ensures Counts(capacity, NEW_LINK) && Counts(capacity, NO_LINK)
  {
    NoWorkers(map[]);
  }

  /** What a step of the main goroutine can touch, unless it starts a session or a client. */
  lemma MainFrame(s: State, m: MainStep)
    requires MainEnabled(s, m) && !m.DialOpens? && !m.Rotate?
    ensures var t := MainNext(s, m);
      && t == s.(phase := t.phase, connected := t.connected, link := t.link)
      && t.link == s.link.(errors := t.link.errors, cancelled := t.link.cancelled, closed := t.link.closed)
  {
    match m {
      case DialFails =>
      case DialRevoked =>
      case SelectStop =>
      case SelectError =>
      case Cancel =>
      case Goodbye =>
      case CloseSocket =>
      case JoinLoops =>
      case JoinCommands =>
      case Disconnect =>
      case Decide =>
      case Wake =>
      case GiveUp =>
    }
  }

  /** The concerns that depend on the phase. */
  lemma MainPhases(s: State, m: MainStep)
    requires MainEnabled(s, m) && Wiring(s.phase, s.link) && (m.JoinCommands? ==> s.link.workers == map[] && s.link.writer == None)
    requires Errors(s.phase, s.stopping, s.link) && Readiness(s.phase, s.credentialsReady, s.connected, s.link)
    ensures var t := MainNext(s, m);
      Wiring(t.phase, t.link) && Errors(t.phase, t.stopping, t.link) && Readiness(t.phase, t.credentialsReady, t.connected, t.link)
  {
    match m {
      case DialFails =>
      case DialRevoked =>
      case DialOpens =>
      case SelectStop =>
      case SelectError =>
      case Cancel =>
      case Goodbye =>
      case CloseSocket =>
      case JoinLoops =>
      case JoinCommands =>
      case Disconnect =>
      case Decide =>
      case Wake =>
      case GiveUp =>
      case Rotate =>
    }
  }

  /** A new client: its predecessor's claims join the past, well spaced as they are. */
  lemma RotateLaunches(s: State)
    requires Launches(s.launches, s.past, s.accepted, s.now) && WellSpaced(s.accepted)
    ensures Launches(s.launches, s.past + [s.accepted], [], s.now)
  {
    forall i | 0 <= i < |s.launches| ensures LaunchOwned(s.launches[i], s.past + [s.accepted], [], s.now) {
      assert LaunchOwned(s.launches[i], s.past, s.accepted, s.now);
    }
  }

  lemma RotateKeeps(s: State)
    requires Inv(s) && MainEnabled(s, Rotate)
    ensures Inv(MainNext(s, Rotate))
  {
    MainPhases(s, Rotate);
    RotateLaunches(s);
  }

  lemma NewLinkJobs(s: State)
    ensures var l := NEW_LINK;
      && Locks(l.writer, l.reader, l.heart, l.workers)
      && WorkerJobs(l.workers, l.decoded) && ReaderJob(l.reader, l.decoded, l.workers) && PolicyHeld(l.reader, l.workers)
      && WireSound(l.wire, l.decoded) && WorkersTurn(l.wire, l.workers) && ReaderTurn(l.wire, l.reader)
      && ReaderTicket(l.reader, s.launches, |s.past|, s.accepted)
      && WorkerTickets(l.workers, s.launches, |s.past|, s.accepted)
  {
  }

  lemma DialKeeps(s: State)
    requires Inv(s) && MainEnabled(s, DialOpens)
    ensures Inv(MainNext(s, DialOpens))
  {
    MainPhases(s, DialOpens);
    NewLinkCounts(Capacity(s.setup.concurrency));
    NewLinkJobs(s);
  }

  lemma MainKeeps(s: State, m: MainStep)
    requires Inv(s) && MainEnabled(s, m)
    ensures Inv(MainNext(s, m))
  {
    if m.Rotate? {
      RotateKeeps(s);
    } else if m.DialOpens? {
      DialKeeps(s);
    } else {
      if m.JoinCommands? {
        NobodyLeft(Capacity(s.setup.concurrency), s.link);
      }
      MainFrame(s, m);
      MainPhases(s, m);
    }
  }

  // The heartbeat loop.

  /** What a step of the heartbeat loop can touch. */
  lemma HeartFrame(s: State, h: HeartStep)
    requires HeartEnabled(s, h)
    ensures var t := HeartNext(s, h);
      && t == s.(connected := t.connected, link := t.link)
      && t.link == s.link.(heart := t.link.heart, writer := t.link.writer, errors := t.link.errors,
                           loops := t.link.loops, beats := t.link.beats)
      && s.link.errors <= t.link.errors && t.link.loops <= s.link.loops
      && t.link.writer == (if h.LockBeat? then Some(ByHeart) else if h.SendBeat? then None else s.link.writer)
      && (t.link.heart.Pinging? <==> h.LockBeat?) && (s.link.heart.Pinging? <==> h.SendBeat?)
      && (s.link.heart.HeartReporting? <==> h.ReportBeat?)
      && (t.link.heart.HeartReporting? <==> h == SendBeat(false)) && (h == SendBeat(false) ==> t.link.heart.fault == OtherFault)
      && (HeartEnded(s.link.heart) ==> HeartEnded(t.link.heart)) && (h.ReportBeat? ==> HeartEnded(t.link.heart))
      && t.link.beats == s.link.beats + B(t.link.heart.Notifying?)
      && (s.link.heart.Notifying? <==> h.Notify?) && (t.connected <==> s.connected || h.Notify?)
  {
    match h {
      case Tick =>
      case HeartDone =>
      case LockBeat =>
      case SendBeat(_) =>
      case Notify =>
      case ReportBeat(_) =>
      case LeaveBeat =>
    }
  }

  lemma HeartLoops(s: State, h: HeartStep)
    requires Wiring(s.phase, s.link) && Errors(s.phase, s.stopping, s.link) && HeartEnabled(s, h)
    ensures var t := HeartNext(s, h); Wiring(t.phase, t.link) && Errors(t.phase, t.stopping, t.link)
  {
    match h {
      case Tick =>
      case HeartDone =>
      case LockBeat =>
      case SendBeat(_) =>
      case Notify =>
      case ReportBeat(_) =>
      case LeaveBeat =>
    }
  }

  lemma HeartLocks(s: State, h: HeartStep)
    requires Locks(s.link.writer, s.link.reader, s.link.heart, s.link.workers) && HeartEnabled(s, h)
    ensures var l := HeartNext(s, h).link; Locks(l.writer, l.reader, l.heart, l.workers)
  {
    HeartFrame(s, h);
  }

  lemma HeartKeeps(s: State, h: HeartStep)
    requires Inv(s) && HeartEnabled(s, h)
    ensures Inv(HeartNext(s, h))
  {
    HeartFrame(s, h);
    HeartLoops(s, h);
    HeartLocks(s, h);
  }

  // A command goroutine.

  lemma WorkerCounts(s: State, k: nat, w: WorkerStep)
    requires Counts(Capacity(s.setup.concurrency), s.link) && WorkerFits(s, k, w)
    ensures Counts(Capacity(s.setup.concurrency), WorkerNext(s, k, w).link)
  {
    var l := s.link;
    match w {
      case CallApi(_) =>
      case Respond(encodes) => LoadMoved(l, k, if encodes then Answering else Releasing);
      case LockAnswer => LoadMoved(l, k, Writing);
      case SendAnswer(_) => LoadMoved(l, k, Releasing);
      case Release => LoadMoved(l, k, Signalling);
      case Signal => LoadSplit(l.workers, k);
    }
  }

  /** Another stage, without writing before or after; taking the mutex; giving it back. */
  lemma LockMoves(l: Link, m: Link, k: nat, stage: Stage)
    requires Locks(l.writer, l.reader, l.heart, l.workers)
    requires k in l.workers && m.workers == Moved(l, k, stage) && m.reader == l.reader && m.heart == l.heart
    requires || (m.writer == l.writer && !l.workers[k].stage.Writing? && !stage.Writing?)
             || (l.writer == None && m.writer == Some(ByWorker(k)) && stage.Writing?)
             || (l.workers[k].stage.Writing? && m.writer == None && !stage.Writing?)
    ensures Locks(m.writer, m.reader, m.heart, m.workers)
  {
  }

  lemma LockGone(l: Link, k: nat)
    requires Locks(l.writer, l.reader, l.heart, l.workers)
    requires k in l.workers && !l.workers[k].stage.Writing?
    ensures Locks(l.writer, l.reader, l.heart, l.workers - {k})
  {
  }

  lemma WorkerLocks(s: State, k: nat, w: WorkerStep)
    requires Locks(s.link.writer, s.link.reader, s.link.heart, s.link.workers) && WorkerFits(s, k, w)
    ensures var l := WorkerNext(s, k, w).link; Locks(l.writer, l.reader, l.heart, l.workers)
  {
    var l, m := s.link, WorkerNext(s, k, w).link;
    match w {
      case CallApi(_) =>
      case Respond(encodes) => LockMoves(l, m, k, if encodes then Answering else Releasing);
      case LockAnswer => LockMoves(l, m, k, Writing);
      case SendAnswer(_) => LockMoves(l, m, k, Releasing);
      case Release => LockMoves(l, m, k, Signalling);
      case Signal => LockGone(l, k);
    }
  }

  /** No goroutine changes what it carries, and none goes back. */
  ghost predicate Carried(was: map<nat, Worker>, ws: map<nat, Worker>) {
    forall j :: j in ws ==>
      j in was && ws[j].cmd == was[j].cmd && ws[j].launch == was[j].launch && Rank(ws[j].stage) <= Rank(was[j].stage)
  }

  lemma CarriedKeeps(was: map<nat, Worker>, ws: map<nat, Worker>, s: State)
    requires Carried(was, ws) && WorkerJobs(was, s.link.decoded) && ReaderJob(s.link.reader, s.link.decoded, was)
    requires PolicyHeld(s.link.reader, was) && WorkerTickets(was, s.launches, |s.past|, s.accepted)
    ensures WorkerJobs(ws, s.link.decoded) && ReaderJob(s.link.reader, s.link.decoded, ws)
    ensures PolicyHeld(s.link.reader, ws) && WorkerTickets(ws, s.launches, |s.past|, s.accepted)
  {
  }

  lemma WireGrows(wire: seq<Answer>, a: Answer, decoded: seq<Command>)
    requires WireSound(wire, decoded) && Unanswered(wire, a.serial)
    requires a.serial < |decoded| && a.id == decoded[a.serial].id
    ensures WireSound(wire + [a], decoded)
    ensures forall k :: Unanswered(wire, k) && k != a.serial ==> Unanswered(wire + [a], k)
  {
  }

  lemma WorkerWire(s: State, k: nat, w: WorkerStep)
    requires WireSound(s.link.wire, s.link.decoded) && WorkersTurn(s.link.wire, s.link.workers)
    requires ReaderTurn(s.link.wire, s.link.reader) && WorkerJobs(s.link.workers, s.link.decoded)
    requires ReaderJob(s.link.reader, s.link.decoded, s.link.workers) && WorkerFits(s, k, w)
    ensures var l := WorkerNext(s, k, w).link;
      WireSound(l.wire, l.decoded) && WorkersTurn(l.wire, l.workers) && ReaderTurn(l.wire, l.reader)
  {
    if w == SendAnswer(true) {
      WireGrows(s.link.wire, Answer(k, s.link.workers[k].cmd.id, None), s.link.decoded);
    } else {
      WorkerFrame(s, k, w);
    }
  }

  lemma WorkerCalls(s: State, k: nat, w: WorkerStep)
    requires PolicyHeld(s.link.reader, s.link.workers) && CallsAllowed(s.setup.router, s.calls) && WorkerEnabled(s, k, w)
    ensures CallsAllowed(s.setup.router, WorkerNext(s, k, w).calls)
  {
  }

  /** What a command goroutine can touch. */
  lemma WorkerFrame(s: State, k: nat, w: WorkerStep)
    requires WorkerFits(s, k, w)
    ensures var t := WorkerNext(s, k, w);
      && t == s.(calls := t.calls, link := t.link)
      && t.link == s.link.(workers := t.link.workers, slots := t.link.slots, running := t.link.running,
                           writer := t.link.writer, wire := t.link.wire, finished := t.link.finished)
      && Carried(s.link.workers, t.link.workers)
      && (w != SendAnswer(true) ==> t.link.wire == s.link.wire)
  {
    match w {
      case CallApi(_) =>
      case Respond(_) =>
      case LockAnswer =>
      case SendAnswer(_) =>
      case Release =>
      case Signal =>
    }
  }

  lemma WorkerKeeps(s: State, k: nat, w: WorkerStep)
    requires Inv(s) && WorkerEnabled(s, k, w)
    ensures Inv(WorkerNext(s, k, w))
  {
    WorkerFrame(s, k, w);
    WorkerCounts(s, k, w);
    WorkerLocks(s, k, w);
    CarriedKeeps(s.link.workers, WorkerNext(s, k, w).link.workers, s);
    WorkerWire(s, k, w);
    WorkerCalls(s, k, w);
  }

  // The read loop.

  /** What a step of the read loop leaves as it was. */
  ghost predicate ReaderFrame(s: State, r: ReaderStep, t: State) {
    var l, m := s.link, t.link;
    && t == s.(seen := t.seen, horizon := t.horizon, accepted := t.accepted, launches := t.launches, link := m)
    && m.heart == l.heart && m.cancelled == l.cancelled && m.closed == l.closed && m.beats == l.beats
    && (!r.Spawn? ==> m.workers == l.workers && t.launches == s.launches)
    && (!r.Deny? && !r.Admit? ==> m.decoded == l.decoded)
    && (r != SendReply(true) ==> m.wire == l.wire)
    && m.writer == (if r.LockReply? then Some(ByReader) else if r.SendReply? then None else l.writer)
    && |m.errors| == |l.errors| + B(r == ReportRead(Sent))
    && m.loops == l.loops - (if r.LeaveRead? then 1 else 0)
    && (!r.ClaimGranted? ==> t.accepted == s.accepted)
    && (!r.ClaimGranted? && !r.ClaimRefused? ==> t.seen == s.seen && t.horizon == s.horizon)
  }

  /** What it does to its own place. */
  ghost predicate ReaderMoves(was: Reader, r: ReaderStep, now: Reader) {
    && (now.ReaderGone? <==> r.LeaveRead?)
    && (HasJob(now) && !r.Deny? && !r.Admit? ==> HasJob(was) && now.job == was.job)
    && (Undecided(now) && !r.Admit? ==> Undecided(was))
    && (HasTicket(now) && !r.ClaimGranted? ==> HasTicket(was) && now.ticket == was.ticket)
    && (now.WritingReply? <==> r.LockReply?) && (was.WritingReply? <==> r.SendReply?)
    && (was.ReaderReporting? <==> r.ReportRead?) && (now.ReaderReporting? <==> r.ReadFails?)
    && (r.ReadFails? ==> now.fault == r.fault)
    && (ReaderEnded(was) <==> r.LeaveRead?) && (ReaderEnded(now) <==> r.LeaveRead? || r.Abandon? || r.ReportRead?)
  }

  ghost predicate ReaderTouch(s: State, r: ReaderStep, t: State) {
    ReaderFrame(s, r, t) && ReaderMoves(s.link.reader, r, t.link.reader)
  }

  lemma ReaderFramed(s: State, r: ReaderStep)
    requires ReaderFits(s, r)
    ensures ReaderFrame(s, r, ReaderNext(s, r))
  {
    match r {
      case Discard =>
      case Deny =>
      case Admit =>
      case ReadFails(_) =>
      case ClaimGranted(_) =>
      case ClaimRefused(_) =>
      case TakeSlot =>
      case Abandon =>
      case AddWork =>
      case Spawn =>
      case LockReply =>
      case SendReply(_) =>
      case ReportRead(_) =>
      case LeaveRead =>
    }
  }

  lemma ReaderTouches(s: State, r: ReaderStep)
    requires ReaderFits(s, r)
    ensures ReaderTouch(s, r, ReaderNext(s, r))
  {
    ReaderFramed(s, r);
  }

  lemma ReaderWiring(s: State, r: ReaderStep, t: State)
    requires Wiring(s.phase, s.link) && ReaderTouch(s, r, t) && !s.link.reader.ReaderGone?
    ensures Wiring(t.phase, t.link)
  {
  }

  lemma ReaderErrors(s: State, r: ReaderStep, t: State)
    requires Errors(s.phase, s.stopping, s.link) && Wiring(s.phase, s.link) && ReaderFits(s, r) && ReaderTouch(s, r, t)
    ensures Errors(t.phase, t.stopping, t.link)
  {
  }

  lemma ReaderLocks(s: State, r: ReaderStep, t: State)
    requires Locks(s.link.writer, s.link.reader, s.link.heart, s.link.workers)
    requires ReaderFits(s, r) && ReaderTouch(s, r, t) && !r.Spawn?
    ensures Locks(t.link.writer, t.link.reader, t.link.heart, t.link.workers)
  {
  }

  lemma ReaderJobs(s: State, r: ReaderStep, t: State)
    requires WorkerJobs(s.link.workers, s.link.decoded) && ReaderJob(s.link.reader, s.link.decoded, s.link.workers)
    requires PolicyHeld(s.link.reader, s.link.workers)
    requires ReaderTouch(s, r, t) && !r.Spawn? && !r.Admit? && !r.Deny?
    ensures WorkerJobs(t.link.workers, t.link.decoded) && ReaderJob(t.link.reader, t.link.decoded, t.link.workers)
    ensures PolicyHeld(t.link.reader, t.link.workers)
  {
  }

  lemma DecodeJobs(s: State, r: ReaderStep)
    requires WorkerJobs(s.link.workers, s.link.decoded) && PolicyHeld(s.link.reader, s.link.workers)
    requires ReaderEnabled(s, r) && (r.Deny? || r.Admit?)
    ensures var l := ReaderNext(s, r).link;
      WorkerJobs(l.workers, l.decoded) && ReaderJob(l.reader, l.decoded, l.workers) && PolicyHeld(l.reader, l.workers)
  {
  }

  lemma ReaderWire(s: State, r: ReaderStep, t: State)
    requires WireSound(s.link.wire, s.link.decoded) && WorkersTurn(s.link.wire, s.link.workers)
    requires ReaderTurn(s.link.wire, s.link.reader)
    requires ReaderTouch(s, r, t) && !r.Spawn? && !r.Admit? && !r.Deny? && r != SendReply(true)
    ensures WireSound(t.link.wire, t.link.decoded) && WorkersTurn(t.link.wire, t.link.workers)
    ensures ReaderTurn(t.link.wire, t.link.reader)
  {
  }

  lemma DecodeWire(s: State, r: ReaderStep)
    requires WireSound(s.link.wire, s.link.decoded) && WorkersTurn(s.link.wire, s.link.workers)
    requires ReaderFits(s, r) && (r.Deny? || r.Admit?)
    ensures var l := ReaderNext(s, r).link;
      WireSound(l.wire, l.decoded) && WorkersTurn(l.wire, l.workers) && ReaderTurn(l.wire, l.reader)
  {
  }

  lemma ReplyWire(s: State)
    requires WireSound(s.link.wire, s.link.decoded) && WorkersTurn(s.link.wire, s.link.workers)
    requires ReaderTurn(s.link.wire, s.link.reader) && ReaderFits(s, SendReply(true))
    requires ReaderJob(s.link.reader, s.link.decoded, s.link.workers)
    ensures var l := ReaderNext(s, SendReply(true)).link;
      WireSound(l.wire, l.decoded) && WorkersTurn(l.wire, l.workers) && ReaderTurn(l.wire, l.reader)
  {
    var job := s.link.reader.job;
    WireGrows(s.link.wire, Answer(job.serial, job.cmd.id, Some(s.link.reader.code)), s.link.decoded);
  }

  lemma ReaderReplays(s: State, r: ReaderStep, t: State)
    requires Tracks(s.seen, s.accepted, s.horizon, s.now) && ReaderEnabled(s, r)
    requires ReaderTouch(s, r, t) && t == ReaderNext(s, r)
    ensures Tracks(t.seen, t.accepted, t.horizon, t.now)
  {
    if r.ClaimGranted? || r.ClaimRefused? {
      ClaimTracks(s.seen, s.accepted, s.horizon, s.link.reader.job.cmd.id, s.now);
    }
  }

  lemma ReaderTickets(s: State, r: ReaderStep, t: State)
    requires Tickets(s) && ReaderTouch(s, r, t) && !r.Spawn? && !r.ClaimGranted?
    requires HasTicket(t.link.reader) ==> t.link.reader.job == s.link.reader.job
    ensures Tickets(t)
  {
  }

  /** A granted claim is the client's latest: no goroutine has been started for it. */
  lemma ClaimTickets(s: State, seen: map<string, int>)
    requires Tickets(s) && ReaderFits(s, ClaimGranted(seen))
    ensures Tickets(ReaderNext(s, ClaimGranted(seen)))
  {
    var t := ReaderNext(s, ClaimGranted(seen));
    forall i | 0 <= i < |s.launches| ensures LaunchOwned(t.launches[i], t.past, t.accepted, t.now) {
      assert LaunchOwned(s.launches[i], s.past, s.accepted, s.now);
    }
    forall i | 0 <= i < |t.launches| && t.launches[i].client == |t.past| ensures t.launches[i].ticket < |s.accepted| {
      assert LaunchOwned(s.launches[i], s.past, s.accepted, s.now);
    }
  }

  /** The `go` statement hands the slot, the wait-group entry and the claim to the new
      goroutine. */
  lemma SpawnCounts(s: State)
    requires Counts(Capacity(s.setup.concurrency), s.link) && ReaderFits(s, Spawn)
    requires s.link.reader.job.serial !in s.link.workers
    ensures Counts(Capacity(s.setup.concurrency), ReaderNext(s, Spawn).link)
  {
    var job := s.link.reader.job;
    LoadAdded(s.link.workers, job.serial, Worker(job.cmd, |s.launches|, Handling));
  }

  lemma SpawnJobs(s: State)
    requires WorkerJobs(s.link.workers, s.link.decoded) && ReaderJob(s.link.reader, s.link.decoded, s.link.workers)
    requires PolicyHeld(s.link.reader, s.link.workers)
    requires Locks(s.link.writer, s.link.reader, s.link.heart, s.link.workers) && ReaderFits(s, Spawn)
    ensures var l := ReaderNext(s, Spawn).link;
      && WorkerJobs(l.workers, l.decoded) && ReaderJob(l.reader, l.decoded, l.workers) && PolicyHeld(l.reader, l.workers)
      && Locks(l.writer, l.reader, l.heart, l.workers)
  {
  }

  lemma SpawnWire(s: State)
    requires WorkersTurn(s.link.wire, s.link.workers) && ReaderTurn(s.link.wire, s.link.reader) && ReaderFits(s, Spawn)
    ensures var l := ReaderNext(s, Spawn).link; WorkersTurn(l.wire, l.workers) && ReaderTurn(l.wire, l.reader)
  {
  }

  lemma SpawnLaunches(launches: seq<Launch>, past: seq<seq<Claim>>, accepted: seq<Claim>, launch: Launch, now: int)
    requires Launches(launches, past, accepted, now) && LaunchOwned(launch, past, accepted, now)
    requires launch.client == |past| && launch.at == now
    requires forall i :: 0 <= i < |launches| && launches[i].client == |past| ==> launches[i].ticket < launch.ticket
    ensures Launches(launches + [launch], past, accepted, now)
  {
    forall i | 0 <= i < |launches| ensures launches[i].client <= |past| && launches[i].at <= now {
      assert LaunchOwned(launches[i], past, accepted, now);
    }
  }

  lemma SpawnTickets(s: State)
    requires Tickets(s) && Chronological(s.accepted, s.now) && ReaderFits(s, Spawn)
    requires s.link.reader.job.serial !in s.link.workers
    ensures Tickets(ReaderNext(s, Spawn))
  {
    SpawnLaunches(s.launches, s.past, s.accepted, Launch(|s.past|, s.link.reader.ticket, s.now), s.now);
    SpawnWorkers(s);
  }

  lemma SpawnWorkers(s: State)
    requires WorkerTickets(s.link.workers, s.launches, |s.past|, s.accepted)
    requires ReaderTicket(s.link.reader, s.launches, |s.past|, s.accepted)
    requires ReaderFits(s, Spawn) && s.link.reader.job.serial !in s.link.workers
    ensures var t := ReaderNext(s, Spawn); WorkerTickets(t.link.workers, t.launches, |t.past|, t.accepted)
  {
  }

  lemma SpawnKeeps(s: State)
    requires Inv(s) && ReaderFits(s, Spawn)
    ensures Inv(ReaderNext(s, Spawn))
  {
    var t := ReaderNext(s, Spawn);
    ReaderTouches(s, Spawn);
    ReaderWiring(s, Spawn, t);
    ReaderErrors(s, Spawn, t);
    SpawnCounts(s);
    SpawnJobs(s);
    SpawnWire(s);
    SpawnTickets(s);
  }

  lemma ReaderCounts(s: State, r: ReaderStep)
    requires Counts(Capacity(s.setup.concurrency), s.link) && !r.Spawn? && ReaderFits(s, r)
    ensures Counts(Capacity(s.setup.concurrency), ReaderNext(s, r).link)
  {
    match r {
      case Discard =>
      case Deny =>
      case Admit =>
      case ReadFails(_) =>
      case ClaimGranted(_) =>
      case ClaimRefused(_) =>
      case TakeSlot =>
      case Abandon =>
      case AddWork =>
      case LockReply =>
      case SendReply(_) =>
      case ReportRead(_) =>
      case LeaveRead =>
    }
  }

  lemma ReaderKeeps(s: State, r: ReaderStep)
    requires Inv(s) && ReaderEnabled(s, r) && !r.Spawn?
    ensures Inv(ReaderNext(s, r))
  {
    var t := ReaderNext(s, r);
    ReaderTouches(s, r);
    ReaderWiring(s, r, t);
    ReaderErrors(s, r, t);
    ReaderLocks(s, r, t);
    ReaderCounts(s, r);
    ReaderReplays(s, r, t);
    if r.ClaimGranted? {
      ClaimTickets(s, r.seen);
    } else {
      ReaderTickets(s, r, t);
    }
    if r.Admit? || r.Deny? {
      DecodeJobs(s, r);
      DecodeWire(s, r);
    } else {
      ReaderJobs(s, r, t);
      if r == SendReply(true) {
        ReplyWire(s);
      } else {
        ReaderWire(s, r, t);
      }
    }
  }

  // All of them.

  lemma InitInv(setup: Setup, now: int)
    ensures Inv(Init(setup, now))
  {
    NewLinkCounts(Capacity(setup.concurrency));
  }

  lemma StepKeepsInv(s: State, step: Step)
    requires Inv(s) && Enabled(s, step)
    ensures Inv(Next(s, step))
  {
    match step {
      case Env(e) => EnvKeeps(s, e);
      case Main(m) => MainKeeps(s, m);
      case Read(r) => if r.Spawn? { SpawnKeeps(s); } else { ReaderKeeps(s, r); }
      case Beat(h) => HeartKeeps(s, h);
      case Work(k, w) => WorkerKeeps(s, k, w);
    }
  }

  lemma {:induction false} RunKeepsInv(from: State, steps: seq<Step>, to: State)
    requires Inv(from) && Runs(from, steps, to)
    ensures Inv(to)
    decreases |steps|
  {
    if steps != [] {
      StepKeepsInv(from, steps[0]);
      RunKeepsInv(Next(from, steps[0]), steps[1..], to);
    }
  }

  lemma ReachableInv(s: State)
    requires Reachable(s)
    ensures Inv(s)
  {
    var setup: Setup, now: int, steps: seq<Step> :| Runs(Init(setup, now), steps, s);
    InitInv(setup, now);
    RunKeepsInv(Init(setup, now), steps, s);
  }
}
