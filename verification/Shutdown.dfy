/** Once the socket is closed the session winds down: every step of a goroutine brings the
    return of `serveConnection` closer, and one is always possible. The assumptions are in
    the machine: a read or write on a closed socket can fail, a handler can return. */
module Shutdown {
  import opened Wrappers
  import opened Replay
  import opened Session
  import opened SessionInvariants
  import opened SessionTheorems

  predicate WindingDown(p: Phase) {
    p.JoiningLoops? || p.JoiningCommands?
  }

  function ReaderWeight(r: Reader): nat {
    match r
    case Claiming(_) => 12
    case AwaitingSlot(_, _) => 11
    case Adding(_, _) => 10
    case Spawning(_, _) => 9
    case Replying(_, _) => 5
    case WritingReply(_, _) => 4
    case Reading => 3
    case ReaderReporting(_) => 2
    case ReaderLeaving => 1
    case ReaderGone => 0
  }

  function HeartWeight(h: Heart): nat {
    match h
    case Notifying => 6
    case Resting => 5
    case WantsLock => 4
    case Pinging => 3
    case HeartReporting(_) => 2
    case HeartLeaving => 1
    case HeartGone => 0
  }

  function PhaseWeight(p: Phase): nat {
    if p.JoiningLoops? then 2 else if p.JoiningCommands? then 1 else 0
  }

  /** Unread frames weigh more than all a read loop can do with one of them. */
  ghost function Weight(s: State): nat {
    var l := s.link;
    10 * |l.inbox| + ReaderWeight(l.reader) + HeartWeight(l.heart) + Load(l.workers) + PhaseWeight(s.phase)
  }

  /** The clock, a stop request, and what a handler asks of Kubernetes on the way. */
  predicate Idle(step: Step) {
    (step.Env? && !step.env.Arrive?) || (step.Work? && step.work.CallApi?)
  }

  lemma SpawnProgress(s: State)
    requires ReaderFits(s, Spawn) && s.link.reader.job.serial !in s.link.workers
    ensures Weight(ReaderNext(s, Spawn)) < Weight(s)
  {
    var l := s.link;
    LoadAdded(l.workers, l.reader.job.serial, Worker(l.reader.job.cmd, |s.launches|, Handling));
  }

  lemma ReaderProgress(s: State, r: ReaderStep)
    requires ReaderFits(s, r) && !r.Spawn?
    ensures Weight(ReaderNext(s, r)) < Weight(s)
  {
    LightReaderStep(s, r);
  }

  lemma LightReaderStep(s: State, r: ReaderStep)
    requires ReaderFits(s, r) && !r.Spawn?
    ensures var l, t := s.link, ReaderNext(s, r);
      && t.phase == s.phase && t.link.workers == l.workers && t.link.heart == l.heart
      && 10 * |t.link.inbox| + ReaderWeight(t.link.reader) < 10 * |l.inbox| + ReaderWeight(l.reader)
  {
    match r {
      case Discard =>
      case Deny =>
      case Admit =>
      case ReadFails(_) =>
      case ClaimGranted(_) =>
      case ClaimRefused(_) =>
      case TakeSlot =>
      case Abandon =>
      case AddWork =>
      case LockReply =>
      case SendReply(_) =>
      case ReportRead(_) =>
      case LeaveRead =>
    }
  }

  lemma HeartProgress(s: State, h: HeartStep)
    requires HeartEnabled(s, h) && s.link.closed
    ensures Weight(HeartNext(s, h)) < Weight(s)
  {
    match h {
      case Tick =>
      case HeartDone =>
      case LockBeat =>
      case SendBeat(_) =>
      case Notify =>
      case ReportBeat(_) =>
      case LeaveBeat =>
    }
  }

  lemma WorkerProgress(s: State, k: nat, w: WorkerStep)
    requires WorkerFits(s, k, w)
    ensures if w.CallApi? then Weight(WorkerNext(s, k, w)) == Weight(s) else Weight(WorkerNext(s, k, w)) < Weight(s)
  {
    var l := s.link;
    match w {
      case CallApi(_) =>
      case Respond(encodes) => LoadMoved(l, k, if encodes then Answering else Releasing);
      case LockAnswer => LoadMoved(l, k, Writing);
      case SendAnswer(_) => LoadMoved(l, k, Releasing);
      case Release => LoadMoved(l, k, Signalling);
      case Signal => LoadSplit(l.workers, k);
    }
  }

  ghost predicate Progresses(s: State, step: Step, t: State) {
    && (if Idle(step) then Weight(t) == Weight(s) && t.phase == s.phase else Weight(t) < Weight(s))
    && (WindingDown(t.phase) || t.phase.Returned?)
  }

  lemma MainWindsDown(s: State, m: MainStep)
    requires WindingDown(s.phase) && MainEnabled(s, m)
    ensures Progresses(s, Main(m), MainNext(s, m))
  {
    assert m.JoinLoops? || m.JoinCommands?;
  }

  lemma EnvWindsDown(s: State, e: EnvStep)
    requires WindingDown(s.phase) && s.link.closed && EnvEnabled(s, e)
    ensures Progresses(s, Env(e), EnvNext(s, e))
  {
  }

  lemma ReaderWindsDown(s: State, r: ReaderStep)
    requires WindingDown(s.phase) && ReaderFits(s, r) && Wiring(s.phase, s.link)
    requires ReaderJob(s.link.reader, s.link.decoded, s.link.workers)
    ensures Progresses(s, Read(r), ReaderNext(s, r))
  {
    ReaderTouches(s, r);
    ReaderWiring(s, r, ReaderNext(s, r));
    if r.Spawn? {
      SpawnProgress(s);
    } else {
      ReaderProgress(s, r);
    }
  }

  lemma HeartWindsDown(s: State, h: HeartStep)
    requires WindingDown(s.phase) && s.link.closed && HeartEnabled(s, h) && Wiring(s.phase, s.link)
    ensures Progresses(s, Beat(h), HeartNext(s, h))
  {
    HeartFrame(s, h);
    HeartProgress(s, h);
  }

  lemma WorkerWindsDown(s: State, k: nat, w: WorkerStep)
    requires WindingDown(s.phase) && WorkerFits(s, k, w) && Wiring(s.phase, s.link)
    ensures Progresses(s, Work(k, w), WorkerNext(s, k, w))
  {
    WorkerFrame(s, k, w);
    WorkerProgress(s, k, w);
  }

  /** While winding down, every step but an idle one reduces the weight, an idle one keeps
      it, and the session goes nowhere but to its return. */
  lemma StepWindsDown(s: State, step: Step)
    requires Inv(s) && WindingDown(s.phase) && Enabled(s, step)
    ensures Progresses(s, step, Next(s, step))
  {
    match step {
      case Env(e) => EnvWindsDown(s, e);
      case Main(m) => MainWindsDown(s, m);
      case Read(r) => ReaderWindsDown(s, r);
      case Beat(h) => HeartWindsDown(s, h);
      case Work(k, w) => WorkerWindsDown(s, k, w);
    }
  }

  function Busy(steps: seq<Step>): nat {
    if steps == [] then 0 else B(!Idle(steps[0])) + Busy(steps[1..])
  }

  /** A run that stays within the wind-down of one session. */
  ghost predicate WindsDown(from: State, steps: seq<Step>, to: State)
    decreases |steps|
  {
    if steps == [] then from == to
    else WindingDown(from.phase) && Enabled(from, steps[0]) && WindsDown(Next(from, steps[0]), steps[1..], to)
  }

  /** However the scheduler behaves, a winding-down session takes at most `Weight` more
      steps that are not idle. */
  lemma {:induction false} WindDownBounded(from: State, steps: seq<Step>, to: State)
    requires Inv(from) && WindsDown(from, steps, to)
    ensures Busy(steps) + Weight(to) <= Weight(from)
    decreases |steps|
  {
    if steps != [] {
      StepWindsDown(from, steps[0]);
      StepKeepsInv(from, steps[0]);
      WindDownBounded(Next(from, steps[0]), steps[1..], to);
    }
  }

  ghost predicate SomeoneWrites(l: Link) {
    l.reader.WritingReply? || l.heart.Pinging? || exists k :: k in l.workers && l.workers[k].stage.Writing?
  }

  /** A step that is possible now and not idle: whoever holds the mutex writes; failing
      that, any goroutine still there can move; failing that, the main goroutine can. */
  ghost function Nudge(s: State): Step {
    var l := s.link;
    if SomeoneWrites(l) then
      if l.reader.WritingReply? then Read(SendReply(false))
      else if l.heart.Pinging? then Beat(SendBeat(false))
      else
        var k :| k in l.workers && l.workers[k].stage.Writing?;
        Work(k, SendAnswer(false))
    else if !l.reader.ReaderGone? then Read(ReaderNudge(s))
    else if !l.heart.HeartGone? then Beat(HeartNudge(l.heart))
    else if s.phase.JoiningLoops? then Main(JoinLoops)
    else if l.workers != map[] then
      var k :| k in l.workers;
      Work(k, WorkerNudge(l.workers[k].stage))
    else Main(JoinCommands)
  }

  function ReaderNudge(s: State): ReaderStep {
    match s.link.reader
    case Reading => ReadFails(OtherFault)
    case Claiming(job) =>
      var claim := Claims(s.seen, job.cmd.id, s.now);
      if claim.0 then ClaimGranted(claim.1) else ClaimRefused(claim.1)
    case AwaitingSlot(_, _) => Abandon
    case Adding(_, _) => AddWork
    case Spawning(_, _) => Spawn
    case Replying(_, _) => LockReply
    case WritingReply(_, _) => SendReply(false)
    case ReaderReporting(_) => ReportRead(DroppedOnCancel)
    case _ => LeaveRead
  }

  function HeartNudge(h: Heart): HeartStep {
    match h
    case Resting => HeartDone
    case WantsLock => LockBeat
    case Pinging => SendBeat(false)
    case Notifying => Notify
    case HeartReporting(_) => ReportBeat(DroppedOnCancel)
    case _ => LeaveBeat
  }

  function WorkerNudge(stage: Stage): WorkerStep {
    match stage
    case Handling => Respond(true)
    case Answering => LockAnswer
    case Writing => SendAnswer(false)
    case Releasing => Release
    case Signalling => Signal
  }

  lemma MutexFree(l: Link)
    requires Locks(l.writer, l.reader, l.heart, l.workers)
    requires !SomeoneWrites(l)
    ensures l.writer == None
  {
    match l.writer {
      case None =>
      case Some(ByReader) =>
      case Some(ByHeart) =>
      case Some(ByWorker(k)) =>
    }
  }

  lemma ReaderCanMove(s: State)
    requires Inv(s) && WindingDown(s.phase) && s.link.writer == None && !s.link.reader.ReaderGone?
    ensures ReaderEnabled(s, ReaderNudge(s))
  {
  }

  lemma HeartCanMove(s: State)
    requires Inv(s) && WindingDown(s.phase) && s.link.writer == None && !s.link.heart.HeartGone?
    ensures HeartEnabled(s, HeartNudge(s.link.heart))
  {
  }

  lemma WorkerCanMove(s: State, k: nat)
    requires Inv(s) && s.link.writer == None && k in s.link.workers && !s.link.workers[k].stage.Writing?
    ensures WorkerEnabled(s, k, WorkerNudge(s.link.workers[k].stage))
  {
    LoadSplit(s.link.workers, k);
  }

  lemma MainCanMove(s: State)
    requires Inv(s) && WindingDown(s.phase) && s.link.reader.ReaderGone? && s.link.heart.HeartGone?
    ensures s.phase.JoiningLoops? ==> MainEnabled(s, JoinLoops)
    ensures s.phase.JoiningCommands? && s.link.workers == map[] ==> MainEnabled(s, JoinCommands)
  {
    NoWorkers(s.link.workers);
  }

  lemma WriterCanMove(s: State)
    requires SomeoneWrites(s.link)
    ensures Enabled(s, Nudge(s)) && !Idle(Nudge(s))
  {
  }

  /** No deadlock: a winding-down session always has a step that is not idle. */
  lemma NeverStuck(s: State)
    requires Inv(s) && WindingDown(s.phase)
    ensures Enabled(s, Nudge(s)) && !Idle(Nudge(s))
  {
    var l := s.link;
    if SomeoneWrites(l) {
      WriterCanMove(s);
    } else {
      MutexFree(l);
      if !l.reader.ReaderGone? {
        ReaderCanMove(s);
      } else if !l.heart.HeartGone? {
        HeartCanMove(s);
      } else {
        MainCanMove(s);
        if s.phase.JoiningCommands? && l.workers != map[] {
          var k :| k in l.workers && Nudge(s) == Work(k, WorkerNudge(l.workers[k].stage));
          WorkerCanMove(s, k);
        }
      }
    }
  }

  lemma WindsDownFrom(s: State, step: Step, rest: seq<Step>, end: State)
    requires WindingDown(s.phase) && Enabled(s, step) && WindsDown(Next(s, step), rest, end)
    ensures WindsDown(s, [step] + rest, end)
  {
    assert ([step] + rest)[1..] == rest;
  }

  /** So the session can always be driven to its return, within its weight. */
  lemma {:induction false} ReturnReached(s: State) returns (steps: seq<Step>, end: State)
    requires Inv(s) && (WindingDown(s.phase) || s.phase.Returned?)
    ensures WindsDown(s, steps, end) && end.phase.Returned? && |steps| <= Weight(s)
    decreases Weight(s)
  {
    if s.phase.Returned? {
      steps, end := [], s;
    } else {
      NeverStuck(s);
      var step := Nudge(s);
      StepWindsDown(s, step);
      StepKeepsInv(s, step);
      var rest, last := ReturnReached(Next(s, step));
      WindsDownFrom(s, step, rest, last);
      steps, end := [step] + rest, last;
    }
  }

  /** No session is stuck: whatever a run has done, a session whose socket is closed takes
      a bounded number of further steps in every schedule, always has one to take, and can
      be driven to the return of `serveConnection`. */
  lemma EverySessionReturns(s: State)
    requires Reachable(s) && WindingDown(s.phase)
    ensures forall steps: seq<Step>, to: State :: WindsDown(s, steps, to) ==>
      Busy(steps) <= Weight(s) && (to.phase.Returned? || (Enabled(to, Nudge(to)) && !Idle(Nudge(to))))
    ensures exists steps: seq<Step>, end: State :: WindsDown(s, steps, end) && end.phase.Returned?
  {
    ReachableInv(s);
    forall steps: seq<Step>, to: State | WindsDown(s, steps, to)
      ensures Busy(steps) <= Weight(s) && (to.phase.Returned? || (Enabled(to, Nudge(to)) && !Idle(Nudge(to))))
    {
      WindDownBounded(s, steps, to);
      WindDownKeeps(s, steps, to);
      if !to.phase.Returned? {
        NeverStuck(to);
      }
    }
    var steps, end := ReturnReached(s);
  }

  lemma {:induction false} WindDownKeeps(from: State, steps: seq<Step>, to: State)
    requires Inv(from) && WindsDown(from, steps, to) && (WindingDown(from.phase) || from.phase.Returned?)
    ensures Inv(to) && (WindingDown(to.phase) || to.phase.Returned?)
    decreases |steps|
  {
    if steps != [] {
      StepWindsDown(from, steps[0]);
      StepKeepsInv(from, steps[0]);
      WindDownKeeps(Next(from, steps[0]), steps[1..], to);
    }
  }

  // Before the socket is closed.

  /** As far as the main goroutine waits for anyone, `t` is no worse than `s`. */
  ghost predicate NoWorse(s: State, t: State) {
    && t.phase == s.phase && (s.stopping ==> t.stopping)
    && (s.link.errors != [] ==> t.link.errors != [])
    && (s.link.loops == 0 ==> t.link.loops == 0)
    && (s.phase.JoiningCommands? && s.link.running == 0 ==> t.link.running == 0)
  }

  lemma ReaderNoWorse(s: State, r: ReaderStep)
    requires Wiring(s.phase, s.link) && ReaderFits(s, r)
    ensures NoWorse(s, ReaderNext(s, r))
  {
    ReaderTouches(s, r);
  }

  lemma HeartNoWorse(s: State, h: HeartStep)
    requires HeartEnabled(s, h)
    ensures NoWorse(s, HeartNext(s, h))
  {
    HeartFrame(s, h);
  }

  lemma WorkerNoWorse(s: State, k: nat, w: WorkerStep)
    requires WorkerFits(s, k, w)
    ensures NoWorse(s, WorkerNext(s, k, w))
  {
    WorkerFrame(s, k, w);
  }

  lemma StepNoWorse(s: State, step: Step)
    requires Wiring(s.phase, s.link) && Enabled(s, step) && !step.Main?
    ensures NoWorse(s, Next(s, step))
  {
    match step {
      case Env(e) =>
      case Read(r) => ReaderNoWorse(s, r);
      case Beat(h) => HeartNoWorse(s, h);
      case Work(k, w) => WorkerNoWorse(s, k, w);
    }
  }

  /** Nobody can take away what the main goroutine is ready to do: a step it may take it
      may still take after any step of another goroutine or of the environment. */
  lemma MainNeverHeldUp(s: State, m: MainStep, step: Step)
    requires Reachable(s) && MainEnabled(s, m) && Enabled(s, step) && !step.Main?
    ensures MainEnabled(Next(s, step), m)
  {
    WiringHolds(s);
    StepNoWorse(s, step);
    StillReady(s, Next(s, step), m);
  }

  lemma WiringHolds(s: State)
    requires Reachable(s)
    ensures Wiring(s.phase, s.link)
  {
    ReachableInv(s);
  }

  lemma StillReady(s: State, t: State, m: MainStep)
    requires NoWorse(s, t) && MainEnabled(s, m)
    ensures MainEnabled(t, m)
  {
  }

  lemma {:induction false} WindsDownRuns(from: State, steps: seq<Step>, to: State)
    requires WindsDown(from, steps, to)
    ensures Runs(from, steps, to)
    decreases |steps|
  {
    if steps != [] {
      WindsDownRuns(Next(from, steps[0]), steps[1..], to);
    }
  }

  /** `serveConnection` can return within `n` steps. */
  ghost predicate ReturnsWithin(s: State, n: nat) {
    exists steps: seq<Step>, end: State :: Runs(s, steps, end) && end.phase.Returned? && |steps| <= n
  }

  lemma OneStepMore(s: State, step: Step, n: nat)
    requires Enabled(s, step) && ReturnsWithin(Next(s, step), n)
    ensures ReturnsWithin(s, n + 1)
  {
    var rest: seq<Step>, end: State :| Runs(Next(s, step), rest, end) && end.phase.Returned? && |rest| <= n;
    var steps := [step] + rest;
    assert steps[1..] == rest;
    assert Runs(s, steps, end);
  }

  lemma ClosedReturns(s: State)
    requires Inv(s) && s.phase.JoiningLoops?
    ensures ReturnsWithin(s, Weight(s))
  {
    var steps, end := ReturnReached(s);
    WindsDownRuns(s, steps, end);
  }

  /** Picking, cancelling, saying goodbye and closing touch no goroutine. */
  predicate TowardsClose(m: MainStep) {
    m.SelectStop? || m.SelectError? || m.Cancel? || m.Goodbye? || m.CloseSocket?
  }

  function StepsToClose(p: Phase): nat {
    match p
    case Selecting => 4
    case Cancelling(_) => 3
    case SayingGoodbye(_) => 2
    case Closing(_) => 1
    case _ => 0
  }

  lemma ClosingOn(s: State, m: MainStep)
    requires MainEnabled(s, m) && TowardsClose(m)
    ensures var t := MainNext(s, m);
      && StepsToClose(t.phase) == StepsToClose(s.phase) - 1
      && (if m.CloseSocket? then t.phase.JoiningLoops? else InSession(t.phase) && StepsToClose(t.phase) >= 1 && !t.phase.Selecting?)
      && Weight(t) == Weight(s) + if m.CloseSocket? then 2 else 0
  {
  }

  function NextClosing(p: Phase): MainStep {
    if p.Cancelling? then Cancel else if p.SayingGoodbye? then Goodbye else CloseSocket
  }

  lemma {:induction false} ClosingReturns(s: State, m: MainStep)
    requires Inv(s) && MainEnabled(s, m) && TowardsClose(m)
    ensures ReturnsWithin(s, Weight(s) + 2 + StepsToClose(s.phase))
    decreases StepsToClose(s.phase)
  {
    var t := MainNext(s, m);
    StepKeepsInv(s, Main(m));
    ClosingOn(s, m);
    if m.CloseSocket? {
      ClosedReturns(t);
      OneStepMore(s, Main(m), Weight(t));
    } else {
      ClosingReturns(t, NextClosing(t.phase));
      OneStepMore(s, Main(m), Weight(t) + 2 + StepsToClose(t.phase));
    }
  }

  /** From the moment a loop has ended or the agent is stopped, `serveConnection` can
      return within its weight and six steps more. */
  lemma ReadySelectReturns(s: State)
    requires Reachable(s) && s.phase.Selecting?
    requires s.stopping || ReaderEnded(s.link.reader) || HeartEnded(s.link.heart)
    ensures ReturnsWithin(s, Weight(s) + 6)
  {
    ReachableInv(s);
    NoStuckSession(s);
    ClosingReturns(s, if s.stopping then SelectStop else SelectError);
  }
}
