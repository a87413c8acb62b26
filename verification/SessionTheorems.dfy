/** What holds in every reachable state of the agent. */
module SessionTheorems {
  import opened Wrappers
  import opened Router
  import opened Session
  import opened SessionInvariants

  /** The agent is ready exactly while a session lives that has announced a heartbeat: one
      it has written, and not merely the one it is about to announce. So readiness is
      never resurrected, and dialing, sleeping or waiting for credentials it is not ready. */
  lemma ReadyExactly(s: State)
    requires Reachable(s)
    ensures Ready(s) <==> (InSession(s.phase) || s.phase.Returned?) && s.link.beats >= 1 + B(s.link.heart.Notifying?)
    ensures s.phase.Dialing? || s.phase.Sleeping? || s.phase.AwaitingCredentials? || s.phase.Exited? ==> !Ready(s)
  {
    ReachableInv(s);
  }

  /** Every heartbeat that is announced makes it so. */
  lemma HeartbeatMakesReady(s: State)
    requires Reachable(s) && HeartEnabled(s, Notify)
    ensures Ready(HeartNext(s, Notify))
  {
    ReachableInv(s);
  }

  /** When `serveConnection` returns, every goroutine of the session is gone, the mutex and
      all semaphore slots are free, and both wait groups are at zero. */
  lemma ShutdownJoinsEverything(s: State)
    requires Reachable(s) && !InSession(s.phase)
    ensures var l := s.link;
      && l.reader.ReaderGone? && l.heart.HeartGone? && l.workers == map[]
      && l.writer == None && l.slots == 0 && l.loops == 0 && l.running == 0
  {
    ReachableInv(s);
    NothingHeld(Capacity(s.setup.concurrency), s.link);
  }

  lemma NothingHeld(capacity: nat, l: Link)
    requires Counts(capacity, l) && l.workers == map[] && l.reader.ReaderGone?
    ensures l.slots == 0 && l.running == 0
  {
    NoWorkers(l.workers);
  }

  /** Once `commandWG.Wait` has begun there is no `wg.Add` and no new goroutine. */
  lemma NoAddDuringWait(s: State)
    requires Reachable(s)
    ensures Enabled(s, Read(AddWork)) || Enabled(s, Read(Spawn)) ==> InSession(s.phase) && !s.phase.JoiningCommands?
    ensures s.phase.JoiningCommands? ==> s.link.reader.ReaderGone? && s.link.heart.HeartGone?
  {
    ReachableInv(s);
  }

  /** A loop that ends, or a stop, always wakes `serveConnection`. */
  lemma NoStuckSession(s: State)
    requires Reachable(s)
    requires s.phase.Selecting? && (s.stopping || ReaderEnded(s.link.reader) || HeartEnded(s.link.heart))
    ensures MainEnabled(s, SelectStop) || MainEnabled(s, SelectError)
  {
    ReachableInv(s);
  }

  /** The default branch of the report is never taken: no loop finds the channel full. */
  lemma NoErrorDropped(s: State)
    requires Reachable(s)
    ensures !ReaderFits(s, ReportRead(DroppedOnFull)) && !HeartEnabled(s, ReportBeat(DroppedOnFull))
  {
    ErrorsHold(s);
    RoomToReport(s.phase, s.stopping, s.link);
  }

  lemma ErrorsHold(s: State)
    requires Reachable(s)
    ensures Errors(s.phase, s.stopping, s.link)
  {
    ReachableInv(s);
  }

  lemma RoomToReport(phase: Phase, stopping: bool, l: Link)
    requires Errors(phase, stopping, l)
    ensures l.reader.ReaderReporting? || l.heart.HeartReporting? ==> |l.errors| < 2
  {
  }

  /** Slots are taken by the goroutines that have not released theirs and by the read loop
      between acquiring and starting; the wait group never undercounts them; and no
      release, `wg.Done` or `loopWG.Done` can find its counter at zero. */
  lemma SemaphoreAccounting(s: State)
    requires Reachable(s)
    ensures s.link.slots == Holding(s.link.workers) + B(HoldsSlot(s.link.reader))
    ensures s.link.slots <= Capacity(s.setup.concurrency) && Capacity(s.setup.concurrency) >= 1
    ensures Holding(s.link.workers) <= s.link.running
    ensures forall k :: k in s.link.workers && s.link.workers[k].stage.Releasing? ==> s.link.slots > 0
    ensures forall k :: k in s.link.workers && s.link.workers[k].stage.Signalling? ==> s.link.running > 0
    ensures s.link.reader.ReaderLeaving? || s.link.heart.HeartLeaving? ==> s.link.loops > 0
  {
    ReachableInv(s);
    HoldersRun(s.link.workers);
    forall k | k in s.link.workers
      ensures s.link.workers[k].stage.Releasing? ==> s.link.slots > 0
      ensures s.link.running > 0
    {
      LoadSplit(s.link.workers, k);
    }
  }

  lemma HoldersRun(ws: map<nat, Worker>)
    ensures Holding(ws) <= Running(ws)
  {
    NoWorkers(ws);
    AtMostAll(ws, 2);
  }

  ghost function Handlers(ws: map<nat, Worker>): set<nat> {
    set k | k in ws && ws[k].stage.Handling?
  }

  /** The bound on concurrent handlers: what is configured, or eight. */
  lemma HandlersBounded(s: State)
    requires Reachable(s)
    ensures |Handlers(s.link.workers)| <= if s.setup.concurrency > 0 then s.setup.concurrency else 8
  {
    SemaphoreAccounting(s);
    HandlersHold(s.link.workers);
  }

  lemma HandlersHold(ws: map<nat, Worker>)
    ensures |Handlers(ws)| <= Holding(ws)
  {
    assert Those(ws, 2) == Handlers(ws) + (Those(ws, 2) - Handlers(ws));
  }

  /** Every decoded command is denied, refused, abandoned, finished, in flight, or the one
      the read loop still has in hand; at most one per session is abandoned, and none
      while the read loop goes on. */
  lemma CommandConservation(s: State)
    requires Reachable(s)
    ensures var l := s.link;
      && |l.decoded| == l.denied + l.refused + l.abandoned + l.finished + |l.workers| + B(Undecided(l.reader))
      && l.abandoned <= B(ReaderEnded(l.reader))
  {
    ReachableInv(s);
    NoWorkers(s.link.workers);
  }

  /** No command is answered twice, and every answer carries its own command's id. */
  lemma OneAnswerEach(s: State)
    requires Reachable(s)
    ensures forall i :: 0 <= i < |s.link.wire| ==>
      s.link.wire[i].serial < |s.link.decoded| && s.link.wire[i].id == s.link.decoded[s.link.wire[i].serial].id
    ensures forall i, j :: 0 <= i < j < |s.link.wire| ==> s.link.wire[i].serial != s.link.wire[j].serial
  {
    ReachableInv(s);
  }

  /** The goroutines inside a data write. The socket library allows one at a time. */
  ghost function Writers(l: Link): set<Owner> {
    (if l.reader.WritingReply? then {ByReader} else {})
    + (if l.heart.Pinging? then {ByHeart} else {})
    + (set k | k in l.workers && l.workers[k].stage.Writing? :: ByWorker(k))
  }

  lemma OneWriter(s: State)
    requires Reachable(s)
    ensures forall a, b :: a in Writers(s.link) && b in Writers(s.link) ==> a == b
    ensures forall a :: a in Writers(s.link) <==> s.link.writer == Some(a)
  {
    ReachableInv(s);
  }

  /** Namespace confinement, end to end: whatever the gateway sent and however the
      goroutines interleaved, every Kubernetes call made so far stays inside what its
      command's policy and the guard promise. */
  lemma EveryCallConfined(s: State)
    requires Reachable(s) && s.setup.router.guard.WellFormed() && s.setup.router.limits.Validated()
    ensures forall i :: 0 <= i < |s.calls| ==> Confined(s.setup.router, s.calls[i].cmd, s.calls[i].call)
  {
    ReachableInv(s);
    forall i | 0 <= i < |s.calls| ensures Confined(s.setup.router, s.calls[i].cmd, s.calls[i].call) {
      Confinement(s.setup.router, s.calls[i].cmd, s.calls[i].call);
    }
  }

  /** Outside a session the main goroutine always has a step, until it has exited. */
  lemma NeverIdle(s: State)
    requires Reachable(s) && !InSession(s.phase) && !s.phase.Exited?
    ensures s.phase.Dialing? ==> MainEnabled(s, DialFails) && MainEnabled(s, DialRevoked) && MainEnabled(s, DialOpens)
    ensures s.phase.Sleeping? ==> MainEnabled(s, Wake)
    ensures s.phase.AwaitingCredentials? ==> MainEnabled(s, Rotate)
    ensures s.phase.Returned? ==> MainEnabled(s, Disconnect)
    ensures s.phase.Deciding? ==> MainEnabled(s, Decide)
  {
  }

  lemma MainEnters(s: State, m: MainStep)
    requires MainEnabled(s, m) && (EndingOf(s.phase) == Some(Cancelled) ==> s.stopping)
    ensures var t := MainNext(s, m);
      && (t.phase.AwaitingCredentials? && !s.phase.AwaitingCredentials? <==>
            m.DialRevoked? || (m.Decide? && s.phase.ending == Failed(PolicyClose)))
      && (t.phase.Sleeping? && !s.phase.Sleeping? <==> m.DialFails? || (m.Decide? && s.phase.ending == Failed(OtherFault)))
      && (t.phase.Dialing? && !s.phase.Dialing? <==> m.Wake? || m.Rotate?)
      && (m.Rotate? <==> |t.past| == |s.past| + 1) && (m.Rotate? ==> t.seen == map[] && t.accepted == [])
      && (t.phase.Selecting? && !s.phase.Selecting? <==> m.DialOpens?)
      && (t.phase.Exited? && !s.phase.Exited? ==> s.stopping)
  {
    match m {
      case DialFails =>
      case DialRevoked =>
      case DialOpens =>
      case SelectStop =>
      case SelectError =>
      case Cancel =>
      case Goodbye =>
      case CloseSocket =>
      case JoinLoops =>
      case JoinCommands =>
      case Disconnect =>
      case Decide =>
      case Wake =>
      case GiveUp =>
      case Rotate =>
    }
  }

  /** Why the agent is where it is: it waits for new credentials exactly after a refused
      handshake or a policy close, sleeps exactly after a failed dial or another failure,
      dials again exactly after that sleep or with a new client, and exits only when it is
      being stopped. */
  lemma EntersExactly(s: State, step: Step)
    requires Reachable(s) && Enabled(s, step)
    ensures var t := Next(s, step);
      && (t.phase.AwaitingCredentials? && !s.phase.AwaitingCredentials? <==>
            step == Main(DialRevoked) || (step == Main(Decide) && s.phase.ending == Failed(PolicyClose)))
      && (t.phase.Sleeping? && !s.phase.Sleeping? <==>
            step == Main(DialFails) || (step == Main(Decide) && s.phase.ending == Failed(OtherFault)))
      && (t.phase.Dialing? && !s.phase.Dialing? <==> step == Main(Wake) || step == Main(Rotate))
      && (step == Main(Rotate) <==> |t.past| == |s.past| + 1) && (step == Main(Rotate) ==> t.seen == map[] && t.accepted == [])
      && (t.phase.Selecting? && !s.phase.Selecting? <==> step == Main(DialOpens))
      && (t.phase.Exited? && !s.phase.Exited? ==> s.stopping)
  {
    ErrorsHold(s);
    match step {
      case Env(_) =>
      case Main(m) => MainEnters(s, m);
      case Read(r) => ReaderFramed(s, r);
      case Beat(h) => HeartFrame(s, h);
      case Work(k, w) => WorkerFrame(s, k, w);
    }
  }
}
