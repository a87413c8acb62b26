/** What becomes of every frame a session receives: which commands are decoded, what each
    is answered, and what a failing loop does to the session. */
module Answers {
  import opened Wrappers
  import opened Api
  import opened Session
  import opened SessionInvariants

  /** What happened during a session, read off the steps taken: frames that arrived;
      commands by serial number, as they were refused by the policy or by the replay
      window, let through, or lost; what ended either loop; errors in the order the channel
      took them. */
  datatype Tale = Tale(
    arrived: seq<Frame>,
    denied: set<nat>, duplicate: set<nat>, granted: set<nat>,
    lost: set<nat>,
    readFault: Option<Fault>, beatFailed: bool,
    reported: seq<Fault>)

  const NO_TALE := Tale([], {}, {}, {}, {}, None, false, [])

  /** A command is lost when its response does not encode or its write fails, or when the
      session is cancelled while it waits for a slot. */
  ghost function Told(tale: Tale, s: State, step: Step): Tale
    requires Enabled(s, step)
  {
    match step
    case Env(Arrive(frame)) => tale.(arrived := tale.arrived + [frame])
    case Read(Deny) => tale.(denied := tale.denied + {|s.link.decoded|})
    case Read(ClaimRefused(_)) => tale.(duplicate := tale.duplicate + {s.link.reader.job.serial})
    case Read(ClaimGranted(_)) => tale.(granted := tale.granted + {s.link.reader.job.serial})
    case Read(Abandon) => tale.(lost := tale.lost + {s.link.reader.job.serial})
    case Read(SendReply(false)) => tale.(lost := tale.lost + {s.link.reader.job.serial})
    case Work(k, Respond(false)) => tale.(lost := tale.lost + {k})
    case Work(k, SendAnswer(false)) => tale.(lost := tale.lost + {k})
    case Read(ReadFails(fault)) => tale.(readFault := Some(fault))
    case Beat(SendBeat(false)) => tale.(beatFailed := true)
    case Read(ReportRead(Sent)) => tale.(reported := tale.reported + [s.link.reader.fault])
    case Beat(ReportBeat(Sent)) => tale.(reported := tale.reported + [s.link.heart.fault])
    case _ => tale
  }

  ghost function TaleOf(tale: Tale, from: State, steps: seq<Step>, to: State): Tale
    requires Runs(from, steps, to)
    decreases |steps|
  {
    if steps == [] then tale else TaleOf(Told(tale, from, steps[0]), Next(from, steps[0]), steps[1..], to)
  }

  // Frames.

  function CommandsOf(frames: seq<Frame>): seq<Command> {
    if frames == [] then []
    else (if IsCommand(frames[0]) then [frames[0].cmd] else []) + CommandsOf(frames[1..])
  }

  lemma {:induction false} CommandsMore(frames: seq<Frame>, frame: Frame)
    ensures CommandsOf(frames + [frame]) == CommandsOf(frames) + if IsCommand(frame) then [frame.cmd] else []
  {
    if frames == [] {
      assert frames + [frame] == [frame] && [frame][1..] == [];
    } else {
      CommandsMore(frames[1..], frame);
      assert (frames + [frame])[1..] == frames[1..] + [frame];
    }
  }

  /** Commands are decoded in the order they arrived, every one of them. */
  ghost predicate InOrder(tale: Tale, l: Link) {
    CommandsOf(tale.arrived) == l.decoded + CommandsOf(l.inbox)
  }

  // Verdicts.

  predicate OnWire(wire: seq<Answer>, k: nat) {
    exists i :: 0 <= i < |wire| && wire[i].serial == k
  }

  predicate InHand(reader: Reader, k: nat) {
    HasJob(reader) && reader.job.serial == k
  }

  /** The goroutines that have not finished writing. */
  ghost function Writing(ws: map<nat, Worker>): set<nat> {
    Those(ws, 3)
  }

  /** Every one of the `n` decoded commands that is not lost is on the wire, in the read
      loop's hands, or with a goroutine that has not finished writing. */
  ghost predicate Placed(lost: set<nat>, n: nat, reader: Reader, writing: set<nat>, wire: seq<Answer>) {
    && (forall k: nat :: k in lost || k in writing || InHand(reader, k) || OnWire(wire, k) ==> k < n)
    && (forall k: nat :: k < n ==> (k !in lost <==> OnWire(wire, k) || InHand(reader, k) || k in writing))
  }

  predicate HasVerdict(tale: Tale, k: nat) {
    k in tale.denied || k in tale.duplicate || k in tale.granted
  }

  predicate OneVerdict(tale: Tale, k: nat) {
    !(k in tale.denied && k in tale.duplicate) && !(k in tale.denied && k in tale.granted) && !(k in tale.duplicate && k in tale.granted)
  }

  /** The command whose claim is still open. */
  function Open(reader: Reader): Option<nat> {
    if reader.Claiming? then Some(reader.job.serial) else None
  }

  /** Each command has one verdict, once it has been claimed or refused; the policy has
      refused exactly those it does not allow. */
  ghost predicate Judged(tale: Tale, decoded: seq<Command>, claiming: Option<nat>) {
    forall k: nat ::
      && OneVerdict(tale, k)
      && (HasVerdict(tale, k) <==> k < |decoded| && claiming != Some(k))
      && (k < |decoded| ==> (k in tale.denied <==> !PolicyAllows(decoded[k])))
  }

  /** The read loop and the goroutines act on it. */
  ghost predicate ActedOn(tale: Tale, reader: Reader, ws: map<nat, Worker>) {
    && (HasTicket(reader) ==> reader.job.serial in tale.granted)
    && (reader.Replying? || reader.WritingReply? ==>
          || (reader.code == PolicyDenied && reader.job.serial in tale.denied)
          || (reader.code == DuplicateCommand && reader.job.serial in tale.duplicate))
    && ws.Keys <= tale.granted
  }

  /** And so does every answer. */
  ghost predicate Answered(tale: Tale, wire: seq<Answer>) {
    forall i :: 0 <= i < |wire| ==>
      match wire[i].refusal
      case None => wire[i].serial in tale.granted
      case Some(PolicyDenied) => wire[i].serial in tale.denied
      case Some(DuplicateCommand) => wire[i].serial in tale.duplicate
      case Some(_) => false
  }

  // Errors.

  /** The select takes the first error that was reported. */
  ghost predicate Picked(tale: Tale, phase: Phase, errors: seq<Fault>) {
    && (phase.Selecting? ==> errors == tale.reported)
    && (EndingOf(phase).Some? && EndingOf(phase).value.Failed? ==>
          tale.reported != [] && EndingOf(phase).value.fault == tale.reported[0])
  }

  /** A read or a heartbeat that fails ends its loop, and only that is ever reported. */
  ghost predicate Failing(tale: Tale, reader: Reader, heart: Heart) {
    && (match tale.readFault
        case Some(fault) => reader == ReaderReporting(fault) || ReaderEnded(reader)
        case None => !reader.ReaderReporting?)
    && (if tale.beatFailed then heart == HeartReporting(OtherFault) || HeartEnded(heart) else !heart.HeartReporting?)
    && (forall i :: 0 <= i < |tale.reported| ==>
          Some(tale.reported[i]) == tale.readFault || (tale.beatFailed && tale.reported[i] == OtherFault))
  }

  ghost predicate Fated(tale: Tale, l: Link) {
    && Placed(tale.lost, |l.decoded|, l.reader, Writing(l.workers), l.wire)
    && Judged(tale, l.decoded, Open(l.reader))
    && ActedOn(tale, l.reader, l.workers)
    && Answered(tale, l.wire)
  }

  ghost predicate Holds(tale: Tale, s: State) {
    && InOrder(tale, s.link) && Fated(tale, s.link)
    && Picked(tale, s.phase, s.link.errors) && Failing(tale, s.link.reader, s.link.heart)
  }

  lemma NewSession(s: State)
    requires s.phase.Selecting? && s.link == NEW_LINK
    ensures Holds(NO_TALE, s)
  {
  }

  // The environment, the main goroutine and the heartbeat touch nothing of a command.

  lemma EnvHolds(tale: Tale, s: State, e: EnvStep)
    requires Holds(tale, s) && EnvEnabled(s, e)
    ensures Holds(Told(tale, s, Env(e)), EnvNext(s, e))
  {
    if e.Arrive? {
      CommandsMore(tale.arrived, e.frame);
      CommandsMore(s.link.inbox, e.frame);
    }
  }

  lemma MainPicks(tale: Tale, s: State, m: MainStep)
    requires Picked(tale, s.phase, s.link.errors) && MainEnabled(s, m) && !m.DialOpens?
    ensures Picked(tale, MainNext(s, m).phase, MainNext(s, m).link.errors)
  {
    match m {
      case DialFails =>
      case DialRevoked =>
      case SelectStop =>
      case SelectError =>
      case Cancel =>
      case Goodbye =>
      case CloseSocket =>
      case JoinLoops =>
      case JoinCommands =>
      case Disconnect =>
      case Decide =>
      case Wake =>
      case GiveUp =>
      case Rotate =>
    }
  }

  lemma MainHolds(tale: Tale, s: State, m: MainStep)
    requires Holds(tale, s) && MainEnabled(s, m) && !m.DialOpens?
    ensures Holds(tale, MainNext(s, m))
  {
    MainPicks(tale, s, m);
    if !m.Rotate? {
      MainFrame(s, m);
    }
  }

  lemma HeartHolds(tale: Tale, s: State, h: HeartStep)
    requires Holds(tale, s) && HeartEnabled(s, h)
    ensures Holds(Told(tale, s, Beat(h)), HeartNext(s, h))
  {
    HeartFrame(s, h);
    HeartReports(tale, s, h);
    HeartFails(tale, s, h);
  }

  lemma HeartFails(tale: Tale, s: State, h: HeartStep)
    requires Failing(tale, s.link.reader, s.link.heart) && HeartEnabled(s, h)
    ensures Failing(Told(tale, s, Beat(h)), s.link.reader, HeartNext(s, h).link.heart)
  {
    HeartFrame(s, h);
  }

  lemma HeartReports(tale: Tale, s: State, h: HeartStep)
    requires Picked(tale, s.phase, s.link.errors) && HeartEnabled(s, h)
    ensures Picked(Told(tale, s, Beat(h)), s.phase, HeartNext(s, h).link.errors)
  {
    match h {
      case ReportBeat(Sent) =>
      case ReportBeat(_) =>
      case Tick =>
      case HeartDone =>
      case LockBeat =>
      case SendBeat(_) =>
      case Notify =>
      case LeaveBeat =>
    }
  }

  // A command goroutine.

  lemma WireMore(wire: seq<Answer>, a: Answer)
    ensures forall k: nat :: OnWire(wire + [a], k) <==> OnWire(wire, k) || k == a.serial
  {
    forall k: nat ensures OnWire(wire + [a], k) <==> OnWire(wire, k) || k == a.serial {
      if OnWire(wire, k) {
        var i :| 0 <= i < |wire| && wire[i].serial == k;
        assert (wire + [a])[i].serial == k;
      }
      assert (wire + [a])[|wire|] == a;
    }
  }

  lemma PlacedLost(lost: set<nat>, n: nat, reader: Reader, writing: set<nat>, wire: seq<Answer>, k: nat)
    requires Placed(lost, n, reader, writing, wire) && k in writing && !OnWire(wire, k) && !InHand(reader, k)
    ensures Placed(lost + {k}, n, reader, writing - {k}, wire)
  {
  }

  lemma PlacedWritten(lost: set<nat>, n: nat, reader: Reader, writing: set<nat>, wire: seq<Answer>, a: Answer)
    requires Placed(lost, n, reader, writing, wire) && a.serial in writing
    ensures Placed(lost, n, reader, writing - {a.serial}, wire + [a])
  {
    WireMore(wire, a);
  }

  lemma WritingMoved(l: Link, k: nat, stage: Stage)
    requires k in l.workers
    ensures Writing(Moved(l, k, stage)) == if Rank(stage) >= 3 then Writing(l.workers) + {k} else Writing(l.workers) - {k}
    ensures k in Writing(l.workers) <==> Rank(l.workers[k].stage) >= 3
    ensures Rank(l.workers[k].stage) < 3 ==> Writing(l.workers - {k}) == Writing(l.workers)
  {
  }

  lemma WorkerWriting(s: State, k: nat, w: WorkerStep)
    requires WorkerFits(s, k, w)
    ensures var was, now := Writing(s.link.workers), Writing(WorkerNext(s, k, w).link.workers);
      && now == (if w == Respond(false) || w.SendAnswer? then was - {k} else was)
      && (w.Respond? || w.SendAnswer? ==> k in was)
  {
    var l := s.link;
    match w {
      case CallApi(_) =>
      case Respond(encodes) => WritingMoved(l, k, if encodes then Answering else Releasing);
      case LockAnswer => WritingMoved(l, k, Stage.Writing);
      case SendAnswer(_) => WritingMoved(l, k, Releasing);
      case Release => WritingMoved(l, k, Signalling);
      case Signal => WritingMoved(l, k, Signalling);
    }
  }

  lemma NotYetOnWire(s: State, k: nat)
    requires WorkersTurn(s.link.wire, s.link.workers) && k in Writing(s.link.workers)
    requires ReaderJob(s.link.reader, s.link.decoded, s.link.workers)
    ensures !OnWire(s.link.wire, k) && !InHand(s.link.reader, k)
  {
  }

  predicate Loses(w: WorkerStep) {
    w == SendAnswer(false) || w == Respond(false)
  }

  lemma WorkerTold(tale: Tale, s: State, k: nat, w: WorkerStep)
    requires WorkerEnabled(s, k, w)
    ensures Told(tale, s, Work(k, w)) == tale.(lost := if Loses(w) then tale.lost + {k} else tale.lost)
    ensures w == SendAnswer(true) ==> WorkerNext(s, k, w).link.wire == s.link.wire + [Answer(k, s.link.workers[k].cmd.id, None)]
  {
  }

  lemma WorkerPlaces(tale: Tale, s: State, k: nat, w: WorkerStep)
    requires var l := s.link; Placed(tale.lost, |l.decoded|, l.reader, Writing(l.workers), l.wire)
    requires ReaderJob(s.link.reader, s.link.decoded, s.link.workers)
    requires WorkersTurn(s.link.wire, s.link.workers) && WorkerEnabled(s, k, w)
    ensures var l := WorkerNext(s, k, w).link;
      Placed(Told(tale, s, Work(k, w)).lost, |l.decoded|, l.reader, Writing(l.workers), l.wire)
  {
    var l := s.link;
    WorkerFrame(s, k, w);
    WorkerWriting(s, k, w);
    WorkerTold(tale, s, k, w);
    if w == SendAnswer(true) {
      PlacedWritten(tale.lost, |l.decoded|, l.reader, Writing(l.workers), l.wire, Answer(k, l.workers[k].cmd.id, None));
    } else if Loses(w) {
      NotYetOnWire(s, k);
      PlacedLost(tale.lost, |l.decoded|, l.reader, Writing(l.workers), l.wire, k);
    }
  }

  lemma WorkerAnswers(tale: Tale, s: State, k: nat, w: WorkerStep)
    requires ActedOn(tale, s.link.reader, s.link.workers) && Answered(tale, s.link.wire) && WorkerEnabled(s, k, w)
    ensures var l, t := WorkerNext(s, k, w).link, Told(tale, s, Work(k, w));
      ActedOn(t, l.reader, l.workers) && Answered(t, l.wire)
  {
    WorkerFrame(s, k, w);
    WorkerTold(tale, s, k, w);
    assert WorkerNext(s, k, w).link.workers.Keys <= s.link.workers.Keys;
    assert k in tale.granted;
  }

  lemma WorkerFates(tale: Tale, s: State, k: nat, w: WorkerStep)
    requires Fated(tale, s.link) && ReaderJob(s.link.reader, s.link.decoded, s.link.workers)
    requires WorkersTurn(s.link.wire, s.link.workers) && WorkerEnabled(s, k, w)
    ensures Fated(Told(tale, s, Work(k, w)), WorkerNext(s, k, w).link)
  {
    WorkerFrame(s, k, w);
    WorkerPlaces(tale, s, k, w);
    WorkerAnswers(tale, s, k, w);
  }

  lemma WorkerHolds(tale: Tale, s: State, k: nat, w: WorkerStep)
    requires Holds(tale, s) && ReaderJob(s.link.reader, s.link.decoded, s.link.workers)
    requires WorkersTurn(s.link.wire, s.link.workers) && WorkerEnabled(s, k, w)
    ensures Holds(Told(tale, s, Work(k, w)), WorkerNext(s, k, w))
  {
    WorkerFates(tale, s, k, w);
    WorkerFrame(s, k, w);
  }

  // The read loop.

  lemma ReaderOrder(tale: Tale, s: State, r: ReaderStep)
    requires InOrder(tale, s.link) && ReaderEnabled(s, r)
    ensures InOrder(Told(tale, s, Read(r)), ReaderNext(s, r).link)
  {
    if r.Discard? || r.Deny? || r.Admit? {
      assert s.link.inbox == [s.link.inbox[0]] + s.link.inbox[1..];
    } else {
      InboxKept(s, r);
    }
  }

  lemma InboxKept(s: State, r: ReaderStep)
    requires ReaderFits(s, r) && !r.Discard? && !r.Deny? && !r.Admit?
    ensures ReaderNext(s, r).link.inbox == s.link.inbox && ReaderNext(s, r).link.decoded == s.link.decoded
  {
    match r {
      case ReadFails(_) =>
      case ClaimGranted(_) =>
      case ClaimRefused(_) =>
      case TakeSlot =>
      case Abandon =>
      case AddWork =>
      case Spawn =>
      case LockReply =>
      case SendReply(_) =>
      case ReportRead(_) =>
      case LeaveRead =>
    }
  }

  lemma ReaderPicks(tale: Tale, s: State, r: ReaderStep)
    requires Picked(tale, s.phase, s.link.errors) && ReaderEnabled(s, r)
    ensures Picked(Told(tale, s, Read(r)), s.phase, ReaderNext(s, r).link.errors)
  {
    ReaderFramed(s, r);
    if r != ReportRead(Sent) {
      ErrorsKept(s, r);
    }
  }

  lemma ReaderFailing(tale: Tale, s: State, r: ReaderStep)
    requires Failing(tale, s.link.reader, s.link.heart) && ReaderEnabled(s, r)
    ensures Failing(Told(tale, s, Read(r)), ReaderNext(s, r).link.reader, s.link.heart)
  {
    ReaderTouches(s, r);
  }

  lemma ErrorsKept(s: State, r: ReaderStep)
    requires ReaderFits(s, r) && r != ReportRead(Sent)
    ensures ReaderNext(s, r).link.errors == s.link.errors
  {
    match r {
      case ReportRead(_) =>
      case _ =>
    }
  }

  /** Steps that keep the command in hand, or have none in hand before and after. */
  predicate KeepsJob(r: ReaderStep) {
    r.Discard? || r.ReadFails? || r.TakeSlot? || r.AddWork? || r.LockReply? || r.ReportRead? || r.LeaveRead?
      || r.ClaimGranted? || r.ClaimRefused?
  }

  lemma JobKept(s: State, r: ReaderStep)
    requires ReaderFits(s, r) && KeepsJob(r)
    ensures var was, now := s.link.reader, ReaderNext(s, r).link.reader;
      && (HasJob(now) <==> HasJob(was)) && (HasJob(was) ==> now.job == was.job)
      && (was.Claiming? <==> r.ClaimGranted? || r.ClaimRefused?) && !now.Claiming?
      && (HasTicket(now) <==> HasTicket(was) || r.ClaimGranted?)
      && (now.Replying? || now.WritingReply? <==> r.LockReply? || r.ClaimRefused?)
      && (r.LockReply? ==> was.Replying? && now.code == was.code)
      && (r.ClaimRefused? ==> now.code == DuplicateCommand)
  {
    match r {
      case Discard =>
      case ReadFails(_) =>
      case ClaimGranted(_) =>
      case ClaimRefused(_) =>
      case TakeSlot =>
      case AddWork =>
      case LockReply =>
      case ReportRead(_) =>
      case LeaveRead =>
    }
  }

  lemma KeepsPlaces(tale: Tale, s: State, r: ReaderStep)
    requires Fated(tale, s.link) && ReaderEnabled(s, r) && KeepsJob(r)
    ensures var l := ReaderNext(s, r).link;
      && Told(tale, s, Read(r)).lost == tale.lost
      && Placed(tale.lost, |l.decoded|, l.reader, Writing(l.workers), l.wire)
  {
    JobKept(s, r);
    ReaderFramed(s, r);
    forall k: nat ensures InHand(ReaderNext(s, r).link.reader, k) <==> InHand(s.link.reader, k) {
    }
  }

  lemma KeepsVerdicts(tale: Tale, s: State, r: ReaderStep)
    requires Fated(tale, s.link) && ReaderEnabled(s, r) && KeepsJob(r) && !r.ClaimGranted? && !r.ClaimRefused?
    ensures var l := ReaderNext(s, r).link;
      Judged(tale, l.decoded, Open(l.reader)) && ActedOn(tale, l.reader, l.workers) && Answered(tale, l.wire)
  {
    JobKept(s, r);
    ReaderFramed(s, r);
  }

  lemma ClaimJudged(tale: Tale, decoded: seq<Command>, k: nat)
    requires Judged(tale, decoded, Some(k)) && k < |decoded| && PolicyAllows(decoded[k])
    ensures Judged(tale.(granted := tale.granted + {k}), decoded, None)
    ensures Judged(tale.(duplicate := tale.duplicate + {k}), decoded, None)
  {
    assert !HasVerdict(tale, k);
    forall j: nat | j != k
      ensures HasVerdict(tale.(granted := tale.granted + {k}), j) == HasVerdict(tale, j)
      ensures HasVerdict(tale.(duplicate := tale.duplicate + {k}), j) == HasVerdict(tale, j)
    {
    }
  }

  lemma ClaimVerdicts(tale: Tale, s: State, r: ReaderStep)
    requires Fated(tale, s.link) && ReaderEnabled(s, r) && (r.ClaimGranted? || r.ClaimRefused?)
    requires PolicyHeld(s.link.reader, s.link.workers) && ReaderJob(s.link.reader, s.link.decoded, s.link.workers)
    ensures var t, l := Told(tale, s, Read(r)), ReaderNext(s, r).link;
      Judged(t, l.decoded, Open(l.reader)) && ActedOn(t, l.reader, l.workers) && Answered(t, l.wire)
  {
    ClaimJudged(tale, s.link.decoded, s.link.reader.job.serial);
  }

  lemma KeepsFates(tale: Tale, s: State, r: ReaderStep)
    requires Fated(tale, s.link) && ReaderEnabled(s, r) && KeepsJob(r)
    requires PolicyHeld(s.link.reader, s.link.workers) && ReaderJob(s.link.reader, s.link.decoded, s.link.workers)
    ensures Fated(Told(tale, s, Read(r)), ReaderNext(s, r).link)
  {
    KeepsPlaces(tale, s, r);
    if r.ClaimGranted? || r.ClaimRefused? {
      ClaimVerdicts(tale, s, r);
    } else {
      KeepsVerdicts(tale, s, r);
      TaleKept(tale, s, r);
    }
  }

  lemma TaleKept(tale: Tale, s: State, r: ReaderStep)
    requires ReaderEnabled(s, r) && KeepsJob(r) && !r.ClaimGranted? && !r.ClaimRefused?
    ensures var t := Told(tale, s, Read(r)); t == tale.(reported := t.reported, readFault := t.readFault)
  {
  }

  lemma DecodeJudged(tale: Tale, decoded: seq<Command>, cmd: Command)
    requires Judged(tale, decoded, None)
    ensures PolicyAllows(cmd) ==> Judged(tale, decoded + [cmd], Some(|decoded|))
    ensures !PolicyAllows(cmd) ==> Judged(tale.(denied := tale.denied + {|decoded|}), decoded + [cmd], None)
  {
    assert !HasVerdict(tale, |decoded|);
    forall j: nat | j != |decoded|
      ensures HasVerdict(tale.(denied := tale.denied + {|decoded|}), j) == HasVerdict(tale, j)
    {
    }
  }

  lemma DecodeFates(tale: Tale, s: State, r: ReaderStep)
    requires Fated(tale, s.link) && ReaderEnabled(s, r) && (r.Deny? || r.Admit?)
    ensures Fated(Told(tale, s, Read(r)), ReaderNext(s, r).link)
  {
    DecodeJudged(tale, s.link.decoded, s.link.inbox[0].cmd);
  }

  lemma SpawnFates(tale: Tale, s: State)
    requires Fated(tale, s.link) && ReaderFits(s, Spawn)
    ensures Fated(tale, ReaderNext(s, Spawn).link)
  {
    var l, m := s.link, ReaderNext(s, Spawn).link;
    assert Writing(m.workers) == Writing(l.workers) + {l.reader.job.serial};
    assert InHand(l.reader, l.reader.job.serial);
  }

  lemma AbandonFates(tale: Tale, s: State)
    requires Fated(tale, s.link) && ReaderFits(s, Abandon)
    requires ReaderJob(s.link.reader, s.link.decoded, s.link.workers) && ReaderTurn(s.link.wire, s.link.reader)
    ensures Fated(Told(tale, s, Read(Abandon)), ReaderNext(s, Abandon).link)
  {
  }

  lemma ReplyFates(tale: Tale, s: State, ok: bool)
    requires Fated(tale, s.link) && ReaderFits(s, SendReply(ok))
    requires ReaderJob(s.link.reader, s.link.decoded, s.link.workers) && ReaderTurn(s.link.wire, s.link.reader)
    ensures Fated(Told(tale, s, Read(SendReply(ok))), ReaderNext(s, SendReply(ok)).link)
  {
    var job := s.link.reader.job;
    WireMore(s.link.wire, Answer(job.serial, job.cmd.id, Some(s.link.reader.code)));
  }

  lemma ReaderHolds(tale: Tale, s: State, r: ReaderStep)
    requires Holds(tale, s) && ReaderEnabled(s, r)
    requires ReaderJob(s.link.reader, s.link.decoded, s.link.workers) && ReaderTurn(s.link.wire, s.link.reader)
    requires PolicyHeld(s.link.reader, s.link.workers)
    ensures Holds(Told(tale, s, Read(r)), ReaderNext(s, r))
  {
    ReaderFramed(s, r);
    ReaderOrder(tale, s, r);
    ReaderPicks(tale, s, r);
    ReaderFailing(tale, s, r);
    match r {
      case Deny => DecodeFates(tale, s, r);
      case Admit => DecodeFates(tale, s, r);
      case Spawn => SpawnFates(tale, s);
      case Abandon => AbandonFates(tale, s);
      case SendReply(ok) => ReplyFates(tale, s, ok);
      case _ => KeepsFates(tale, s, r);
    }
  }

  // Runs of one session.

  lemma StepHolds(tale: Tale, s: State, step: Step)
    requires Inv(s) && Holds(tale, s) && Enabled(s, step) && step != Main(DialOpens)
    ensures Holds(Told(tale, s, step), Next(s, step))
  {
    match step {
      case Env(e) => EnvHolds(tale, s, e);
      case Main(m) => MainHolds(tale, s, m);
      case Read(r) => ReaderHolds(tale, s, r);
      case Beat(h) => HeartHolds(tale, s, h);
      case Work(k, w) => WorkerHolds(tale, s, k, w);
    }
  }

  lemma {:induction false} RunHolds(tale: Tale, from: State, steps: seq<Step>, to: State)
    requires Inv(from) && Holds(tale, from) && Runs(from, steps, to) && Main(DialOpens) !in steps
    ensures Inv(to) && Holds(TaleOf(tale, from, steps, to), to)
    decreases |steps|
  {
    if steps != [] {
      StepHolds(tale, from, steps[0]);
      StepKeepsInv(from, steps[0]);
      RunHolds(Told(tale, from, steps[0]), Next(from, steps[0]), steps[1..], to);
    }
  }

  /** The steps of one session, from its start on. */
  ghost predicate OneSession(from: State, steps: seq<Step>, to: State) {
    && Reachable(from) && from.phase.Selecting? && from.link == NEW_LINK
    && Runs(from, steps, to) && Main(DialOpens) !in steps
  }

  lemma SessionHolds(from: State, steps: seq<Step>, to: State)
    requires OneSession(from, steps, to)
    ensures Inv(to) && Holds(TaleOf(NO_TALE, from, steps, to), to)
  {
    ReachableInv(from);
    NewSession(from);
    RunHolds(NO_TALE, from, steps, to);
  }

  /** Nothing that arrives is skipped or decoded twice, and every command is answered: it
      is on the wire, in the read loop's hands or with a goroutine that has yet to write,
      unless it was lost; and once the session is over it is on the wire exactly unless it
      was lost. */
  lemma EveryCommandAnswered(from: State, steps: seq<Step>, to: State)
    requires OneSession(from, steps, to)
    ensures var tale, l := TaleOf(NO_TALE, from, steps, to), to.link;
      && CommandsOf(tale.arrived) == l.decoded + CommandsOf(l.inbox)
      && (forall k: nat :: k < |l.decoded| ==>
            (k !in tale.lost <==> OnWire(l.wire, k) || InHand(l.reader, k) || k in Writing(l.workers)))
      && (!InSession(to.phase) ==> forall k: nat :: k < |l.decoded| ==> (OnWire(l.wire, k) <==> k !in tale.lost))
  {
    SessionHolds(from, steps, to);
    if !InSession(to.phase) {
      NobodyThere(to);
    }
  }

  lemma NobodyThere(s: State)
    requires Inv(s) && !InSession(s.phase)
    ensures !HasJob(s.link.reader) && Writing(s.link.workers) == {}
  {
  }

  /** And answered rightly: refused by the policy exactly if the policy does not allow it,
      as a duplicate exactly if its claim was refused, with a result exactly if it was
      granted. */
  lemma AnsweredRightly(from: State, steps: seq<Step>, to: State, i: nat)
    requires OneSession(from, steps, to) && i < |to.link.wire|
    ensures var tale, a := TaleOf(NO_TALE, from, steps, to), to.link.wire[i];
      && a.serial < |to.link.decoded|
      && (a.refusal == Some(PolicyDenied) <==> !PolicyAllows(to.link.decoded[a.serial]))
      && (a.refusal == Some(DuplicateCommand) <==> a.serial in tale.duplicate)
      && (a.refusal == None <==> a.serial in tale.granted)
  {
    SessionHolds(from, steps, to);
    var tale, a := TaleOf(NO_TALE, from, steps, to), to.link.wire[i];
    assert OneVerdict(tale, a.serial);
  }

  /** A read or heartbeat that fails ends its loop; the first failure reported decides how
      the session ends, unless the agent is being stopped: a policy close sends the agent
      for new credentials, anything else to sleep before the next dial. */
  lemma FirstFailureDecides(from: State, steps: seq<Step>, to: State)
    requires OneSession(from, steps, to)
    ensures var tale := TaleOf(NO_TALE, from, steps, to); Failing(tale, to.link.reader, to.link.heart)
    ensures to.phase.Deciding? ==>
      var tale, next := TaleOf(NO_TALE, from, steps, to), MainNext(to, Decide).phase;
      && (next.Exited? ==> to.stopping)
      && (next.AwaitingCredentials? ==> tale.reported != [] && tale.reported[0] == PolicyClose)
      && (next.Sleeping? ==> tale.reported != [] && tale.reported[0] == OtherFault)
      && (next.Exited? || next.AwaitingCredentials? || next.Sleeping?)
  {
    SessionHolds(from, steps, to);
  }
}
