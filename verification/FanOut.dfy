/** `parallelMapTraced`: one goroutine per namespace under an errgroup, modelled as a
    step machine whose schedule is arbitrary.

    `answers[i]` is what the Kubernetes call for namespace `i` comes to when nothing
    cancels it. A cancelled call may come back with a cancellation instead. */
module FanOut {
  import opened Wrappers

  datatype Fault<+E> = Raised(error: E) | GroupCancelled | CallerCancelled

  datatype Reply<+T, +E> = Items(items: seq<T>) | Fails(fault: Fault<E>)

  /** A goroutine: in its call; back from it; past errgroup's bookkeeping. */
  datatype Task<+T, +E> = Calling | Back(reply: Reply<T, E>) | Over(reply: Reply<T, E>)

  datatype State<+T, +E> = State(
    tasks: seq<Task<T, E>>,
    results: seq<seq<T>>,
    firstError: Option<Fault<E>>,
    callerDone: bool)

  datatype Step<+T, +E> =
    | CancelCaller
    | ComeBack(i: nat, reply: Reply<T, E>)
    | Finish(i: nat)

  function Init<T, E>(n: nat): State<T, E> {
    State(seq(n, i => Calling), seq(n, i => []), None, false)
  }

  ghost predicate Possible<T, E>(answers: seq<Result<seq<T>, E>>, s: State<T, E>, i: nat, reply: Reply<T, E>)
    requires i < |answers|
  {
    match reply
    case Items(items) => answers[i] == Ok(items)
    case Fails(Raised(e)) => answers[i] == Err(e)
    case Fails(GroupCancelled) => s.firstError.Some?
    case Fails(CallerCancelled) => s.callerDone
  }

  ghost predicate Enabled<T, E>(answers: seq<Result<seq<T>, E>>, s: State<T, E>, step: Step<T, E>) {
    match step
    case CancelCaller => true
    case ComeBack(i, reply) =>
      i < |answers| && i < |s.tasks| && s.tasks[i].Calling? && Possible(answers, s, i, reply)
    case Finish(i) => i < |s.tasks| && s.tasks[i].Back?
  }

  /** A task stores its items in its own slot before it returns to the group; the
      group records the first error, then cancels the others. */
  function Next<T, E>(s: State<T, E>, step: Step<T, E>): State<T, E> {
    match step
    case CancelCaller => s.(callerDone := true)
    case ComeBack(i, reply) =>
      if i < |s.tasks| && i < |s.results| then
        s.(tasks := s.tasks[i := Back(reply)],
           results := if reply.Items? then s.results[i := reply.items] else s.results)
      else s
    case Finish(i) =>
      if i < |s.tasks| && s.tasks[i].Back? then
        var reply := s.tasks[i].reply;
        s.(tasks := s.tasks[i := Over(reply)],
           firstError := if reply.Fails? && s.firstError == None then Some(reply.fault) else s.firstError)
      else s
  }

  ghost predicate Runs<T, E>(answers: seq<Result<seq<T>, E>>, from: State<T, E>, steps: seq<Step<T, E>>, to: State<T, E>)
    decreases |steps|
  {
    if steps == [] then from == to
    else Enabled(answers, from, steps[0]) && Runs(answers, Next(from, steps[0]), steps[1..], to)
  }

  /** `g.Wait` returns once every task is over. */
  ghost predicate Joined<T, E>(s: State<T, E>) {
    forall i :: 0 <= i < |s.tasks| ==> s.tasks[i].Over?
  }

  function Flatten<T>(lists: seq<seq<T>>): seq<T> {
    if lists == [] then [] else Flatten(lists[..|lists| - 1]) + lists[|lists| - 1]
  }

  method Append<T>(lists: seq<seq<T>>) returns (all: seq<T>)
    ensures all == Flatten(lists)
  {
    all := [];
    for i := 0 to |lists|
      invariant all == Flatten(lists[..i])
    {
      assert lists[..i + 1][..i] == lists[..i];
      var before := all;
      for j := 0 to |lists[i]|
        invariant all == before + lists[i][..j]
      {
        all := all + [lists[i][j]];
      }
      assert lists[i][..|lists[i]|] == lists[i];
    }
    assert lists[..|lists|] == lists;
  }

  /** What the function returns after the join. */
  function Returned<T, E>(s: State<T, E>): Result<seq<T>, Fault<E>> {
    match s.firstError
    case Some(fault) => Err(fault)
    case None => Ok(Flatten(s.results))
  }

  /** The reference: visit the namespaces in order and stop at the first error. */
  function Sequential<T, E>(answers: seq<Result<seq<T>, E>>): Result<seq<T>, E> {
    if answers == [] then Ok([])
    else
      match Sequential(answers[..|answers| - 1])
      case Err(e) => Err(e)
      case Ok(sofar) =>
        match answers[|answers| - 1]
        case Err(e) => Err(e)
        case Ok(items) => Ok(sofar + items)
  }

  // What every step keeps.

  ghost predicate TaskSound<T, E>(answers: seq<Result<seq<T>, E>>, s: State<T, E>, i: nat)
    requires i < |answers| == |s.tasks| == |s.results|
  {
    match s.tasks[i]
    case Calling => s.results[i] == []
    case Back(reply) => Possible(answers, s, i, reply) && s.results[i] == SlotOf(reply)
    case Over(reply) =>
      && Possible(answers, s, i, reply) && s.results[i] == SlotOf(reply)
      && (reply.Fails? ==> s.firstError.Some?)
  }

  function SlotOf<T, E>(reply: Reply<T, E>): seq<T> {
    if reply.Items? then reply.items else []
  }

  /** The recorded error is one a task really brought back. */
  ghost predicate ErrorSound<T, E>(answers: seq<Result<seq<T>, E>>, s: State<T, E>) {
    match s.firstError
    case None => true
    case Some(Raised(e)) => exists i :: 0 <= i < |answers| && answers[i] == Err(e)
    case Some(CallerCancelled) => s.callerDone
    case Some(GroupCancelled) => false
  }

  ghost predicate Inv<T, E>(answers: seq<Result<seq<T>, E>>, s: State<T, E>) {
    && |s.tasks| == |s.results| == |answers|
    && ErrorSound(answers, s)
    && forall i :: 0 <= i < |answers| ==> TaskSound(answers, s, i)
  }

  lemma StepKeepsInv<T, E>(answers: seq<Result<seq<T>, E>>, s: State<T, E>, step: Step<T, E>)
    requires Inv(answers, s) && Enabled(answers, s, step)
    ensures Inv(answers, Next(s, step))
  {
    var t := Next(s, step);
    forall i | 0 <= i < |answers| ensures TaskSound(answers, t, i) {
      assert TaskSound(answers, s, i);
    }
    if step.Finish? {
      assert TaskSound(answers, s, step.i);
    }
  }

  lemma {:induction false} RunKeepsInv<T, E>(answers: seq<Result<seq<T>, E>>, from: State<T, E>, steps: seq<Step<T, E>>, to: State<T, E>)
    requires Inv(answers, from) && Runs(answers, from, steps, to)
    ensures Inv(answers, to)
    ensures to.callerDone ==> from.callerDone || CancelCaller in steps
    decreases |steps|
  {
    if steps != [] {
      StepKeepsInv(answers, from, steps[0]);
      RunKeepsInv(answers, Next(from, steps[0]), steps[1..], to);
    }
  }

  lemma {:induction false} AllOk<T, E>(answers: seq<Result<seq<T>, E>>, results: seq<seq<T>>)
    requires |results| == |answers|
    requires forall i :: 0 <= i < |answers| ==> answers[i] == Ok(results[i])
    ensures Sequential(answers) == Ok(Flatten(results))
  {
    if answers != [] {
      AllOk(answers[..|answers| - 1], results[..|answers| - 1]);
    }
  }

  lemma {:induction false} SomeErr<T, E>(answers: seq<Result<seq<T>, E>>, i: nat)
    requires i < |answers| && answers[i].Err?
    ensures Sequential(answers).Err?
  {
    if i < |answers| - 1 {
      SomeErr(answers[..|answers| - 1], i);
    }
  }

  /** In every schedule, a success is exactly the sequential result, in namespace order.
      A failure is the first recorded error: a task's own, or the caller's cancellation,
      never the cancellation the group caused itself. */
  lemma FanOutSound<T, E>(answers: seq<Result<seq<T>, E>>, steps: seq<Step<T, E>>, end: State<T, E>)
    requires Runs(answers, Init(|answers|), steps, end) && Joined(end)
    ensures match Returned(end)
      case Ok(items) => Sequential(answers) == Ok(items)
      case Err(Raised(e)) => Sequential(answers).Err? && exists i :: 0 <= i < |answers| && answers[i] == Err(e)
      case Err(CallerCancelled) => CancelCaller in steps
      case Err(GroupCancelled) => false
  {
    RunKeepsInv(answers, Init(|answers|), steps, end);
    match Returned(end) {
      case Ok(items) =>
        forall i | 0 <= i < |answers| ensures answers[i] == Ok(end.results[i]) {
          assert TaskSound(answers, end, i) && end.tasks[i].Over?;
        }
        AllOk(answers, end.results);
      case Err(Raised(e)) =>
        var i :| 0 <= i < |answers| && answers[i] == Err(e);
        SomeErr(answers, i);
      case Err(_) =>
    }
  }

  /** While the caller does not cancel, success does not depend on the schedule at all. */
  lemma FanOutMatchesSequential<T, E>(answers: seq<Result<seq<T>, E>>, steps: seq<Step<T, E>>, end: State<T, E>)
    requires Runs(answers, Init(|answers|), steps, end) && Joined(end)
    requires CancelCaller !in steps
    ensures Returned(end).Ok? <==> Sequential(answers).Ok?
    ensures Returned(end).Ok? ==> Returned(end).value == Sequential(answers).value
  {
    FanOutSound(answers, steps, end);
  }

  /** The failure a step hands to the group, if it hands it one. */
  function Reports<T, E>(s: State<T, E>, step: Step<T, E>): Option<Fault<E>> {
    if step.Finish? && step.i < |s.tasks| && s.tasks[step.i].Back? && s.tasks[step.i].reply.Fails?
    then Some(s.tasks[step.i].reply.fault) else None
  }

  /** The first failure handed over during a run. */
  function FirstReport<T, E>(from: State<T, E>, steps: seq<Step<T, E>>): Option<Fault<E>>
    decreases |steps|
  {
    if steps == [] then None
    else
      match Reports(from, steps[0])
      case Some(fault) => Some(fault)
      case None => FirstReport(Next(from, steps[0]), steps[1..])
  }

  lemma {:induction false} FirstKept<T, E>(answers: seq<Result<seq<T>, E>>, from: State<T, E>, steps: seq<Step<T, E>>, to: State<T, E>)
    requires Runs(answers, from, steps, to)
    ensures to.firstError == if from.firstError.Some? then from.firstError else FirstReport(from, steps)
    decreases |steps|
  {
    if steps != [] {
      FirstKept(answers, Next(from, steps[0]), steps[1..], to);
    }
  }

  /** The error returned is the one that reached the group first, in every schedule. */
  lemma FirstErrorWins<T, E>(answers: seq<Result<seq<T>, E>>, steps: seq<Step<T, E>>, end: State<T, E>)
    requires Runs(answers, Init(|answers|), steps, end) && Joined(end)
    ensures match Returned(end)
      case Err(fault) => FirstReport(Init(|answers|), steps) == Some(fault)
      case Ok(_) => FirstReport(Init(|answers|), steps) == None
  {
    FirstKept(answers, Init(|answers|), steps, end);
  }
}
