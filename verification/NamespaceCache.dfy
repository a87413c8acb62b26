/** `ListNamespaces`: a cache with a time to live in front of a single-flight fetch.

    Callers come and go in any interleaving. A flight is one execution of the shared
    function: registered by its leader, answered by the API, stored (unless it failed)
    and landed, which unregisters it and frees those who joined it. Flights are numbered
    in the order they land; at most the next one is registered.

    What is promised is said of the steps of a run alone; the histories the state keeps
    for the proofs are only positions in it. */
module NamespaceCache {
  import opened Clock
  import opened Sets
  import opened Wrappers

  const CACHE_TTL: int := 30 * SECOND

  datatype Listing<+N> = Listed(items: seq<N>) | ListFailed

  /** `answer` and `store` are the positions of the steps that did it. */
  datatype Stage<+N> =
    | Asking
    | Answered(items: seq<N>, answer: nat)
    | Failing(answer: nat)
    | Stored(items: seq<N>, answer: nat, store: nat)

  datatype Flight<+N> = Flight(leader: nat, stage: Stage<N>)

  /** Where a successful answer came from. */
  datatype Source = FromCache(origin: Origin, check: nat) | FromFlight(flight: nat, enter: nat)

  datatype Origin = Origin(answer: nat, store: nat)

  /** A caller of flight `flight` entered it at step `enter`. */
  datatype Caller<+N> =
    | Missed
    | Leading(flight: nat, enter: nat)
    | Joined(flight: nat, enter: nat)
    | Got(items: seq<N>, source: Source)
    | Erred(flight: nat, enter: nat)

  datatype Landing<+N> = Landing(outcome: Listing<N>, origin: Origin, land: nat)

  /** `cache` and `cachedAt` are the service's fields, `landings` what flights came to.
      `taken`, `origin` and all other positions are histories: no step reads them. */
  datatype State<+N> = State(
    now: int,
    cache: seq<N>,
    cachedAt: int,
    flight: Option<Flight<N>>,
    callers: map<nat, Caller<N>>,
    landings: seq<Landing<N>>,
    taken: nat,
    origin: Option<Origin>)

  datatype Step<+N> =
    | Wait(d: nat)
    | Check(c: nat)              // lock, look at the cache, unlock
    | Enter(c: nat)              // singleflight.Do: join or lead
    | ApiAnswers(outcome: Listing<N>)
    | StoreAnswer                // lock, write both fields, unlock
    | Land                       // unregister the flight
    | Collect(c: nat)            // leader and joiners take the flight's outcome

  function Init<N>(now: int): State<N> {
    State(now, [], now, None, map[], [], 0, None)
  }

  predicate Fresh<N>(s: State<N>) {
    |s.cache| > 0 && s.now - s.cachedAt < CACHE_TTL
  }

  predicate Waits<N>(caller: Caller<N>) {
    caller.Leading? || caller.Joined?
  }

  ghost predicate Enabled<N>(s: State<N>, step: Step<N>) {
    match step
    case Wait(_) => true
    case Check(c) => c !in s.callers
    case Enter(c) => c in s.callers && s.callers[c].Missed?
    case ApiAnswers(_) => s.flight.Some? && s.flight.value.stage.Asking?
    case StoreAnswer => s.flight.Some? && s.flight.value.stage.Answered?
    case Land => s.flight.Some? && (s.flight.value.stage.Stored? || s.flight.value.stage.Failing?)
    case Collect(c) => c in s.callers && Waits(s.callers[c]) && s.callers[c].flight < |s.landings|
  }

  function Effect<N>(s: State<N>, step: Step<N>): State<N>
    requires Enabled(s, step)
  {
    match step
    case Wait(d) => s.(now := s.now + d)
    case Check(c) =>
      if Fresh(s) then
        s.(callers := s.callers[c := Got(s.cache, FromCache(if s.origin.Some? then s.origin.value else Origin(0, 0), s.taken))])
      else s.(callers := s.callers[c := Missed])
    case Enter(c) =>
      if s.flight.Some? then s.(callers := s.callers[c := Joined(|s.landings|, s.taken)])
      else s.(flight := Some(Flight(c, Asking)), callers := s.callers[c := Leading(|s.landings|, s.taken)])
    case ApiAnswers(outcome) =>
      var stage := match outcome case Listed(items) => Answered(items, s.taken) case ListFailed => Failing(s.taken);
      s.(flight := Some(s.flight.value.(stage := stage)))
    case StoreAnswer =>
      var got := s.flight.value.stage;
      s.(flight := Some(s.flight.value.(stage := Stored(got.items, got.answer, s.taken))),
         cache := got.items, cachedAt := s.now, origin := Some(Origin(got.answer, s.taken)))
    case Land =>
      var landing := match s.flight.value.stage
        case Stored(items, answer, store) => Landing(Listed(items), Origin(answer, store), s.taken)
        case stage => Landing(ListFailed, Origin(stage.answer, 0), s.taken);
      s.(flight := None, landings := s.landings + [landing])
    case Collect(c) =>
      var caller := s.callers[c];
      var answer := match s.landings[caller.flight].outcome
        case Listed(items) => Got(items, FromFlight(caller.flight, caller.enter))
        case ListFailed => Erred(caller.flight, caller.enter);
      s.(callers := s.callers[c := answer])
  }

  function Next<N>(s: State<N>, step: Step<N>): State<N>
    requires Enabled(s, step)
  {
    Effect(s, step).(taken := s.taken + 1)
  }

  ghost predicate Runs<N>(from: State<N>, steps: seq<Step<N>>, to: State<N>)
    decreases |steps|
  {
    if steps == [] then from == to
    else Enabled(from, steps[0]) && Runs(Next(from, steps[0]), steps[1..], to)
  }

  // What a run shows, said of its steps.

  function Elapsed<N>(steps: seq<Step<N>>): nat {
    if steps == [] then 0
    else
      var last := steps[|steps| - 1];
      Elapsed(steps[..|steps| - 1]) + if last.Wait? then last.d else 0
  }

  function Landed<N>(steps: seq<Step<N>>): nat {
    if steps == [] then 0
    else Landed(steps[..|steps| - 1]) + if steps[|steps| - 1].Land? then 1 else 0
  }

  /** The flight that step `i` belongs to: as many have landed before it. */
  function FlightOf<N>(steps: seq<Step<N>>, i: nat): nat
    requires i <= |steps|
  {
    Landed(steps[..i])
  }

  function TimeOf<N>(steps: seq<Step<N>>, i: nat): nat
    requires i <= |steps|
  {
    Elapsed(steps[..i])
  }

  /** Step `a` is the answer to flight `f`'s one list call. */
  ghost predicate AnswerOf<N>(steps: seq<Step<N>>, f: nat, outcome: Listing<N>, a: nat) {
    && a < |steps| && steps[a] == ApiAnswers(outcome) && FlightOf(steps, a) == f
    && forall i :: 0 <= i < |steps| && steps[i].ApiAnswers? && FlightOf(steps, i) == f ==> i == a
  }

  ghost predicate Unanswered<N>(steps: seq<Step<N>>, f: nat) {
    forall i :: 0 <= i < |steps| && steps[i].ApiAnswers? ==> FlightOf(steps, i) != f
  }

  ghost predicate Unstored<N>(steps: seq<Step<N>>, f: nat) {
    forall i :: 0 <= i < |steps| && steps[i].StoreAnswer? ==> FlightOf(steps, i) != f
  }

  /** What flight `f` was answered at `a`, it stored at `m`. */
  ghost predicate StoredBy<N>(steps: seq<Step<N>>, f: nat, items: seq<N>, a: nat, m: nat) {
    && AnswerOf(steps, f, Listed(items), a)
    && a < m < |steps| && steps[m].StoreAnswer? && FlightOf(steps, m) == f
  }

  ghost predicate NothingStoredBetween<N>(steps: seq<Step<N>>, m: nat, k: nat)
    requires k <= |steps|
  {
    forall i :: m < i < k ==> !steps[i].StoreAnswer?
  }

  /** Caller `c` was served at `k` what the API had answered at `a` and what had been
      stored at `m`, last and less than 30 seconds before. */
  ghost predicate ServedFromCache<N>(steps: seq<Step<N>>, c: nat, items: seq<N>, a: nat, m: nat, k: nat) {
    && m < k < |steps| && steps[k] == Check(c) && items != []
    && StoredBy(steps, FlightOf(steps, m), items, a, m)
    && NothingStoredBetween(steps, m, k)
    && TimeOf(steps, k) - TimeOf(steps, m) < 30 * SECOND
  }

  /** Caller `c` entered at `e` a flight that was answered at `a`, stored at `m`, and
      landed at `l`, after the caller had entered. */
  ghost predicate ServedByFlight<N>(steps: seq<Step<N>>, c: nat, items: seq<N>, e: nat, a: nat, m: nat, l: nat) {
    && e < l && m < l < |steps| && steps[e] == Enter(c) && steps[l].Land?
    && FlightOf(steps, e) == FlightOf(steps, l)
    && StoredBy(steps, FlightOf(steps, l), items, a, m)
  }

  ghost predicate GivenByApi<N>(steps: seq<Step<N>>, c: nat, items: seq<N>) {
    || (exists a: nat, m: nat, k: nat :: ServedFromCache(steps, c, items, a, m, k))
    || (exists e: nat, a: nat, m: nat, l: nat :: ServedByFlight(steps, c, items, e, a, m, l))
  }

  // What every step keeps: the state is what the steps so far have made it.

  ghost predicate FlightTraced<N>(steps: seq<Step<N>>, flight: Option<Flight<N>>, f: nat) {
    match flight
    case None => Unanswered(steps, f) && Unstored(steps, f)
    case Some(Flight(_, Asking)) => Unanswered(steps, f) && Unstored(steps, f)
    case Some(Flight(_, Answered(items, a))) => AnswerOf(steps, f, Listed(items), a) && Unstored(steps, f)
    case Some(Flight(_, Failing(a))) => AnswerOf(steps, f, ListFailed, a) && Unstored(steps, f)
    case Some(Flight(_, Stored(items, a, m))) => StoredBy(steps, f, items, a, m)
  }

  ghost predicate LandingTraced<N>(steps: seq<Step<N>>, f: nat, landing: Landing<N>) {
    && landing.land < |steps| && steps[landing.land].Land? && FlightOf(steps, landing.land) == f
    && match landing.outcome
       case Listed(items) => StoredBy(steps, f, items, landing.origin.answer, landing.origin.store) && landing.origin.store < landing.land
       case ListFailed => AnswerOf(steps, f, ListFailed, landing.origin.answer) && Unstored(steps, f)
  }

  /** The two fields are what the last store wrote, or were never written. */
  ghost predicate CacheTraced<N>(start: int, steps: seq<Step<N>>, s: State<N>) {
    match s.origin
    case None => s.cache == [] && forall i :: 0 <= i < |steps| ==> !steps[i].StoreAnswer?
    case Some(Origin(a, m)) =>
      && m < |steps| && StoredBy(steps, FlightOf(steps, m), s.cache, a, m)
      && NothingStoredBetween(steps, m, |steps|)
      && s.cachedAt == start + TimeOf(steps, m)
  }

  ghost predicate EntersOnlyAt<N>(steps: seq<Step<N>>, c: nat, enter: Option<nat>) {
    && (enter.Some? ==> enter.value < |steps| && steps[enter.value] == Enter(c))
    && forall i :: 0 <= i < |steps| && steps[i] == Enter(c) ==> Some(i) == enter
  }

  ghost predicate InFlightTraced<N>(steps: seq<Step<N>>, c: nat, f: nat, enter: nat) {
    EntersOnlyAt(steps, c, Some(enter)) && FlightOf(steps, enter) == f
  }

  ghost predicate CallerTraced<N>(steps: seq<Step<N>>, c: nat, caller: Caller<N>, landings: seq<Landing<N>>, leader: Option<nat>) {
    match caller
    case Missed => EntersOnlyAt(steps, c, None)
    case Leading(f, e) =>
      InFlightTraced(steps, c, f, e) && f <= |landings| && (f == |landings| ==> leader == Some(c))
    case Joined(f, e) =>
      InFlightTraced(steps, c, f, e) && f <= |landings| && (f == |landings| ==> leader != None && leader != Some(c))
    case Got(items, FromCache(Origin(a, m), k)) => EntersOnlyAt(steps, c, None) && ServedFromCache(steps, c, items, a, m, k)
    case Got(items, FromFlight(f, e)) =>
      InFlightTraced(steps, c, f, e) && f < |landings| && landings[f].outcome == Listed(items)
    case Erred(f, e) =>
      InFlightTraced(steps, c, f, e) && f < |landings| && landings[f].outcome == ListFailed
  }

  function Leader<N>(s: State<N>): Option<nat> {
    if s.flight.Some? then Some(s.flight.value.leader) else None
  }

  ghost predicate CallerSound<N>(steps: seq<Step<N>>, s: State<N>, c: nat)
    requires c in s.callers
  {
    CallerTraced(steps, c, s.callers[c], s.landings, Leader(s))
  }

  ghost predicate LeaderThere<N>(s: State<N>) {
    s.flight.Some? ==>
      var leader := s.flight.value.leader;
      leader in s.callers && s.callers[leader].Leading? && s.callers[leader].flight == |s.landings|
  }

  ghost predicate Clocks<N>(start: int, steps: seq<Step<N>>, s: State<N>) {
    && s.taken == |steps| && |s.landings| == Landed(steps)
    && s.now == start + Elapsed(steps) && s.cachedAt <= s.now
  }

  ghost predicate Landings<N>(steps: seq<Step<N>>, s: State<N>) {
    forall f :: 0 <= f < |s.landings| ==> LandingTraced(steps, f, s.landings[f])
  }

  ghost predicate Callers<N>(steps: seq<Step<N>>, s: State<N>) {
    && (forall c :: c in s.callers ==> CallerSound(steps, s, c))
    && (forall i :: 0 <= i < |steps| && steps[i].Enter? ==> steps[i].c in s.callers)
  }

  ghost predicate Inv<N>(start: int, steps: seq<Step<N>>, s: State<N>) {
    && Clocks(start, steps, s)
    && LeaderThere(s)
    && FlightTraced(steps, s.flight, |s.landings|)
    && Landings(steps, s)
    && CacheTraced(start, steps, s)
    && Callers(steps, s)
  }

  lemma {:induction false} FlightsInOrder<N>(steps: seq<Step<N>>, i: nat)
    requires i <= |steps|
    ensures FlightOf(steps, i) <= Landed(steps)
  {
    if i == |steps| {
      assert steps[..i] == steps;
    } else {
      var init := steps[..|steps| - 1];
      FlightsInOrder(init, i);
      assert init[..i] == steps[..i];
    }
  }

  /** One more step leaves what earlier steps belong to as it was. */
  lemma Appended<N>(steps: seq<Step<N>>, x: Step<N>)
    ensures forall i :: 0 <= i <= |steps| ==> FlightOf(steps + [x], i) == FlightOf(steps, i) <= Landed(steps)
    ensures forall i :: 0 <= i <= |steps| ==> TimeOf(steps + [x], i) == TimeOf(steps, i)
    ensures FlightOf(steps + [x], |steps|) == Landed(steps) && TimeOf(steps + [x], |steps|) == Elapsed(steps)
    ensures Landed(steps + [x]) == Landed(steps) + if x.Land? then 1 else 0
    ensures Elapsed(steps + [x]) == Elapsed(steps) + if x.Wait? then x.d else 0
  {
    forall i | 0 <= i <= |steps| ensures (steps + [x])[..i] == steps[..i] && FlightOf(steps, i) <= Landed(steps) {
      FlightsInOrder(steps, i);
    }
    assert (steps + [x])[..|steps|] == steps;
  }

  lemma AnswerKept<N>(steps: seq<Step<N>>, x: Step<N>, f: nat, outcome: Listing<N>, a: nat)
    requires AnswerOf(steps, f, outcome, a) && (f == Landed(steps) ==> !x.ApiAnswers?)
    ensures AnswerOf(steps + [x], f, outcome, a)
  {
    Appended(steps, x);
  }

  lemma StoredKept<N>(steps: seq<Step<N>>, x: Step<N>, f: nat, items: seq<N>, a: nat, m: nat)
    requires StoredBy(steps, f, items, a, m) && (f == Landed(steps) ==> !x.ApiAnswers?)
    ensures StoredBy(steps + [x], f, items, a, m)
  {
    AnswerKept(steps, x, f, Listed(items), a);
    Appended(steps, x);
  }

  lemma QuietKept<N>(steps: seq<Step<N>>, x: Step<N>, f: nat)
    ensures Unstored(steps, f) && (f == Landed(steps) ==> !x.StoreAnswer?) ==> Unstored(steps + [x], f)
    ensures Unanswered(steps, f) && (f == Landed(steps) ==> !x.ApiAnswers?) ==> Unanswered(steps + [x], f)
    ensures f > Landed(steps) ==> Unstored(steps + [x], f) && Unanswered(steps + [x], f)
  {
    Appended(steps, x);
  }

  lemma ClocksKept<N>(start: int, steps: seq<Step<N>>, s: State<N>, x: Step<N>)
    requires Clocks(start, steps, s) && Enabled(s, x)
    ensures Clocks(start, steps + [x], Next(s, x))
  {
    Appended(steps, x);
  }

  lemma FlightStays<N>(steps: seq<Step<N>>, flight: Option<Flight<N>>, f: nat, x: Step<N>)
    requires FlightTraced(steps, flight, f) && f == Landed(steps)
    requires !x.ApiAnswers? && !x.StoreAnswer?
    ensures FlightTraced(steps + [x], flight, f)
  {
    QuietKept(steps, x, f);
    match flight {
      case None =>
      case Some(Flight(_, Asking)) =>
      case Some(Flight(_, Answered(items, a))) => AnswerKept(steps, x, f, Listed(items), a);
      case Some(Flight(_, Failing(a))) => AnswerKept(steps, x, f, ListFailed, a);
      case Some(Flight(_, Stored(items, a, m))) => StoredKept(steps, x, f, items, a, m);
    }
  }

  lemma FlightAnswered<N>(steps: seq<Step<N>>, f: nat, outcome: Listing<N>)
    requires Unanswered(steps, f) && Unstored(steps, f) && f == Landed(steps)
    ensures AnswerOf(steps + [ApiAnswers(outcome)], f, outcome, |steps|)
    ensures Unstored(steps + [ApiAnswers(outcome)], f)
  {
    Appended(steps, ApiAnswers(outcome));
    QuietKept(steps, ApiAnswers(outcome), f);
  }

  lemma FlightStores<N>(steps: seq<Step<N>>, f: nat, items: seq<N>, a: nat)
    requires AnswerOf(steps, f, Listed(items), a) && f == Landed(steps)
    ensures StoredBy(steps + [StoreAnswer], f, items, a, |steps|)
  {
    Appended(steps, StoreAnswer);
    AnswerKept(steps, StoreAnswer, f, Listed(items), a);
  }

  lemma FlightKept<N>(start: int, steps: seq<Step<N>>, s: State<N>, x: Step<N>)
    requires Clocks(start, steps, s) && FlightTraced(steps, s.flight, |s.landings|) && Enabled(s, x)
    ensures FlightTraced(steps + [x], Next(s, x).flight, |Next(s, x).landings|)
  {
    match x {
      case ApiAnswers(outcome) => FlightAnswered(steps, |s.landings|, outcome);
      case StoreAnswer => FlightStores(steps, |s.landings|, s.flight.value.stage.items, s.flight.value.stage.answer);
      case Land => QuietKept(steps, x, |s.landings| + 1);
      case Enter(_) =>
        QuietKept(steps, x, |s.landings|);
        FlightStays(steps, s.flight, |s.landings|, x);
      case Wait(_) => FlightStays(steps, s.flight, |s.landings|, x);
      case Check(_) => FlightStays(steps, s.flight, |s.landings|, x);
      case Collect(_) => FlightStays(steps, s.flight, |s.landings|, x);
    }
  }

  lemma LandingKept<N>(steps: seq<Step<N>>, x: Step<N>, f: nat, landing: Landing<N>)
    requires LandingTraced(steps, f, landing) && f < Landed(steps)
    ensures LandingTraced(steps + [x], f, landing)
  {
    Appended(steps, x);
    QuietKept(steps, x, f);
    match landing.outcome {
      case Listed(items) => StoredKept(steps, x, f, items, landing.origin.answer, landing.origin.store);
      case ListFailed => AnswerKept(steps, x, f, ListFailed, landing.origin.answer);
    }
  }

  lemma LandingsKept<N>(start: int, steps: seq<Step<N>>, s: State<N>, x: Step<N>)
    requires Clocks(start, steps, s) && FlightTraced(steps, s.flight, |s.landings|) && Landings(steps, s) && Enabled(s, x)
    ensures Landings(steps + [x], Next(s, x))
  {
    var t := Next(s, x);
    forall f | 0 <= f < |t.landings| ensures LandingTraced(steps + [x], f, t.landings[f]) {
      if f < |s.landings| {
        LandingKept(steps, x, f, s.landings[f]);
      } else {
        Appended(steps, x);
        QuietKept(steps, x, f);
        match s.flight.value.stage {
          case Stored(items, a, m) => StoredKept(steps, x, f, items, a, m);
          case Failing(a) => AnswerKept(steps, x, f, ListFailed, a);
          case _ =>
        }
      }
    }
  }

  lemma CacheKept<N>(start: int, steps: seq<Step<N>>, s: State<N>, x: Step<N>)
    requires Clocks(start, steps, s) && FlightTraced(steps, s.flight, |s.landings|) && CacheTraced(start, steps, s) && Enabled(s, x)
    ensures CacheTraced(start, steps + [x], Next(s, x))
  {
    Appended(steps, x);
    if x.StoreAnswer? {
      FlightStores(steps, |s.landings|, s.flight.value.stage.items, s.flight.value.stage.answer);
    } else if s.origin.Some? {
      CacheUntouched(steps, s, x);
    }
  }

  /** A flight asks once: whoever stored cannot be answered again. */
  lemma CacheUntouched<N>(steps: seq<Step<N>>, s: State<N>, x: Step<N>)
    requires FlightTraced(steps, s.flight, |s.landings|) && |s.landings| == Landed(steps) && Enabled(s, x) && s.origin.Some?
    requires var Origin(a, m) := s.origin.value; m < |steps| && StoredBy(steps, FlightOf(steps, m), s.cache, a, m)
    ensures var Origin(a, m) := s.origin.value; StoredBy(steps + [x], FlightOf(steps, m), s.cache, a, m)
  {
    var Origin(a, m) := s.origin.value;
    StoredKept(steps, x, FlightOf(steps, m), s.cache, a, m);
  }

  lemma ServedKept<N>(steps: seq<Step<N>>, s: State<N>, x: Step<N>, c: nat, items: seq<N>, a: nat, m: nat, k: nat)
    requires FlightTraced(steps, s.flight, |s.landings|) && |s.landings| == Landed(steps) && Enabled(s, x)
    requires ServedFromCache(steps, c, items, a, m, k)
    ensures ServedFromCache(steps + [x], c, items, a, m, k)
  {
    Appended(steps, x);
    StoredKept(steps, x, FlightOf(steps, m), items, a, m);
  }

  lemma EntersKept<N>(steps: seq<Step<N>>, x: Step<N>, c: nat, enter: Option<nat>)
    requires EntersOnlyAt(steps, c, enter) && x != Enter(c)
    ensures EntersOnlyAt(steps + [x], c, enter)
  {
  }

  lemma InFlightKept<N>(steps: seq<Step<N>>, x: Step<N>, c: nat, f: nat, e: nat)
    requires InFlightTraced(steps, c, f, e) && x != Enter(c)
    ensures InFlightTraced(steps + [x], c, f, e)
  {
    Appended(steps, x);
    EntersKept(steps, x, c, Some(e));
  }

  /** A caller that does not move stays as it was, while landings are added and the next
      flight, once it has a leader, keeps it until it lands. */
  lemma StillTraced<N>(steps: seq<Step<N>>, x: Step<N>, c: nat, caller: Caller<N>,
                       before: seq<Landing<N>>, after: seq<Landing<N>>, leader: Option<nat>, leader': Option<nat>)
    requires CallerTraced(steps, c, caller, before, leader) && x != Enter(c) && !caller.Got?
    requires before <= after && (|after| == |before| && leader != None ==> leader' == leader)
    ensures CallerTraced(steps + [x], c, caller, after, leader')
  {
    match caller {
      case Missed => EntersKept(steps, x, c, None);
      case Leading(f, e) => InFlightKept(steps, x, c, f, e);
      case Joined(f, e) => InFlightKept(steps, x, c, f, e);
      case Erred(f, e) => InFlightKept(steps, x, c, f, e);
    }
  }

  lemma StillServed<N>(steps: seq<Step<N>>, s: State<N>, x: Step<N>, c: nat)
    requires FlightTraced(steps, s.flight, |s.landings|) && |s.landings| == Landed(steps) && Enabled(s, x)
    requires c in s.callers && s.callers[c].Got? && CallerSound(steps, s, c) && x != Enter(c)
    ensures forall after: seq<Landing<N>>, leader: Option<nat> :: s.landings <= after ==>
      CallerTraced(steps + [x], c, s.callers[c], after, leader)
  {
    match s.callers[c].source {
      case FromCache(Origin(a, m), k) =>
        EntersKept(steps, x, c, None);
        ServedKept(steps, s, x, c, s.callers[c].items, a, m, k);
      case FromFlight(f, e) => InFlightKept(steps, x, c, f, e);
    }
  }

  lemma Bystands<N>(s: State<N>, x: Step<N>, c: nat)
    requires Enabled(s, x) && c in s.callers && x != Enter(c) && x != Collect(c)
    ensures c in Next(s, x).callers && Next(s, x).callers[c] == s.callers[c]
    ensures s.landings <= Next(s, x).landings
    ensures |Next(s, x).landings| == |s.landings| && Leader(s) != None ==> Leader(Next(s, x)) == Leader(s)
  {
  }

  lemma BystanderKept<N>(steps: seq<Step<N>>, s: State<N>, x: Step<N>, c: nat)
    requires FlightTraced(steps, s.flight, |s.landings|) && |s.landings| == Landed(steps) && Enabled(s, x)
    requires c in s.callers && CallerSound(steps, s, c) && x != Enter(c) && x != Collect(c)
    ensures c in Next(s, x).callers && CallerSound(steps + [x], Next(s, x), c)
  {
    Bystands(s, x, c);
    if s.callers[c].Got? {
      StillServed(steps, s, x, c);
    } else {
      StillTraced(steps, x, c, s.callers[c], s.landings, Next(s, x).landings, Leader(s), Leader(Next(s, x)));
    }
  }

  lemma CheckerTraced<N>(start: int, steps: seq<Step<N>>, s: State<N>, c: nat)
    requires Inv(start, steps, s) && Enabled(s, Check(c))
    ensures CallerSound(steps + [Check(c)], Next(s, Check(c)), c)
  {
    var x: Step<N> := Check(c);
    Appended(steps, x);
    forall i | 0 <= i < |steps| ensures steps[i] != Enter(c) {
    }
    if Fresh(s) {
      CacheUntouched(steps, s, x);
    }
  }

  lemma FirstEntered<N>(steps: seq<Step<N>>, c: nat)
    requires EntersOnlyAt(steps, c, None)
    ensures InFlightTraced(steps + [Enter(c)], c, Landed(steps), |steps|)
  {
    EntersNow(steps, c);
    Appended(steps, Enter(c));
  }

  lemma EntersNow<N>(steps: seq<Step<N>>, c: nat)
    requires EntersOnlyAt(steps, c, None)
    ensures EntersOnlyAt(steps + [Enter(c)], c, Some(|steps|))
  {
  }

  lemma EntererTraced<N>(start: int, steps: seq<Step<N>>, s: State<N>, c: nat)
    requires Inv(start, steps, s) && Enabled(s, Enter(c))
    requires s.callers[c].Missed? && EntersOnlyAt(steps, c, None)
    ensures CallerSound(steps + [Enter(c)], Next(s, Enter(c)), c)
  {
    FirstEntered(steps, c);
    if s.flight.Some? {
      assert LeaderThere(s);
    }
  }

  lemma CollectorTraced<N>(start: int, steps: seq<Step<N>>, s: State<N>, c: nat)
    requires Inv(start, steps, s) && Enabled(s, Collect(c))
    ensures CallerSound(steps + [Collect(c)], Next(s, Collect(c)), c)
  {
    assert CallerSound(steps, s, c);
    InFlightKept(steps, Collect(c), c, s.callers[c].flight, s.callers[c].enter);
  }

  lemma CallersKept<N>(start: int, steps: seq<Step<N>>, s: State<N>, x: Step<N>)
    requires Inv(start, steps, s) && Enabled(s, x)
    ensures Callers(steps + [x], Next(s, x))
  {
    var t := Next(s, x);
    forall c | c in t.callers ensures CallerSound(steps + [x], t, c) {
      if x == Check(c) {
        CheckerTraced(start, steps, s, c);
      } else if x == Enter(c) {
        assert CallerSound(steps, s, c);
        EntererTraced(start, steps, s, c);
      } else if x == Collect(c) {
        CollectorTraced(start, steps, s, c);
      } else {
        BystanderKept(steps, s, x, c);
      }
    }
  }

  lemma LeaderKept<N>(start: int, steps: seq<Step<N>>, s: State<N>, x: Step<N>)
    requires Inv(start, steps, s) && Enabled(s, x)
    ensures LeaderThere(Next(s, x))
  {
    if x.Collect? || x.Enter? {
      assert CallerSound(steps, s, x.c);
    }
  }

  lemma StepKeepsInv<N>(start: int, steps: seq<Step<N>>, s: State<N>, x: Step<N>)
    requires Inv(start, steps, s) && Enabled(s, x)
    ensures Inv(start, steps + [x], Next(s, x))
    ensures s.cachedAt <= Next(s, x).cachedAt
  {
    ClocksKept(start, steps, s, x);
    LeaderKept(start, steps, s, x);
    FlightKept(start, steps, s, x);
    LandingsKept(start, steps, s, x);
    CacheKept(start, steps, s, x);
    CallersKept(start, steps, s, x);
  }

  lemma {:induction false} RunKeepsInv<N>(start: int, past: seq<Step<N>>, from: State<N>, steps: seq<Step<N>>, to: State<N>)
    requires Inv(start, past, from) && Runs(from, steps, to)
    ensures Inv(start, past + steps, to) && from.cachedAt <= to.cachedAt
    decreases |steps|
  {
    if steps == [] {
      assert past + steps == past;
    } else {
      StepKeepsInv(start, past, from, steps[0]);
      RunKeepsInv(start, past + [steps[0]], Next(from, steps[0]), steps[1..], to);
      assert past + [steps[0]] + steps[1..] == past + steps;
    }
  }

  lemma RunInv<N>(start: int, steps: seq<Step<N>>, end: State<N>)
    requires Runs(Init(start), steps, end)
    ensures Inv(start, steps, end)
  {
    RunKeepsInv(start, [], Init(start), steps, end);
    assert [] + steps == steps;
  }

  /** The callers whose goroutine is inside the list call or about to store its answer. */
  ghost function InFlight<N>(s: State<N>): set<nat> {
    set c | c in s.callers && s.callers[c].Leading? && s.callers[c].flight >= |s.landings|
  }

  lemma OneInFlight<N>(start: int, steps: seq<Step<N>>, s: State<N>)
    requires Inv(start, steps, s)
    ensures |InFlight(s)| <= 1
  {
    var one := if s.flight.Some? then {s.flight.value.leader} else {};
    forall c | c in InFlight(s) ensures c in one {
      assert CallerSound(steps, s, c);
    }
    SubsetSize(InFlight(s), one);
  }

  /** Coherence, in every interleaving: at most one list call is in flight, and every
      successful answer is a list the API returned: stored, and then either found in the
      cache less than 30 seconds later with nothing stored since, or shared by a flight
      that was still registered when the caller entered it. */
  lemma CacheCoherent<N>(start: int, steps: seq<Step<N>>, end: State<N>)
    requires Runs(Init(start), steps, end)
    ensures |InFlight(end)| <= 1
    ensures forall c :: c in end.callers && end.callers[c].Got? ==> GivenByApi(steps, c, end.callers[c].items)
  {
    RunInv(start, steps, end);
    OneInFlight(start, steps, end);
    forall c | c in end.callers && end.callers[c].Got? ensures GivenByApi(steps, c, end.callers[c].items) {
      assert CallerSound(steps, end, c);
      match end.callers[c].source {
        case FromCache(Origin(a, m), k) => assert ServedFromCache(steps, c, end.callers[c].items, a, m, k);
        case FromFlight(f, e) =>
          var landing := end.landings[f];
          assert LandingTraced(steps, f, landing);
          EnteredBefore(steps, e, landing.land);
          assert ServedByFlight(steps, c, end.callers[c].items, e, landing.origin.answer, landing.origin.store, landing.land);
      }
    }
  }

  /** A step of the same flight as a landing, and not that landing, comes before it. */
  lemma EnteredBefore<N>(steps: seq<Step<N>>, e: nat, l: nat)
    requires e < |steps| && l < |steps| && FlightOf(steps, e) == FlightOf(steps, l)
    requires steps[l].Land? && !steps[e].Land?
    ensures e < l
  {
    if l < e {
      assert steps[..e][..l + 1] == steps[..l + 1] && steps[..l + 1][..l] == steps[..l];
      FlightsInOrder(steps[..e], l + 1);
    }
  }

  /** The cache is used whenever it may be: a caller is answered on the spot exactly when
      the last store was not empty and less than 30 seconds ago, and then with it. */
  lemma ServedFromCacheExactly<N>(start: int, steps: seq<Step<N>>, end: State<N>, c: nat, items: seq<N>)
    requires Runs(Init(start), steps, end) && Enabled(end, Check(c))
    ensures (Next(end, Check(c)).callers[c].Got? && Next(end, Check(c)).callers[c].items == items)
      <==> exists a: nat, m: nat :: ServedFromCache(steps + [Check(c)], c, items, a, m, |steps|)
  {
    RunInv(start, steps, end);
    CheckerTraced(start, steps, end, c);
    var now := steps + [Check(c)];
    Appended(steps, Check(c));
    if a: nat, m: nat :| ServedFromCache(now, c, items, a, m, |steps|) {
      assert now[m].StoreAnswer? && steps[m].StoreAnswer?;
      var Origin(a', m') := end.origin.value;
      CacheUntouched(steps, end, Check(c));
      assert now[m'].StoreAnswer?;
      assert m == m' && a == a';
    }
  }

  /** Whoever joined a flight never waits on a dead one: its outcome is there to collect,
      or the flight is still registered and can move. */
  lemma NobodyStranded<N>(start: int, steps: seq<Step<N>>, end: State<N>, c: nat)
    requires Runs(Init(start), steps, end)
    requires c in end.callers && Waits(end.callers[c])
    ensures Enabled(end, Collect(c)) || Enabled(end, ApiAnswers(ListFailed)) || Enabled(end, StoreAnswer) || Enabled(end, Land)
  {
    RunInv(start, steps, end);
    assert CallerSound(steps, end, c);
  }

  /** The landing of a flight that was answered shows that answer. */
  lemma AnswerLands<N>(start: int, steps: seq<Step<N>>, s: State<N>, a: nat)
    requires Inv(start, steps, s) && a < |steps| && steps[a].ApiAnswers?
    ensures FlightOf(steps, a) < |s.landings| ==> s.landings[FlightOf(steps, a)].outcome == steps[a].outcome
  {
    var f := FlightOf(steps, a);
    FlightsInOrder(steps, a);
    if f < |s.landings| {
      assert LandingTraced(steps, f, s.landings[f]);
    }
  }

  /** A caller that collects gets what the API answered the flight it entered: its list,
      whoever led it, or its failure. */
  lemma CollectsTheAnswer<N>(start: int, steps: seq<Step<N>>, end: State<N>, c: nat, e: nat, a: nat)
    requires Runs(Init(start), steps, end) && Enabled(end, Collect(c))
    requires e < |steps| && a < |steps| && steps[e] == Enter(c) && steps[a].ApiAnswers?
    requires FlightOf(steps, e) == FlightOf(steps, a)
    ensures match steps[a].outcome
      case Listed(items) => Next(end, Collect(c)).callers[c].Got? && Next(end, Collect(c)).callers[c].items == items
      case ListFailed => Next(end, Collect(c)).callers[c].Erred?
  {
    RunInv(start, steps, end);
    assert CallerSound(steps, end, c);
    AnswerLands(start, steps, end, a);
  }

  /** The leader's context decides for everyone, in every run: a flight the API failed
      stores nothing, and whoever entered it still waits or has got the error. */
  lemma FailureShared<N>(start: int, steps: seq<Step<N>>, end: State<N>, a: nat)
    requires Runs(Init(start), steps, end)
    requires a < |steps| && steps[a] == ApiAnswers(ListFailed)
    ensures Unstored(steps, FlightOf(steps, a))
    ensures forall e :: 0 <= e < |steps| && steps[e].Enter? && FlightOf(steps, e) == FlightOf(steps, a) ==>
      steps[e].c in end.callers && (Waits(end.callers[steps[e].c]) || end.callers[steps[e].c].Erred?)
  {
    RunInv(start, steps, end);
    var f := FlightOf(steps, a);
    FailedFlight(start, steps, end, a);
    forall e | 0 <= e < |steps| && steps[e].Enter? && FlightOf(steps, e) == f
      ensures steps[e].c in end.callers && (Waits(end.callers[steps[e].c]) || end.callers[steps[e].c].Erred?)
    {
      assert CallerSound(steps, end, steps[e].c);
    }
  }

  lemma FailedFlight<N>(start: int, steps: seq<Step<N>>, s: State<N>, a: nat)
    requires Inv(start, steps, s) && a < |steps| && steps[a] == ApiAnswers(ListFailed)
    ensures var f := FlightOf(steps, a);
      Unstored(steps, f) && (f < |s.landings| ==> s.landings[f].outcome == ListFailed)
  {
    var f := FlightOf(steps, a);
    FlightsInOrder(steps, a);
    if f < |s.landings| {
      assert LandingTraced(steps, f, s.landings[f]);
    }
  }

  /** And nobody gets an error otherwise. */
  lemma ErrorsComeFromTheApi<N>(start: int, steps: seq<Step<N>>, end: State<N>, c: nat)
    requires Runs(Init(start), steps, end) && c in end.callers && end.callers[c].Erred?
    ensures exists e: nat, a: nat ::
      e < |steps| && a < |steps| && steps[e] == Enter(c) && steps[a] == ApiAnswers(ListFailed) && FlightOf(steps, e) == FlightOf(steps, a)
  {
    RunInv(start, steps, end);
    assert CallerSound(steps, end, c);
    var Erred(f, e) := end.callers[c];
    assert LandingTraced(steps, f, end.landings[f]);
    var a := end.landings[f].origin.answer;
    assert steps[e] == Enter(c) && steps[a] == ApiAnswers(ListFailed);
  }
}
