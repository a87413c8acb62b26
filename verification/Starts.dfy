/** Replay protection as far as it reaches: it spaces the claims of a client, and a command
    starts some time after its claim, when it gets a slot. */
module Starts {
  import opened Wrappers
  import opened Api
  import opened Replay
  import opened Sets
  import opened Session
  import opened SessionInvariants
  import opened SessionTheorems
  import Text

  const TEN_MINUTES: int := 600_000_000_000

  /** The claims of client number `client`, the last being the current one. */
  function ClientClaims(s: State, client: nat): seq<Claim> {
    ClaimsOf(s.past, s.accepted, client)
  }

  ghost predicate Owned(s: State, i: nat) {
    i < |s.launches| && s.launches[i].client <= |s.past| && s.launches[i].ticket < |ClientClaims(s, s.launches[i].client)|
  }

  /** The claim behind start `i`. */
  ghost function ClaimOf(s: State, i: nat): Claim
    requires Owned(s, i)
  {
    ClientClaims(s, s.launches[i].client)[s.launches[i].ticket]
  }

  /** How long start `i` came after its claim. */
  ghost function WaitOf(s: State, i: nat): int
    requires Owned(s, i)
  {
    s.launches[i].at - ClaimOf(s, i).at
  }

  /** Across all sessions of any one client, past or present: an id is claimed at most
      once, and at most 4096 commands are claimed, in any closed ten-minute interval. */
  lemma ClaimsSpaced(s: State, client: nat)
    requires Reachable(s) && client <= |s.past|
    ensures WellSpaced(ClientClaims(s, client))
  {
    ReachableInv(s);
  }

  /** Every start has its claim, made by its client no later; clients start in claim
      order; and every goroutine there is has a start of its own, under its own id. */
  lemma StartsClaimed(s: State)
    requires Reachable(s)
    ensures forall i :: 0 <= i < |s.launches| ==> Owned(s, i) && WaitOf(s, i) >= 0
    ensures LaunchesInOrder(s.launches)
    ensures forall k :: k in s.link.workers ==>
      var i := s.link.workers[k].launch;
      Owned(s, i) && s.launches[i].client == |s.past| && ClaimOf(s, i).id == s.link.workers[k].cmd.id
    ensures forall j, k :: j in s.link.workers && k in s.link.workers && j != k ==>
      s.link.workers[j].launch != s.link.workers[k].launch
  {
    ReachableInv(s);
    forall i | 0 <= i < |s.launches| ensures Owned(s, i) && WaitOf(s, i) >= 0 {
      assert LaunchOwned(s.launches[i], s.past, s.accepted, s.now);
    }
  }

  lemma {:induction false} TicketGap(launches: seq<Launch>, i: nat, j: nat)
    requires LaunchesInOrder(launches) && i <= j < |launches| && launches[i].client == launches[j].client
    ensures launches[j].ticket - launches[i].ticket >= j - i
    decreases j
  {
    if i < j {
      assert launches[i].client <= launches[j - 1].client <= launches[j].client || i == j - 1;
      TicketGap(launches, i, j - 1);
    }
  }

  // The pairs of starts of one client that the window is meant to keep apart.

  ghost predicate SameId(s: State, i: nat, j: nat) {
    i < j && Owned(s, i) && Owned(s, j) && s.launches[i].client == s.launches[j].client && ClaimOf(s, i).id == ClaimOf(s, j).id
  }

  ghost predicate FullWindow(s: State, i: nat, j: nat) {
    i + 4096 <= j && Owned(s, i) && Owned(s, j) && s.launches[i].client == s.launches[j].client
  }

  /** How close two starts of one id, and the first and last of 4097 starts, can be: the
      ten minutes, less what the first of the two waited for its slot. */
  lemma StartsApart(s: State, i: nat, j: nat)
    requires Reachable(s) && (SameId(s, i, j) || FullWindow(s, i, j))
    ensures s.launches[j].at - s.launches[i].at > TEN_MINUTES - WaitOf(s, i)
    ensures s.launches[j].at >= s.launches[i].at
  {
    StartsClaimed(s);
    ClaimsSpaced(s, s.launches[i].client);
    TicketGap(s.launches, i, j);
    assert WaitOf(s, j) >= 0;
  }

  // That this is exact takes runs that attain it.

  lemma {:induction false} RunsOn(from: State, steps: seq<Step>, s: State, step: Step)
    requires Runs(from, steps, s) && Enabled(s, step)
    ensures Runs(from, steps + [step], Next(s, step))
    decreases |steps|
  {
    if steps == [] {
      assert [] + [step] == [step] && [step][1..] == [];
    } else {
      RunsOn(Next(from, steps[0]), steps[1..], s, step);
      assert (steps + [step])[0] == steps[0] && (steps + [step])[1..] == steps[1..] + [step];
    }
  }

  lemma Onwards(s: State, step: Step)
    requires Reachable(s) && Enabled(s, step)
    ensures Reachable(Next(s, step))
  {
    var setup: Setup, now: int, steps: seq<Step> :| Runs(Init(setup, now), steps, s);
    RunsOn(Init(setup, now), steps, s, step);
  }

  /** The session reads, and has a slot free. */
  ghost predicate Listening(s: State) {
    && Reachable(s) && s.phase.Selecting? && !s.link.closed
    && s.link.reader.Reading? && s.link.inbox == [] && s.link.slots < Capacity(s.setup.concurrency)
  }

  /** A command every policy lets through. */
  function Discover(id: string): Command {
    Command(id, CommandMessage, DiscoverNamespaces, Absent, None)
  }

  /** A fresh command arrives, is claimed, and starts `wait` later. */
  lemma CommandStarts(s: State, id: string, wait: nat) returns (t: State)
    requires Listening(s) && Claims(s.seen, id, s.now).0
    ensures var l := s.link;
      t == s.(now := s.now + wait, seen := Claims(s.seen, id, s.now).1, horizon := s.now,
              accepted := s.accepted + [Accepted(id, s.now)],
              launches := s.launches + [Launch(|s.past|, |s.accepted|, s.now + wait)],
              link := l.(decoded := l.decoded + [Discover(id)], slots := l.slots + 1, running := l.running + 1,
                         workers := l.workers[|l.decoded| := Worker(Discover(id), |s.launches|, Handling)]))
    ensures Reachable(t)
  {
    var job := Job(|s.link.decoded|, Discover(id));
    var claimed := CommandClaimed(s, id);
    var waited := Waited(claimed, wait);
    t := SlotTaken(waited, job, |s.accepted|);
  }

  lemma CommandClaimed(s: State, id: string) returns (t: State)
    requires Listening(s) && Claims(s.seen, id, s.now).0
    ensures Reachable(t)
    ensures t == s.(seen := Claims(s.seen, id, s.now).1, horizon := s.now, accepted := s.accepted + [Accepted(id, s.now)],
                    link := s.link.(decoded := s.link.decoded + [Discover(id)],
                                    reader := AwaitingSlot(Job(|s.link.decoded|, Discover(id)), |s.accepted|)))
  {
    var arrive, admit := Env(Arrive(Message(Discover(id)))), Read(Admit);
    Onwards(s, arrive);
    var arrived := Next(s, arrive);
    assert arrived.link.inbox[0] == Message(Discover(id)) && arrived.link.inbox[1..] == [];
    Onwards(arrived, admit);
    var admitted := Next(arrived, admit);
    var claim := Read(ClaimGranted(Claims(s.seen, id, s.now).1));
    Onwards(admitted, claim);
    t := Next(admitted, claim);
  }

  lemma Waited(s: State, wait: nat) returns (t: State)
    requires Reachable(s)
    ensures Reachable(t) && t == s.(now := s.now + wait)
  {
    Onwards(s, Env(Pass(wait)));
    t := Next(s, Env(Pass(wait)));
  }

  lemma SlotTaken(s: State, job: Job, ticket: nat) returns (t: State)
    requires Reachable(s) && s.link.reader == AwaitingSlot(job, ticket) && s.link.slots < Capacity(s.setup.concurrency)
    ensures Reachable(t)
    ensures t == s.(launches := s.launches + [Launch(|s.past|, ticket, s.now)],
                    link := s.link.(reader := Reading, slots := s.link.slots + 1, running := s.link.running + 1,
                                    workers := s.link.workers[job.serial := Worker(job.cmd, |s.launches|, Handling)]))
  {
    Onwards(s, Read(TakeSlot));
    t := Started(Next(s, Read(TakeSlot)), job, ticket);
  }

  lemma Started(s: State, job: Job, ticket: nat) returns (t: State)
    requires Reachable(s) && s.link.reader == Adding(job, ticket)
    ensures Reachable(t)
    ensures t == s.(launches := s.launches + [Launch(|s.past|, ticket, s.now)],
                    link := s.link.(reader := Reading, running := s.link.running + 1,
                                    workers := s.link.workers[job.serial := Worker(job.cmd, |s.launches|, Handling)]))
  {
    Onwards(s, Read(AddWork));
    var added := Next(s, Read(AddWork));
    Onwards(added, Read(Spawn));
    t := Next(added, Read(Spawn));
  }

  /** The first session of an agent. */
  lemma Connected(setup: Setup) returns (s: State)
    ensures Listening(s) && s == Init(setup, 0).(phase := Selecting, link := NEW_LINK)
  {
    var init := Init(setup, 0);
    assert Runs(init, [], init);
    Onwards(init, Main(DialOpens));
    s := Next(init, Main(DialOpens));
  }

  ghost predicate SameIdHandledTwice(s: State) {
    exists j, k :: j in Handlers(s.link.workers) && k in Handlers(s.link.workers) && j != k
      && s.link.workers[j].cmd.id == s.link.workers[k].cmd.id
  }

  /** The window does not even keep two handlers of one id from running at the same time:
      it does exactly when no two handlers can. */
  lemma OneHandlerPerIdExactly(setup: Setup)
    ensures (forall s: State | Reachable(s) && s.setup == setup :: !SameIdHandledTwice(s))
      <==> setup.concurrency == 1
  {
    if setup.concurrency == 1 {
      forall s: State | Reachable(s) && s.setup == setup ensures !SameIdHandledTwice(s) {
        HandlersBounded(s);
        forall j, k | j in Handlers(s.link.workers) && k in Handlers(s.link.workers) ensures j == k {
          AtMostOne(Handlers(s.link.workers), j, k);
        }
      }
    } else {
      var s := HandledTwice(setup);
    }
  }

  lemma AtMostOne(s: set<nat>, j: nat, k: nat)
    requires |s| <= 1 && j in s && k in s
    ensures j == k
  {
    SubsetSize({j, k}, s);
  }

  lemma HandlersMore(ws: map<nat, Worker>, k: nat, w: Worker)
    requires w.stage.Handling?
    ensures Handlers(ws[k := w]) == Handlers(ws) + {k}
  {
  }

  /** The run behind it: the first command waits out its own replay window for a slot. */
  lemma HandledTwice(setup: Setup) returns (s: State)
    requires Capacity(setup.concurrency) >= 2
    ensures Reachable(s) && s.setup == setup && SameIdHandledTwice(s)
  {
    var start := Connected(setup);
    var first := CommandStarts(start, "x", (REPLAY_TTL + 1) as nat);
    assert first.seen == map["x" := 0];
    assert Pruned(first.seen, first.now) == map[];
    var worker := Worker(Discover("x"), 0, Handling);
    assert first.link.workers == map[0 := worker];
    s := CommandStarts(first, "x", 0);
    assert s.link.workers == map[0 := worker][1 := worker.(launch := 1)];
    HandlersMore(map[0 := worker], 1, worker.(launch := 1));
    assert 0 in Handlers(map[0 := worker]);
  }

  /** `n` commands have come at once, and all their handlers run. */
  ghost predicate AllHandling(s: State, n: nat) {
    && Reachable(s) && s.phase.Selecting? && !s.link.closed && s.link.reader.Reading? && s.link.inbox == []
    && s.link.slots == n == |s.link.decoded| == |s.seen| && Pruned(s.seen, s.now) == s.seen
    && |Handlers(s.link.workers)| == n && forall k :: k in Handlers(s.link.workers) ==> k < n
  }

  lemma SeenMore(seen: map<string, int>, now: int, id: string)
    requires Pruned(seen, now) == seen && id !in seen && |seen| < MAX_REMEMBERED
    ensures Claims(seen, id, now) == (true, seen[id := now])
    ensures |seen[id := now]| == |seen| + 1 && Pruned(seen[id := now], now) == seen[id := now]
  {
  }

  lemma OneMoreHandling(s: State, n: nat) returns (t: State)
    requires AllHandling(s, n) && n < Capacity(s.setup.concurrency) && n < MAX_REMEMBERED
    ensures AllHandling(t, n + 1) && t.setup == s.setup
  {
    var id := Text.FreshName(s.seen.Keys);
    SeenMore(s.seen, s.now, id);
    HandlersMore(s.link.workers, n, Worker(Discover(id), |s.launches|, Handling));
    t := CommandStarts(s, id, 0);
  }

  lemma {:induction false} HandlersAtOnce(setup: Setup, n: nat) returns (s: State)
    requires n <= Capacity(setup.concurrency) && n <= MAX_REMEMBERED
    ensures AllHandling(s, n) && s.setup == setup
    decreases n
  {
    if n == 0 {
      s := Connected(setup);
    } else {
      var before := HandlersAtOnce(setup, n - 1);
      s := OneMoreHandling(before, n - 1);
    }
  }

  /** And the bound is used in full, up to what the replay window lets start at once. */
  lemma HandlersAttained(setup: Setup) returns (s: State)
    ensures Reachable(s) && s.setup == setup
    ensures var bound := if setup.concurrency > 0 then setup.concurrency else 8;
      |Handlers(s.link.workers)| == if bound <= 4096 then bound else 4096
  {
    var bound := if setup.concurrency > 0 then setup.concurrency else 8;
    s := HandlersAtOnce(setup, if bound <= 4096 then bound else 4096);
  }

  /** A goroutine in its handler finishes without writing. */
  lemma CommandEnds(s: State, k: nat) returns (t: State)
    requires Reachable(s) && k in s.link.workers && s.link.workers[k].stage.Handling?
    requires s.link.slots > 0 && s.link.running > 0
    ensures Reachable(t)
    ensures var l := s.link;
      t == s.(link := l.(workers := l.workers - {k}, slots := l.slots - 1, running := l.running - 1, finished := l.finished + 1))
  {
    Onwards(s, Work(k, Respond(false)));
    var responded := Next(s, Work(k, Respond(false)));
    assert responded == s.(link := s.link.(workers := Moved(s.link, k, Releasing)));
    var released := SlotFreed(responded, k);
    assert released.link.workers == Moved(s.link, k, Signalling);
    Onwards(released, Work(k, Signal));
    t := Next(released, Work(k, Signal));
    assert t.link.workers == s.link.workers - {k};
  }

  lemma SlotFreed(s: State, k: nat) returns (t: State)
    requires Reachable(s) && k in s.link.workers && s.link.workers[k].stage.Releasing? && s.link.slots > 0
    ensures Reachable(t) && t == s.(link := s.link.(workers := Moved(s.link, k, Signalling), slots := s.link.slots - 1))
  {
    Onwards(s, Work(k, Release));
    t := Next(s, Work(k, Release));
  }

  /** A command comes and goes: what a run of such commands leaves. */
  lemma CommandServed(s: State, id: string, wait: nat) returns (t: State)
    requires Listening(s) && Claims(s.seen, id, s.now).0
    ensures Listening(t) && t.setup == s.setup && t.past == s.past
    ensures t.now == s.now + wait && t.seen == Claims(s.seen, id, s.now).1
    ensures t.accepted == s.accepted + [Accepted(id, s.now)]
    ensures t.launches == s.launches + [Launch(|s.past|, |s.accepted|, s.now + wait)]
  {
    ReachableInv(s);
    var started := CommandStarts(s, id, wait);
    t := CommandEnds(started, |s.link.decoded|);
  }

  /** Starts `i` onwards are of the only client, one for each claim, and none after the
      first waited. */
  ghost predicate InStep(s: State, wait: nat) {
    && s.past == [] && |s.launches| == |s.accepted|
    && forall i :: 0 <= i < |s.launches| ==>
         s.launches[i] == Launch(0, i, s.accepted[i].at + if i == 0 then wait else 0)
  }

  lemma InStepMore(s: State, t: State, id: string, wait: nat)
    requires InStep(s, wait) && s.launches != []
    requires t.past == s.past && t.accepted == s.accepted + [Accepted(id, s.now)]
    requires t.launches == s.launches + [Launch(0, |s.accepted|, s.now)]
    ensures InStep(t, wait)
  {
  }

  /** What the client remembers besides `keep`. */
  function Besides(s: State, keep: string): set<string> {
    Pruned(s.seen, s.now).Keys - {keep}
  }

  lemma RoomForOne(s: State, keep: string, id: string)
    requires |Besides(s, keep)| + 1 < MAX_REMEMBERED && id !in s.seen
    ensures Claims(s.seen, id, s.now) == (true, Pruned(s.seen, s.now)[id := s.now])
  {
    var live := Pruned(s.seen, s.now);
    AddOne(keep, Besides(s, keep));
    SubsetSize(live.Keys, {keep} + Besides(s, keep));
  }

  lemma PrunedAgain(live: map<string, int>, now: int, id: string)
    requires forall x :: x in live ==> now - live[x] <= REPLAY_TTL
    ensures Pruned(live[id := now], now) == live[id := now]
  {
  }

  lemma AddedBesides(live: map<string, int>, id: string, at: int, keep: string)
    requires id !in live && id != keep
    ensures |live[id := at].Keys - {keep}| == |live.Keys - {keep}| + 1
  {
    assert live[id := at].Keys - {keep} == (live.Keys - {keep}) + {id};
  }

  lemma ServedInStep(s: State, id: string, wait: nat) returns (t: State)
    requires Listening(s) && InStep(s, wait) && s.launches != [] && Claims(s.seen, id, s.now).0
    ensures Listening(t) && InStep(t, wait) && t.launches != [] && t.setup == s.setup && t.now == s.now
    ensures t.accepted == s.accepted + [Accepted(id, s.now)] && t.seen == Claims(s.seen, id, s.now).1
  {
    t := CommandServed(s, id, 0);
    InStepMore(s, t, id, wait);
  }

  /** A fresh command served on the spot. */
  lemma OneServed(s: State, wait: nat, keep: string) returns (t: State)
    requires Listening(s) && InStep(s, wait) && s.launches != []
    requires |Besides(s, keep)| + 1 < MAX_REMEMBERED
    ensures Listening(t) && InStep(t, wait) && t.launches != [] && t.setup == s.setup && t.now == s.now
    ensures |t.accepted| == |s.accepted| + 1 && s.accepted <= t.accepted
    ensures |Besides(t, keep)| == |Besides(s, keep)| + 1
    ensures keep in t.seen ==> keep in s.seen && t.seen[keep] == s.seen[keep]
  {
    var id := Text.FreshName(s.seen.Keys + {keep});
    RoomForOne(s, keep, id);
    t := ServedInStep(s, id, wait);
    PrunedAgain(Pruned(s.seen, s.now), s.now, id);
    AddedBesides(Pruned(s.seen, s.now), id, s.now, keep);
  }

  /** Any number of fresh commands at once, none of them `keep`, while the window has room. */
  lemma {:induction false} ManyServed(s: State, n: nat, wait: nat, keep: string) returns (t: State)
    requires Listening(s) && InStep(s, wait) && s.launches != []
    requires |Besides(s, keep)| + n < MAX_REMEMBERED
    ensures Listening(t) && InStep(t, wait) && t.launches != [] && t.setup == s.setup && t.now == s.now
    ensures |t.accepted| == |s.accepted| + n && s.accepted <= t.accepted
    ensures |Besides(t, keep)| == |Besides(s, keep)| + n
    ensures keep in t.seen ==> keep in s.seen && t.seen[keep] == s.seen[keep]
    decreases n
  {
    if n == 0 {
      t := s;
    } else {
      var next := OneServed(s, wait, keep);
      t := ManyServed(next, n - 1, wait, keep);
    }
  }

  /** What the window is worth when no start waits longer than `wait` after its claim. */
  function Guaranteed(wait: nat): int {
    if wait > TEN_MINUTES then 0 else TEN_MINUTES + 1 - wait
  }

  ghost predicate WaitsWithin(s: State, wait: nat) {
    forall i :: 0 <= i < |s.launches| && Owned(s, i) ==> WaitOf(s, i) <= wait
  }

  ghost predicate IdsApart(s: State, gap: int) {
    forall i: nat, j: nat :: SameId(s, i, j) ==> s.launches[j].at - s.launches[i].at >= gap
  }

  ghost predicate WindowsApart(s: State, gap: int) {
    forall i: nat, j: nat :: FullWindow(s, i, j) ==> s.launches[j].at - s.launches[i].at >= gap
  }

  lemma KeptExpires(s: State, keep: string, now: int)
    requires |Besides(s, keep)| < MAX_REMEMBERED && s.now <= now
    requires keep in s.seen ==> now - s.seen[keep] > REPLAY_TTL
    ensures Claims(s.seen, keep, now).0
  {
    var live := Pruned(s.seen, now);
    SubsetSize(live.Keys, Besides(s, keep));
  }

  lemma FirstServed(setup: Setup, wait: nat) returns (s: State)
    ensures Listening(s) && InStep(s, wait) && s.setup == setup && s.now == wait
    ensures s.accepted == [Accepted("x", 0)] && s.seen == map["x" := 0] && Besides(s, "x") == {}
  {
    var start := Connected(setup);
    assert Pruned(start.seen, 0) == map[];
    s := CommandServed(start, "x", wait);
  }

  lemma Paused(s: State, pause: nat, wait: nat) returns (t: State)
    requires Listening(s) && InStep(s, wait)
    ensures Listening(t) && InStep(t, wait) && t == s.(now := s.now + pause)
  {
    t := Waited(s, pause);
  }

  lemma LastServed(s: State, wait: nat, pause: nat, keep: string) returns (t: State)
    requires Listening(s) && InStep(s, wait) && s.launches != [] && |Besides(s, keep)| < MAX_REMEMBERED
    requires keep in s.seen ==> s.now + pause - s.seen[keep] > REPLAY_TTL
    ensures Reachable(t) && InStep(t, wait) && t.setup == s.setup
    ensures t.accepted == s.accepted + [Accepted(keep, s.now + pause)]
  {
    var ready := Paused(s, pause, wait);
    assert ready.launches != [];
    assert Claims(ready.seen, keep, ready.now).0 by {
      KeptExpires(s, keep, s.now + pause);
    }
    t := ServedInStep(ready, keep, wait);
  }

  lemma InStepWaits(s: State, wait: nat)
    requires InStep(s, wait)
    ensures WaitsWithin(s, wait)
    ensures forall i: nat :: i < |s.launches| ==> Owned(s, i) && ClaimOf(s, i) == s.accepted[i]
  {
  }

  /** A first command waits for its slot; the client goes on to claim `others` more, and
      then, as soon as the window lets it, the first one's id again. */
  lemma TightRun(setup: Setup, wait: nat, others: nat) returns (s: State, last: nat)
    requires others < MAX_REMEMBERED
    ensures Reachable(s) && s.setup == setup && WaitsWithin(s, wait)
    ensures last == others + 1 && SameId(s, 0, last)
    ensures s.launches[last].at - s.launches[0].at == Guaranteed(wait)
  {
    var first := FirstServed(setup, wait);
    var many := ManyServed(first, others, wait, "x");
    s := LastServed(many, wait, Guaranteed(wait) as nat, "x");
    last := others + 1;
    assert s.accepted[0] == many.accepted[0] == first.accepted[0];
    InStepWaits(s, wait);
  }

  /** If no start comes more than `wait` after its claim, starts of one id are kept apart
      by the ten minutes less `wait`, and by no more: so an id starts at most once in any
      closed ten minutes exactly when starts never wait. */
  lemma IdsApartExactly(setup: Setup, wait: nat, gap: int)
    ensures (forall s: State | Reachable(s) && s.setup == setup && WaitsWithin(s, wait) :: IdsApart(s, gap))
      <==> gap <= Guaranteed(wait)
  {
    if gap <= Guaranteed(wait) {
      forall s: State | Reachable(s) && s.setup == setup && WaitsWithin(s, wait) ensures IdsApart(s, gap) {
        forall i: nat, j: nat | SameId(s, i, j) ensures s.launches[j].at - s.launches[i].at >= gap {
          StartsApart(s, i, j);
        }
      }
    } else {
      var s, last := TightRun(setup, wait, 0);
      assert !IdsApart(s, gap);
    }
  }

  /** The same for the rate: 4097 starts of one client take at least as long, and can take
      no longer. */
  lemma WindowsApartExactly(setup: Setup, wait: nat, gap: int)
    ensures (forall s: State | Reachable(s) && s.setup == setup && WaitsWithin(s, wait) :: WindowsApart(s, gap))
      <==> gap <= Guaranteed(wait)
  {
    if gap <= Guaranteed(wait) {
      forall s: State | Reachable(s) && s.setup == setup && WaitsWithin(s, wait) ensures WindowsApart(s, gap) {
        forall i: nat, j: nat | FullWindow(s, i, j) ensures s.launches[j].at - s.launches[i].at >= gap {
          StartsApart(s, i, j);
        }
      }
    } else {
      var s, last := TightRun(setup, wait, MAX_REMEMBERED - 1);
      assert FullWindow(s, 0, last) && !WindowsApart(s, gap);
    }
  }
}
