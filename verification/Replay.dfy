/** Replay protection: the `seenCommands` map of a gateway client, against the full
    history of accepted claims. Times are nanoseconds on the monotonic clock. */
module Replay {
  import opened Clock
  import opened Sets

  const REPLAY_TTL: int := 600 * SECOND
  const MAX_REMEMBERED: nat := 4096

  datatype Claim = Accepted(id: string, at: int)

  /** What pruning at `now` leaves. */
  function Pruned(seen: map<string, int>, now: int): map<string, int> {
    map id | id in seen && now - seen[id] <= REPLAY_TTL :: seen[id]
  }

  /** `claimCommand` as a function: the verdict, and the map it leaves behind. A full
      map refuses rather than forget a live entry. */
  function Claims(seen: map<string, int>, id: string, now: int): (r: (bool, map<string, int>)) {
    var live := Pruned(seen, now);
    if id in live || |live| >= MAX_REMEMBERED then (false, live) else (true, live[id := now])
  }

  // The history that a client's map summarises.

  /** Claims in the order they were accepted, none after `now`. */
  ghost predicate Chronological(log: seq<Claim>, now: int) {
    && (forall i, j :: 0 <= i < j < |log| ==> log[i].at <= log[j].at)
    && (forall i :: 0 <= i < |log| ==> log[i].at <= now)
  }

  /** The two promises: an id at most once in a closed ten-minute interval, and at most
      `MAX_REMEMBERED` claims in one. */
  ghost predicate WellSpaced(log: seq<Claim>) {
    IdsSpaced(log) && RateBounded(log)
  }

  ghost predicate IdsSpaced(log: seq<Claim>) {
    forall i, j :: 0 <= i < j < |log| && log[i].id == log[j].id ==> log[j].at - log[i].at > REPLAY_TTL
  }

  ghost predicate RateBounded(log: seq<Claim>) {
    forall i, j :: 0 <= i < |log| && i + MAX_REMEMBERED <= j < |log| ==> log[j].at - log[i].at > REPLAY_TTL
  }

  /** Position `i` is still within the window that ends at `horizon`. */
  ghost predicate Live(log: seq<Claim>, horizon: int, i: int) {
    0 <= i < |log| && horizon - log[i].at <= REPLAY_TTL
  }

  /** The map is the log restricted to the window of the last prune. */
  ghost predicate Summarises(seen: map<string, int>, log: seq<Claim>, horizon: int) {
    && (forall i :: Live(log, horizon, i) ==> log[i].id in seen && seen[log[i].id] == log[i].at)
    && (forall id :: id in seen ==> exists i :: Live(log, horizon, i) && log[i] == Accepted(id, seen[id]))
  }

  /** What holds of a client at any time `now`: its map was last pruned at `horizon`. */
  ghost predicate Tracks(seen: map<string, int>, log: seq<Claim>, horizon: int, now: int) {
    horizon <= now && Chronological(log, horizon) && WellSpaced(log) && Summarises(seen, log, horizon)
  }

  lemma PruneTracks(seen: map<string, int>, log: seq<Claim>, horizon: int, now: int)
    requires Tracks(seen, log, horizon, now)
    ensures Tracks(Pruned(seen, now), log, now, now)
  {
    var live := Pruned(seen, now);
    forall i | Live(log, now, i) ensures log[i].id in live && live[log[i].id] == log[i].at {
      assert Live(log, horizon, i);
    }
    forall id | id in live ensures exists i :: Live(log, now, i) && log[i] == Accepted(id, live[id]) {
      var i :| Live(log, horizon, i) && log[i] == Accepted(id, seen[id]);
      assert Live(log, now, i);
    }
  }

  ghost function IdsFrom(log: seq<Claim>, k: nat): (ids: set<string>)
    requires k <= |log|
    ensures forall id :: id in ids <==> exists i :: k <= i < |log| && log[i].id == id
    decreases |log| - k
  {
    if k == |log| then {} else {log[k].id} + IdsFrom(log, k + 1)
  }

  lemma {:induction false} IdsAtMost(log: seq<Claim>, k: nat)
    requires k <= |log|
    ensures |IdsFrom(log, k)| <= |log| - k
    decreases |log| - k
  {
    if k < |log| {
      IdsAtMost(log, k + 1);
      var rest := IdsFrom(log, k + 1);
      AddOne(log[k].id, rest);
      assert IdsFrom(log, k) == {log[k].id} + rest;
    }
  }

  lemma {:induction false} IdsExactly(log: seq<Claim>, k: nat)
    requires k <= |log|
    requires forall i, j :: k <= i < j < |log| ==> log[i].id != log[j].id
    ensures |IdsFrom(log, k)| == |log| - k
    decreases |log| - k
  {
    if k < |log| {
      IdsExactly(log, k + 1);
      assert log[k].id !in IdsFrom(log, k + 1);
    }
  }

  lemma LiveOnwards(log: seq<Claim>, now: int, i: int, j: int)
    requires Chronological(log, now) && Live(log, now, i) && i <= j < |log|
    ensures Live(log, now, j)
  {
    assert i < j ==> log[i].at <= log[j].at;
  }

  /** The live claims are the last ones, each under its own id, so the map counts them. */
  lemma LiveCount(seen: map<string, int>, log: seq<Claim>, now: int, k: nat)
    requires Tracks(seen, log, now, now) && Live(log, now, k)
    ensures |log| - k <= |seen|
  {
    forall id | id in IdsFrom(log, k) ensures id in seen {
      var i :| k <= i < |log| && log[i].id == id;
      LiveOnwards(log, now, k, i);
    }
    SubsetSize(IdsFrom(log, k), seen.Keys);
    forall i, j | k <= i < j < |log| ensures log[i].id != log[j].id {
      LiveOnwards(log, now, k, i);
      LiveOnwards(log, now, k, j);
    }
    IdsExactly(log, k);
  }

  /** One claim at `now`: accepted or not, the map keeps summarising the history and the
      history keeps its promises. */
  lemma ClaimTracks(seen: map<string, int>, log: seq<Claim>, horizon: int, id: string, now: int)
    requires Tracks(seen, log, horizon, now)
    ensures var (accepted, seen') := Claims(seen, id, now);
      Tracks(seen', if accepted then log + [Accepted(id, now)] else log, now, now)
  {
    PruneTracks(seen, log, horizon, now);
    var live := Pruned(seen, now);
    var (accepted, seen') := Claims(seen, id, now);
    if accepted {
      AcceptSpaced(live, log, id, now);
      AcceptSummarises(live, log, id, now);
    }
  }

  lemma AcceptSpaced(live: map<string, int>, log: seq<Claim>, id: string, now: int)
    requires Tracks(live, log, now, now) && id !in live && |live| < MAX_REMEMBERED
    ensures Chronological(log + [Accepted(id, now)], now) && WellSpaced(log + [Accepted(id, now)])
  {
    forall i | 0 <= i < |log| && log[i].id == id ensures now - log[i].at > REPLAY_TTL {
      assert !Live(log, now, i);
    }
    forall i | 0 <= i < |log| && i + MAX_REMEMBERED <= |log| ensures now - log[i].at > REPLAY_TTL {
      if Live(log, now, i) {
        LiveCount(live, log, now, i);
      }
    }
  }

  lemma AcceptSummarises(live: map<string, int>, log: seq<Claim>, id: string, now: int)
    requires Tracks(live, log, now, now) && id !in live
    ensures Summarises(live[id := now], log + [Accepted(id, now)], now)
  {
    var log' := log + [Accepted(id, now)];
    forall i | Live(log', now, i) ensures log'[i].id in live[id := now] && live[id := now][log'[i].id] == log'[i].at {
      if i < |log| {
        assert Live(log, now, i);
      }
    }
    var seen' := live[id := now];
    forall x | x in seen' ensures exists i :: Live(log', now, i) && log'[i] == Accepted(x, seen'[x]) {
      if x == id {
        assert Live(log', now, |log|);
      } else {
        var i :| Live(log, now, i) && log[i] == Accepted(x, live[x]);
        assert Live(log', now, i) && log'[i] == log[i];
      }
    }
  }

  ghost predicate RecentlyAccepted(log: seq<Claim>, now: int, id: string) {
    exists i :: Live(log, now, i) && log[i].id == id
  }

  /** A claim is refused exactly when the id was accepted in the last ten minutes or the
      window already holds as many claims as the client remembers. */
  lemma RefusedExactly(seen: map<string, int>, log: seq<Claim>, horizon: int, id: string, now: int)
    requires Tracks(seen, log, horizon, now)
    ensures !Claims(seen, id, now).0 <==> RecentlyAccepted(log, now, id) || Live(log, now, |log| - MAX_REMEMBERED)
  {
    PruneTracks(seen, log, horizon, now);
    var live := Pruned(seen, now);
    LiveMeansRecent(live, log, now, id);
    FullMeansCrowded(live, log, now);
  }

  lemma LiveMeansRecent(live: map<string, int>, log: seq<Claim>, now: int, id: string)
    requires Summarises(live, log, now)
    ensures id in live <==> RecentlyAccepted(log, now, id)
  {
  }

  lemma FullMeansCrowded(live: map<string, int>, log: seq<Claim>, now: int)
    requires Tracks(live, log, now, now)
    ensures |live| >= MAX_REMEMBERED <==> Live(log, now, |log| - MAX_REMEMBERED)
  {
    if Live(log, now, |log| - MAX_REMEMBERED) {
      LiveCount(live, log, now, |log| - MAX_REMEMBERED);
    } else if |live| >= MAX_REMEMBERED {
      FullMeansLive(live, log, now);
    }
  }

  lemma FullMeansLive(live: map<string, int>, log: seq<Claim>, now: int)
    requires Tracks(live, log, now, now) && |live| >= MAX_REMEMBERED
    ensures Live(log, now, |log| - MAX_REMEMBERED)
  {
    var k := |log| - MAX_REMEMBERED;
    if !Live(log, now, k) {
      var from := if k < 0 then 0 else k + 1;
      forall id | id in live ensures id in IdsFrom(log, from) {
        var i :| Live(log, now, i) && log[i] == Accepted(id, live[id]);
        if i < from {
          LiveOnwards(log, now, i, k);
        }
      }
      SubsetSize(live.Keys, IdsFrom(log, from));
      IdsAtMost(log, from);
    }
  }

  /** The client's part of the state that `claimCommand` guards with its mutex. */
  class ReplayGuard {
    var seen: map<string, int>
    ghost var accepted: seq<Claim>
    ghost var horizon: int

    ghost predicate Valid(now: int)
      reads this
    {
      Tracks(seen, accepted, horizon, now)
    }

    constructor (ghost now: int)
      ensures Valid(now) && seen == map[] && accepted == []
    {
      seen := map[];
      accepted := [];
      horizon := now;
    }

    method ClaimCommand(id: string, now: int) returns (ok: bool)
      requires Valid(now)
      modifies this
      ensures Valid(now)
      ensures (ok, seen) == Claims(old(seen), id, now)
      ensures accepted == if ok then old(accepted) + [Accepted(id, now)] else old(accepted)
    {
      ClaimTracks(seen, accepted, horizon, id, now);
      Prune(now);
      horizon := now;
      if id in seen {
        return false;
      }
      if |seen| >= MAX_REMEMBERED {
        return false;
      }
      seen := seen[id := now];
      accepted := accepted + [Accepted(id, now)];
      return true;
    }

    /** A map range may delete as it goes, in any order. */
    method Prune(now: int)
      modifies this`seen
      ensures seen == Pruned(old(seen), now)
    {
      var todo := seen.Keys;
      while todo != {}
        invariant todo <= old(seen).Keys
        invariant forall id :: id in seen <==> id in old(seen) && (id in todo || now - old(seen)[id] <= REPLAY_TTL)
        invariant forall id :: id in seen ==> seen[id] == old(seen)[id]
        decreases todo
      {
        var id :| id in todo;
        todo := todo - {id};
        if now - seen[id] > REPLAY_TTL {
          seen := seen - {id};
        }
      }
    }
  }
}
