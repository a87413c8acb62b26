/** `Client.Run`: dial, serve, back off, until stopped or revoked.

    One `Round` holds everything the environment decides during one pass of the loop:
    what dialing and the session came to, how long they took, and how the wait went.
    A script that runs out stands for a client that is still running. */
module GatewayClient {
  import opened Clock
  import opened Reconnect

  const MIN_DELAY: int := SECOND
  const MAX_DELAY: int := 30 * SECOND
  const STABLE: int := 30 * SECOND
  const POLICY_VIOLATION := 1008

  datatype SessionEnd = Cancelled | CloseFrame(code: int) | OtherFailure

  datatype Dial =
    | Unreachable
    | Rejected(status: int)
    | Connected(end: SessionEnd, lasted: nat)

  /** A timer may fire late, never early. */
  datatype Sleep = Slept(late: nat) | Interrupted(after: nat)

  datatype Round = Round(stopped: bool, dialTook: nat, dial: Dial, random: nat, sleep: Sleep)

  datatype Outcome = Running | Stopped | Revoked

  datatype Summary = Summary(outcome: Outcome, waits: nat, elapsed: nat)

  datatype Turn = Ends(outcome: Outcome, took: nat) | Waits(took: nat, current: int)

  /** The backoff always stays on its schedule. */
  predicate OnSchedule(current: int) {
    current in { 0, SECOND, 2 * SECOND, 4 * SECOND, 8 * SECOND, 16 * SECOND, MAX_DELAY }
  }

  function Pause(r: Round, current: int, spent: nat): Turn
    requires current >= 2
  {
    match r.sleep
    case Slept(late) => Waits(spent + current + r.random % (current / 2) + late, current)
    case Interrupted(after) => Ends(Stopped, spent + after)
  }

  /** One pass of the loop, from the backoff's `current`. */
  function TurnOf(r: Round, current: int): (t: Turn)
    requires OnSchedule(current)
    ensures t.Waits? ==> OnSchedule(t.current)
  {
    if r.stopped then Ends(Stopped, 0)
    else
      match r.dial
      case Unreachable => Pause(r, Advance(MIN_DELAY, MAX_DELAY, current), r.dialTook)
      case Rejected(status) =>
        if status == 401 || status == 403 then Ends(Revoked, r.dialTook)
        else Pause(r, Advance(MIN_DELAY, MAX_DELAY, current), r.dialTook)
      case Connected(end, lasted) =>
        var spent := r.dialTook + lasted;
        if end == Cancelled then Ends(Stopped, spent)
        else if end == CloseFrame(POLICY_VIOLATION) then Ends(Revoked, spent)
        else Pause(r, Advance(MIN_DELAY, MAX_DELAY, if lasted >= STABLE then 0 else current), spent)
  }

  function Run(script: seq<Round>, current: int): Summary
    requires OnSchedule(current)
  {
    if script == [] then Summary(Running, 0, 0)
    else
      match TurnOf(script[0], current)
      case Ends(outcome, took) => Summary(outcome, 0, took)
      case Waits(took, next) =>
        var rest := Run(script[1..], next);
        Summary(rest.outcome, 1 + rest.waits, took + rest.elapsed)
  }

  /** What went before, put in front of the rest of a run. */
  function After(waits: nat, elapsed: nat, rest: Summary): Summary {
    Summary(rest.outcome, waits + rest.waits, elapsed + rest.elapsed)
  }

  lemma Unroll(script: seq<Round>, i: nat, current: int, waits: nat, elapsed: nat)
    requires i < |script| && OnSchedule(current)
    ensures var whole := After(waits, elapsed, Run(script[i..], current));
      match TurnOf(script[i], current)
      case Ends(outcome, took) => whole == Summary(outcome, waits, elapsed + took)
      case Waits(took, next) => whole == After(waits + 1, elapsed + took, Run(script[i + 1..], next))
  {
    assert script[i..][0] == script[i] && script[i..][1..] == script[i + 1..];
  }

  /** The loop body: dial, serve, back off. */
  method Attempt(r: Round, backoff: Backoff) returns (t: Turn)
    requires backoff.Valid() && backoff.min == MIN_DELAY && backoff.max == MAX_DELAY && OnSchedule(backoff.current)
    modifies backoff
    ensures t == TurnOf(r, old(backoff.current))
    ensures backoff.Valid() && (t.Waits? ==> t.current == backoff.current)
  {
    if r.stopped {
      return Ends(Stopped, 0);
    }
    var spent := r.dialTook;
    match r.dial {
      case Unreachable =>
      case Rejected(status) =>
        if status == 401 || status == 403 {
          return Ends(Revoked, spent);
        }
      case Connected(end, lasted) =>
        spent := spent + lasted;
        if end == Cancelled {
          return Ends(Stopped, spent);
        }
        if end == CloseFrame(POLICY_VIOLATION) {
          return Ends(Revoked, spent);
        }
        if lasted >= STABLE {
          backoff.Reset();
        }
    }
    var delay := backoff.Next(r.random);
    match r.sleep {
      case Slept(late) => return Waits(spent + delay + late, backoff.current);
      case Interrupted(after) => return Ends(Stopped, spent + after);
    }
  }

  method RunClient(script: seq<Round>) returns (s: Summary)
    ensures s == Run(script, 0)
  {
    var backoff := new Backoff(MIN_DELAY, MAX_DELAY);
    var waits, elapsed: nat := 0, 0;
    var i := 0;
    while i < |script|
      invariant 0 <= i <= |script|
      invariant backoff.Valid() && fresh(backoff) && backoff.min == MIN_DELAY && backoff.max == MAX_DELAY
      invariant OnSchedule(backoff.current)
      invariant Run(script, 0) == After(waits, elapsed, Run(script[i..], backoff.current))
    {
      Unroll(script, i, backoff.current, waits, elapsed);
      var turn := Attempt(script[i], backoff);
      match turn {
        case Ends(outcome, took) => return Summary(outcome, waits, elapsed + took);
        case Waits(took, _) => waits, elapsed := waits + 1, elapsed + took;
      }
      i := i + 1;
    }
    return Summary(Running, waits, elapsed);
  }

  // The retry rate.

  /** How far ahead of four waits per 45 seconds the backoff can have got, in quarter
      seconds: a reset gives the credit back, but costs a stable session. */
  function Credit(current: int): nat
    requires OnSchedule(current)
  {
    if current == 0 then 0
    else if current == SECOND then 41
    else if current == 2 * SECOND then 78
    else if current == 4 * SECOND then 107
    else if current == 8 * SECOND then 120
    else if current == 16 * SECOND then 101
    else 26
  }

  /** A wait is at least its base delay, which is the next one, or the first after a
      stable session. */
  lemma TurnTakes(r: Round, current: int)
    requires OnSchedule(current)
    ensures var t := TurnOf(r, current);
      t.Waits? ==>
        || (t.took >= t.current && t.current == Advance(MIN_DELAY, MAX_DELAY, current))
        || (t.took >= STABLE + t.current && t.current == MIN_DELAY)
  {
  }

  lemma TurnPays(r: Round, current: int)
    requires OnSchedule(current)
    ensures var t := TurnOf(r, current);
      t.Waits? ==> 4 * t.took + (Credit(t.current) - Credit(current)) * SECOND >= 45 * SECOND
  {
    TurnTakes(r, current);
    var t := TurnOf(r, current);
    if t.Waits? {
      DelayPays(current, t.took, t.current);
    }
  }

  lemma DelayPays(current: int, took: nat, next: int)
    requires OnSchedule(current)
    requires || (took >= next && next == Advance(MIN_DELAY, MAX_DELAY, current))
             || (took >= STABLE + next && next == MIN_DELAY)
    ensures 4 * took + (Credit(next) - Credit(current)) * SECOND >= 45 * SECOND
  {
  }

  ghost predicate Paid(s: Summary, credit: nat) {
    4 * s.elapsed + (120 - credit) * SECOND >= 45 * SECOND * s.waits
  }

  lemma PayOn(rest: Summary, took: nat, credit: nat, next: nat)
    requires Paid(rest, next) && 4 * took + (next - credit) * SECOND >= 45 * SECOND
    ensures Paid(Summary(rest.outcome, 1 + rest.waits, took + rest.elapsed), credit)
  {
  }

  lemma {:induction false} RatePaid(script: seq<Round>, current: int)
    requires OnSchedule(current)
    ensures Paid(Run(script, current), Credit(current))
  {
    if script != [] {
      var t := TurnOf(script[0], current);
      if t.Waits? {
        TurnPays(script[0], current);
        RatePaid(script[1..], t.current);
        PayOn(Run(script[1..], t.current), t.took, Credit(current), Credit(t.current));
      }
    }
  }

  /** In any run, `n` completed waits take at least 45n/4 - 30 seconds, whatever mix of
      failed dials, short sessions and stable sessions occurs. */
  lemma RetryRate(script: seq<Round>)
    ensures var s := Run(script, 0); 4 * s.elapsed >= 45 * SECOND * s.waits - 120 * SECOND
  {
    RatePaid(script, 0);
  }

  function Failing(n: nat): seq<Round> {
    if n == 0 then [] else [Round(false, 0, Unreachable, 0, Slept(0))] + Failing(n - 1)
  }

  /** A session just long enough to reset the backoff, then three failed dials. */
  function Cycles(m: nat): seq<Round> {
    if m == 0 then []
    else [Round(false, 0, Connected(OtherFailure, STABLE as nat), 0, Slept(0))] + Failing(3) + Cycles(m - 1)
  }

  lemma {:induction false} RunAppend(a: seq<Round>, b: seq<Round>, current: int, n: nat, took: nat, next: int)
    requires OnSchedule(current) && OnSchedule(next)
    requires Reaches(a, current, n, took, next)
    ensures var rest := Run(b, next);
      Run(a + b, current) == Summary(rest.outcome, n + rest.waits, took + rest.elapsed)
    decreases |a|
  {
    if a == [] {
      assert a + b == b;
    } else {
      var t := TurnOf(a[0], current);
      RunAppend(a[1..], b, t.current, n - 1, took - t.took, next);
      assert (a + b)[0] == a[0] && (a + b)[1..] == a[1..] + b;
    }
  }

  /** `a` takes the backoff from `current` to `next` in `n` waits and `took` in all. */
  ghost predicate Reaches(a: seq<Round>, current: int, n: nat, took: nat, next: int)
    requires OnSchedule(current)
    decreases |a|
  {
    if a == [] then n == 0 && took == 0 && next == current
    else
      var t := TurnOf(a[0], current);
      t.Waits? && n > 0 && took >= t.took && Reaches(a[1..], t.current, n - 1, took - t.took, next)
  }

  lemma FailingThree(current: int)
    requires current == SECOND
    ensures Failing(3) == [Failing(1)[0], Failing(1)[0], Failing(1)[0]]
    ensures Reaches(Failing(3), SECOND, 3, (14 * SECOND) as nat, 8 * SECOND)
  {
    var f := Failing(1)[0];
    assert Failing(1) == [f] && Failing(2) == [f, f] && Failing(3) == [f, f, f];
    assert Failing(3)[1..] == Failing(2) && Failing(2)[1..] == Failing(1) && Failing(1)[1..] == [];
    assert Reaches([], 8 * SECOND, 0, 0, 8 * SECOND);
    assert TurnOf(f, 4 * SECOND) == Waits((8 * SECOND) as nat, 8 * SECOND);
    assert Reaches(Failing(1), 4 * SECOND, 1, (8 * SECOND) as nat, 8 * SECOND);
    assert Reaches(Failing(2), 2 * SECOND, 2, (12 * SECOND) as nat, 8 * SECOND);
  }

  lemma {:induction false} CyclesTake(m: nat, current: int)
    requires OnSchedule(current)
    ensures Run(Cycles(m), current) == Summary(Running, 4 * m, (45 * m) * (SECOND as nat))
    decreases m
  {
    if m > 0 {
      var first := Round(false, 0, Connected(OtherFailure, STABLE as nat), 0, Slept(0));
      var rest := Failing(3) + Cycles(m - 1);
      assert Cycles(m) == [first] + rest;
      assert TurnOf(first, current) == Waits((31 * SECOND) as nat, SECOND);
      FailingThree(SECOND);
      RunAppend(Failing(3), Cycles(m - 1), SECOND, 3, (14 * SECOND) as nat, 8 * SECOND);
      CyclesTake(m - 1, 8 * SECOND);
    }
  }

  /** The bound is the best possible: for every `m` a run attains it exactly. */
  lemma RetryRateTight(m: nat) returns (script: seq<Round>)
    ensures var s := Run(script, 0);
      s.waits == 4 * m + 4 && 4 * s.elapsed == 45 * SECOND * s.waits - 120 * SECOND
  {
    var f := Failing(1)[0];
    script := [f] + (Failing(3) + Cycles(m));
    assert TurnOf(f, 0) == Waits(SECOND as nat, SECOND);
    FailingThree(SECOND);
    RunAppend(Failing(3), Cycles(m), SECOND, 3, (14 * SECOND) as nat, 8 * SECOND);
    CyclesTake(m, 8 * SECOND);
    assert script[1..] == Failing(3) + Cycles(m);
  }

  // When a run ends, and how.

  predicate Revokes(r: Round) {
    !r.stopped
    && ((r.dial.Rejected? && r.dial.status in { 401, 403 })
        || (r.dial.Connected? && r.dial.end == CloseFrame(1008)))
  }

  predicate Stops(r: Round) {
    r.stopped || (!Revokes(r) && ((r.dial.Connected? && r.dial.end == Cancelled) || r.sleep.Interrupted?))
  }

  /** A run is over at the first round that stops or revokes it, and that round says
      which: revocation is a 401/403 handshake or a 1008 close, nothing else. */
  lemma {:induction false} RunEnds(script: seq<Round>, current: int)
    requires OnSchedule(current)
    ensures Run(script, current).waits <= |script|
    ensures Run(script, current).outcome == Running <==>
      forall i :: 0 <= i < |script| ==> !Stops(script[i]) && !Revokes(script[i])
    ensures Run(script, current).outcome == Running ==> Run(script, current).waits == |script|
    ensures Run(script, current).outcome == Revoked ==>
      var n := Run(script, current).waits;
      n < |script| && Revokes(script[n]) && forall i :: 0 <= i < n ==> !Stops(script[i]) && !Revokes(script[i])
    ensures Run(script, current).outcome == Stopped ==>
      var n := Run(script, current).waits;
      n < |script| && Stops(script[n]) && forall i :: 0 <= i < n ==> !Stops(script[i]) && !Revokes(script[i])
    decreases |script|
  {
    if script != [] {
      var t := TurnOf(script[0], current);
      assert t.Waits? <==> !Stops(script[0]) && !Revokes(script[0]);
      if t.Waits? {
        RunEnds(script[1..], t.current);
        assert forall i :: 1 <= i < |script| ==> script[i] == script[1..][i - 1];
      }
    }
  }

  // How long each wait is.

  /** What a round takes besides its wait. */
  function Spent(r: Round): nat {
    r.dialTook + if r.dial.Connected? then r.dial.lasted else 0
  }

  predicate Stable(r: Round) {
    r.dial.Connected? && r.dial.lasted >= 30 * SECOND
  }

  /** How many waits there have been since the last stable session, with that of round `n`. */
  function Tries(script: seq<Round>, n: nat): nat
    requires n < |script|
  {
    if Stable(script[n]) || n == 0 then 1 else 1 + Tries(script, n - 1)
  }

  /** The waits between the last stable session and round `n`. */
  function TriesBefore(script: seq<Round>, n: nat): nat
    requires n <= |script|
  {
    if n == 0 then 0 else Tries(script, n - 1)
  }

  lemma {:induction false} ReachesMore(a: seq<Round>, r: Round, current: int, n: nat, took: nat, next: int)
    requires OnSchedule(current) && OnSchedule(next) && Reaches(a, current, n, took, next) && TurnOf(r, next).Waits?
    ensures Reaches(a + [r], current, n + 1, took + TurnOf(r, next).took, TurnOf(r, next).current)
    decreases |a|
  {
    var t := TurnOf(r, next);
    if a == [] {
      assert a + [r] == [r] && [r][1..] == [];
      assert Reaches([], t.current, 0, 0, t.current);
    } else {
      var first := TurnOf(a[0], current);
      ReachesMore(a[1..], r, first.current, n - 1, took - first.took, next);
      assert (a + [r])[0] == a[0] && (a + [r])[1..] == a[1..] + [r];
    }
  }

  /** The base delay of round `n`'s wait, whatever ended the session before it. */
  lemma TurnSchedule(script: seq<Round>, n: nat)
    requires n < |script| && !Stops(script[n]) && !Revokes(script[n])
    requires OnSchedule(Nth(MIN_DELAY, MAX_DELAY, TriesBefore(script, n)))
    ensures var r, base := script[n], Nth(MIN_DELAY, MAX_DELAY, Tries(script, n));
      var t := TurnOf(r, Nth(MIN_DELAY, MAX_DELAY, TriesBefore(script, n)));
      && t.Waits? && t.current == base && r.sleep.Slept?
      && base <= t.took - Spent(r) - r.sleep.late < base + base / 2
  {
    assert Nth(MIN_DELAY, MAX_DELAY, 0) == 0 && Nth(MIN_DELAY, MAX_DELAY, 1) == MIN_DELAY;
  }

  /** One more wait at the end of a run. */
  lemma OneMoreWait(p: seq<Round>, r: Round, current: int)
    requires OnSchedule(current) && TurnOf(r, current).Waits?
    requires Run(p, 0).outcome == Running && Reaches(p, 0, Run(p, 0).waits, Run(p, 0).elapsed, current)
    ensures var t, run := TurnOf(r, current), Run(p + [r], 0);
      && run == Summary(Running, Run(p, 0).waits + 1, Run(p, 0).elapsed + t.took)
      && Reaches(p + [r], 0, run.waits, run.elapsed, t.current)
  {
    var run := Run(p, 0);
    ReachesMore(p, r, 0, run.waits, run.elapsed, current);
    RunAppend(p, [r], 0, run.waits, run.elapsed, current);
    assert [r][1..] == [];
  }

  /** A run that has not ended has the backoff where the waits since the last stable
      session put it. */
  lemma {:induction false} Schedule(script: seq<Round>, n: nat)
    requires n <= |script| && forall i :: 0 <= i < n ==> !Stops(script[i]) && !Revokes(script[i])
    ensures var current := Nth(MIN_DELAY, MAX_DELAY, TriesBefore(script, n));
      && OnSchedule(current)
      && Run(script[..n], 0).outcome == Running
      && Reaches(script[..n], 0, Run(script[..n], 0).waits, Run(script[..n], 0).elapsed, current)
    decreases n
  {
    if n == 0 {
      assert script[..0] == [];
    } else {
      Schedule(script, n - 1);
      TurnSchedule(script, n - 1);
      OneMoreWait(script[..n - 1], script[n - 1], Nth(MIN_DELAY, MAX_DELAY, TriesBefore(script, n - 1)));
      assert script[..n] == script[..n - 1] + [script[n - 1]];
    }
  }

  /** Every wait of a run, from both sides: the k-th since the last session of 30 seconds
      or more, however that one ended, is 1s * 2^(k-1), at most 30s, plus up to half of it
      in jitter, and whatever the timer is late. */
  lemma NthWait(script: seq<Round>, n: nat)
    requires n < |script| && Run(script[..n + 1], 0).outcome == Running
    ensures script[n].sleep.Slept?
    ensures var doubled := SECOND * Pow2(Tries(script, n) - 1);
      var base := if doubled <= 30 * SECOND then doubled else 30 * SECOND;
      var took := Run(script[..n + 1], 0).elapsed - Run(script[..n], 0).elapsed;
      base <= took - Spent(script[n]) - script[n].sleep.late < base + base / 2
  {
    RunEnds(script[..n + 1], 0);
    assert forall i :: 0 <= i < n + 1 ==> script[i] == script[..n + 1][i];
    Schedule(script, n);
    TurnSchedule(script, n);
    OneMoreWait(script[..n], script[n], Nth(MIN_DELAY, MAX_DELAY, TriesBefore(script, n)));
    assert script[..n + 1] == script[..n] + [script[n]];
    ClosedForm(MIN_DELAY, MAX_DELAY, Tries(script, n));
  }

  /** So a stable session starts the delays over: the wait after it is under 1.5 seconds. */
  lemma StableResets(script: seq<Round>, n: nat)
    requires n < |script| && Run(script[..n + 1], 0).outcome == Running && Stable(script[n])
    ensures script[n].sleep.Slept?
    ensures var took := Run(script[..n + 1], 0).elapsed - Run(script[..n], 0).elapsed;
      SECOND <= took - Spent(script[n]) - script[n].sleep.late < SECOND + SECOND / 2
  {
    NthWait(script, n);
    assert Pow2(0) == 1;
  }

  /** The round that ends a run takes what was spent in it: nothing if the run is stopped
      before dialing, and the part of the wait that was slept if it is stopped there. */
  lemma EndTakes(script: seq<Round>, n: nat)
    requires n < |script| && (Stops(script[n]) || Revokes(script[n]))
    requires forall i :: 0 <= i < n ==> !Stops(script[i]) && !Revokes(script[i])
    ensures var r := script[n];
      var took := Run(script, 0).elapsed - Run(script[..n], 0).elapsed;
      && Run(script, 0).waits == n
      && (r.stopped ==> took == 0)
      && (!r.stopped && (Revokes(r) || (r.dial.Connected? && r.dial.end == Cancelled)) ==> took == Spent(r))
      && (!r.stopped && !Revokes(r) && !(r.dial.Connected? && r.dial.end == Cancelled) ==>
            r.sleep.Interrupted? && took == Spent(r) + r.sleep.after)
  {
    Schedule(script, n);
    RunEnds(script[..n], 0);
    var run, current := Run(script[..n], 0), Nth(MIN_DELAY, MAX_DELAY, TriesBefore(script, n));
    RunAppend(script[..n], script[n..], 0, run.waits, run.elapsed, current);
    assert script == script[..n] + script[n..];
    EndsNow(script[n], script[n..], current);
  }

  lemma EndsNow(r: Round, script: seq<Round>, current: int)
    requires script != [] && script[0] == r && OnSchedule(current) && (Stops(r) || Revokes(r))
    ensures Run(script, current).waits == 0
    ensures var took := Run(script, current).elapsed;
      && (r.stopped ==> took == 0)
      && (!r.stopped && (Revokes(r) || (r.dial.Connected? && r.dial.end == Cancelled)) ==> took == Spent(r))
      && (!r.stopped && !Revokes(r) && !(r.dial.Connected? && r.dial.end == Cancelled) ==>
            r.sleep.Interrupted? && took == Spent(r) + r.sleep.after)
  {
  }
}
