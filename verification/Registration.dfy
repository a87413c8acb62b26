/** `waitForNewRegistration`: poll for a registration token, spend it, persist what it
    buys. One `Round` is what the environment decides during one pass of the loop. */
module Registration {
  import opened Wrappers
  import opened Auth

  /** One attempt to save; `waited` is false when the wait after a failure is cancelled. */
  datatype Save = Save(ok: bool, waited: bool)

  datatype Round = Round(stopped: bool, token: Result<string, ()>, reply: Reply, saves: seq<Save>, waited: bool)

  datatype Event = Submitted(token: string, verdict: Verdict) | Saved(identity: Identity, ok: bool)

  datatype Outcome = Waiting | Stopped | Returned(identity: Identity)

  datatype Trace = Trace(events: seq<Event>, outcome: Outcome)

  function Then(before: seq<Event>, rest: Trace): Trace {
    Trace(before + rest.events, rest.outcome)
  }

  lemma ThenThen(a: seq<Event>, b: seq<Event>, rest: Trace)
    ensures Then(a, Then(b, rest)) == Then(a + b, rest)
  {
    assert a + (b + rest.events) == (a + b) + rest.events;
  }

  /** The inner loop: only saving is retried. */
  function Saving(identity: Identity, saves: seq<Save>): Trace {
    if saves == [] then Trace([], Waiting)
    else
      var event := [Saved(identity, saves[0].ok)];
      if saves[0].ok then Trace(event, Returned(identity))
      else if !saves[0].waited then Trace(event, Stopped)
      else Then(event, Saving(identity, saves[1..]))
  }

  /** The outer loop, remembering one rejected token. */
  function Polling(script: seq<Round>, rejected: string): Trace {
    if script == [] then Trace([], Waiting)
    else
      var r := script[0];
      if r.stopped then Trace([], Stopped)
      else if r.token.Ok? && r.token.value != "" && r.token.value != rejected then
        var verdict := Judge(r.reply);
        var event := [Submitted(r.token.value, verdict)];
        match verdict
        case Registered(identity) => Then(event, Saving(identity, r.saves))
        case Incomplete => Then(event, Polling(script[1..], r.token.value))
        case Permanent =>
          if r.waited then Then(event, Polling(script[1..], r.token.value)) else Trace(event, Stopped)
        case Transient =>
          if r.waited then Then(event, Polling(script[1..], rejected)) else Trace(event, Stopped)
      else if r.waited then Polling(script[1..], rejected)
      else Trace([], Stopped)
  }

  method WaitForNewRegistration(script: seq<Round>) returns (t: Trace)
    ensures t == Polling(script, "")
  {
    var rejected := "";
    var events: seq<Event> := [];
    var i := 0;
    while i < |script|
      invariant 0 <= i <= |script|
      invariant Polling(script, "") == Then(events, Polling(script[i..], rejected))
    {
      var r := script[i];
      assert script[i..][0] == r && script[i..][1..] == script[i + 1..];
      i := i + 1;
      if r.stopped {
        return Trace(events, Stopped);
      }
      if r.token.Ok? && r.token.value != "" && r.token.value != rejected {
        var token := r.token.value;
        var verdict := Judge(r.reply);
        ghost var before := events;
        events := events + [Submitted(token, verdict)];
        if verdict.Registered? {
          var saving := SaveUntilDone(verdict.identity, r.saves);
          ThenThen(before, [Submitted(token, verdict)], saving);
          return Then(events, saving);
        }
        if verdict.Incomplete? {
          rejected := token;
          ThenThen(before, [Submitted(token, verdict)], Polling(script[i..], token));
          continue;
        }
        if verdict.Permanent? {
          rejected := token;
        }
        ThenThen(before, [Submitted(token, verdict)], Polling(script[i..], rejected));
      }
      if !r.waited {
        return Trace(events, Stopped);
      }
    }
    return Trace(events, Waiting);
  }

  method SaveUntilDone(identity: Identity, saves: seq<Save>) returns (t: Trace)
    ensures t == Saving(identity, saves)
  {
    var events: seq<Event> := [];
    var i := 0;
    while i < |saves|
      invariant 0 <= i <= |saves|
      invariant Saving(identity, saves) == Then(events, Saving(identity, saves[i..]))
    {
      assert saves[i..][0] == saves[i] && saves[i..][1..] == saves[i + 1..];
      ghost var before := events;
      events := events + [Saved(identity, saves[i].ok)];
      ThenThen(before, [Saved(identity, saves[i].ok)], Saving(identity, saves[i + 1..]));
      if saves[i].ok {
        return Trace(events, Returned(identity));
      }
      if !saves[i].waited {
        return Trace(events, Stopped);
      }
      i := i + 1;
    }
    return Trace(events, Waiting);
  }

  // What holds of every trace.

  predicate Rejects(e: Event) {
    e.Submitted? && (e.verdict.Permanent? || e.verdict.Incomplete?)
  }

  /** A rejected token comes back only after a different one has been rejected. */
  ghost predicate NoResubmission(events: seq<Event>) {
    forall i, j :: 0 <= i < j < |events| && Rejects(events[i]) && events[j].Submitted? && events[j].token == events[i].token
      ==> RejectedBetween(events, i, j)
  }

  ghost predicate RejectedBetween(events: seq<Event>, i: int, j: int)
    requires 0 <= i < j < |events| && events[i].Submitted?
  {
    exists k :: i < k < j && Rejects(events[k]) && events[k].token != events[i].token
  }

  /** Until something is rejected, `rejected` itself is not submitted. */
  ghost predicate Avoids(events: seq<Event>, rejected: string) {
    forall j :: 0 <= j < |events| && events[j].Submitted? && events[j].token == rejected
      ==> exists k :: 0 <= k < j && Rejects(events[k]) && events[k].token != rejected
  }

  /** Once registered, every later event is an attempt to save that identity. */
  ghost predicate SavesAfterRegistering(events: seq<Event>) {
    forall i, j :: 0 <= i < j < |events| && events[i].Submitted? && events[i].verdict.Registered?
      ==> events[j].Saved? && events[j].identity == events[i].verdict.identity
  }

  /** A save stores what some earlier submission bought. */
  ghost predicate SavesWhatWasBought(events: seq<Event>) {
    forall j :: 0 <= j < |events| && events[j].Saved? ==> exists i :: BoughtBy(events, i, j)
  }

  ghost predicate BoughtBy(events: seq<Event>, i: int, j: int) {
    && 0 <= i < j < |events| && events[j].Saved?
    && events[i].Submitted? && events[i].verdict == Registered(events[j].identity)
  }

  lemma {:induction false} SavingTrace(identity: Identity, saves: seq<Save>)
    ensures var t := Saving(identity, saves);
      && (forall i :: 0 <= i < |t.events| ==> t.events[i].Saved? && t.events[i].identity == identity)
      && (forall i :: 0 <= i < |t.events| && t.events[i].ok ==> i == |t.events| - 1 && t.outcome == Returned(identity))
      && (t.outcome.Returned? ==> t.events != [] && t.events[|t.events| - 1] == Saved(identity, true) && t.outcome.identity == identity)
  {
    if saves != [] && !saves[0].ok && saves[0].waited {
      SavingTrace(identity, saves[1..]);
    }
  }

  ghost predicate Sound(t: Trace, rejected: string) {
    && NoResubmission(t.events)
    && Avoids(t.events, rejected)
    && SavesAfterRegistering(t.events)
    && SavesWhatWasBought(t.events)
    && (forall i :: 0 <= i < |t.events| && t.events[i].Submitted? ==> t.events[i].token != "")
    && (t.outcome.Returned? ==> t.events != [] && t.events[|t.events| - 1] == Saved(t.outcome.identity, true))
  }

  lemma RegisteredSound(token: string, identity: Identity, saves: seq<Save>, rejected: string)
    requires token != "" && token != rejected
    ensures Sound(Then([Submitted(token, Registered(identity))], Saving(identity, saves)), rejected)
  {
    SavingTrace(identity, saves);
    var t := Then([Submitted(token, Registered(identity))], Saving(identity, saves));
    assert forall j :: 1 <= j < |t.events| ==> t.events[j] == Saving(identity, saves).events[j - 1];
    forall j | 0 <= j < |t.events| && t.events[j].Saved? ensures exists i :: BoughtBy(t.events, i, j) {
      assert BoughtBy(t.events, 0, j);
    }
  }

  lemma PrefixNoResubmission(first: Event, rest: seq<Event>)
    requires first.Submitted? && NoResubmission(rest)
    requires Rejects(first) ==> Avoids(rest, first.token)
    ensures NoResubmission([first] + rest)
  {
    var t := [first] + rest;
    forall i, j | 0 <= i < j < |t| && Rejects(t[i]) && t[j].Submitted? && t[j].token == t[i].token
      ensures RejectedBetween(t, i, j)
    {
      assert t[j] == rest[j - 1];
      if i == 0 {
        var k :| 0 <= k < j - 1 && Rejects(rest[k]) && rest[k].token != first.token;
        assert t[k + 1] == rest[k] && Rejects(t[k + 1]);
      } else {
        assert t[i] == rest[i - 1] && RejectedBetween(rest, i - 1, j - 1);
        var k :| i - 1 < k < j - 1 && Rejects(rest[k]) && rest[k].token != t[i].token;
        assert t[k + 1] == rest[k] && Rejects(t[k + 1]);
      }
    }
  }

  lemma PrefixAvoids(first: Event, rest: seq<Event>, rejected: string)
    requires first.Submitted? && first.token != rejected
    requires Rejects(first) || Avoids(rest, rejected)
    ensures Avoids([first] + rest, rejected)
  {
    var t := [first] + rest;
    forall j | 0 <= j < |t| && t[j].Submitted? && t[j].token == rejected
      ensures exists k :: 0 <= k < j && Rejects(t[k]) && t[k].token != rejected
    {
      if Rejects(first) {
        assert t[0] == first && Rejects(t[0]);
      } else {
        assert t[j] == rest[j - 1];
        var k :| 0 <= k < j - 1 && Rejects(rest[k]) && rest[k].token != rejected;
        assert t[k + 1] == rest[k] && Rejects(t[k + 1]);
      }
    }
  }

  lemma PrefixBought(first: Event, rest: seq<Event>)
    requires first.Submitted? && SavesWhatWasBought(rest)
    ensures SavesWhatWasBought([first] + rest)
  {
    var t := [first] + rest;
    forall j | 0 <= j < |t| && t[j].Saved? ensures exists i :: BoughtBy(t, i, j) {
      assert t[j] == rest[j - 1];
      var i :| BoughtBy(rest, i, j - 1);
      assert BoughtBy(t, i + 1, j);
    }
  }

  /** Prefixing one unsuccessful submission. */
  lemma PrefixSound(token: string, verdict: Verdict, rest: Trace, rejected: string)
    requires token != "" && token != rejected && !verdict.Registered?
    requires Sound(rest, if verdict.Transient? then rejected else token)
    ensures Sound(Then([Submitted(token, verdict)], rest), rejected)
  {
    var first := Submitted(token, verdict);
    var t := Then([first], rest).events;
    PrefixNoResubmission(first, rest.events);
    PrefixAvoids(first, rest.events, rejected);
    PrefixBought(first, rest.events);
    assert forall j :: 1 <= j < |t| ==> t[j] == rest.events[j - 1];
  }

  lemma {:induction false} TraceSound(script: seq<Round>, rejected: string)
    ensures Sound(Polling(script, rejected), rejected)
  {
    if script != [] && !script[0].stopped {
      var r := script[0];
      if r.token.Ok? && r.token.value != "" && r.token.value != rejected {
        var token, verdict := r.token.value, Judge(r.reply);
        if verdict.Registered? {
          RegisteredSound(token, verdict.identity, r.saves, rejected);
        } else if verdict.Incomplete? || r.waited {
          var next := if verdict.Transient? then rejected else token;
          TraceSound(script[1..], next);
          PrefixSound(token, verdict, Polling(script[1..], next), rejected);
        } else {
          PrefixSound(token, verdict, Trace([], Stopped), rejected);
          assert Then([Submitted(token, verdict)], Trace([], Stopped)).events == [Submitted(token, verdict)];
        }
      } else if r.waited {
        TraceSound(script[1..], rejected);
      }
    }
  }

  /** In any run: no empty token is ever submitted; a rejected token is not submitted
      again until a different one has been rejected; after the first complete
      registration only saving is retried; and a normal return means the returned
      identity was bought, is complete, and its save was the last thing that happened. */
  lemma ReRegistration(script: seq<Round>)
    ensures var t := Polling(script, "");
      && NoResubmission(t.events)
      && SavesAfterRegistering(t.events)
      && SavesWhatWasBought(t.events)
      && (forall i :: 0 <= i < |t.events| && t.events[i].Submitted? ==> t.events[i].token != "")
      && (t.outcome.Returned? ==>
            && t.outcome.identity.Complete()
            && t.events != [] && t.events[|t.events| - 1] == Saved(t.outcome.identity, true))
  {
    TraceSound(script, "");
    ReturnsComplete(script, "");
  }

  lemma {:induction false} ReturnsComplete(script: seq<Round>, rejected: string)
    ensures var t := Polling(script, rejected); t.outcome.Returned? ==> t.outcome.identity.Complete()
  {
    if script != [] {
      var r := script[0];
      var verdict := Judge(r.reply);
      if verdict.Registered? {
        SavingTrace(verdict.identity, r.saves);
      }
      ReturnsComplete(script[1..], rejected);
      if r.token.Ok? {
        ReturnsComplete(script[1..], r.token.value);
      }
    }
  }

  /** The saves of this round get through in the end. */
  ghost predicate SavedEventually(saves: seq<Save>) {
    exists m :: 0 <= m < |saves| && saves[m].ok && SaveRetried(saves, m)
  }

  ghost predicate SaveRetried(saves: seq<Save>, m: nat)
    requires m < |saves|
  {
    forall i :: 0 <= i < m ==> !saves[i].ok && saves[i].waited
  }

  lemma {:induction false} SavingSucceeds(identity: Identity, saves: seq<Save>, m: nat)
    requires m < |saves| && saves[m].ok && SaveRetried(saves, m)
    ensures Saving(identity, saves).outcome == Returned(identity)
    decreases m
  {
    if m > 0 {
      assert saves[1..][m - 1] == saves[m];
      assert SaveRetried(saves[1..], m - 1);
      SavingSucceeds(identity, saves[1..], m - 1);
    }
  }

  /** Before round `n` nobody stops the agent, no registration succeeds, and `token` is
      not on offer. */
  ghost predicate NothingYet(script: seq<Round>, token: string, n: nat)
    requires n < |script|
  {
    forall i :: 0 <= i < n ==>
      !script[i].stopped && script[i].waited && script[i].token != Ok(token) && !Judge(script[i].reply).Registered?
  }

  /** A new token that the platform accepts always ends the wait, whatever was rejected
      or failed before it. */
  lemma {:induction false} FreshTokenRegisters(script: seq<Round>, rejected: string, token: string, identity: Identity, n: nat)
    requires n < |script| && NothingYet(script, token, n)
    requires !script[n].stopped && script[n].token == Ok(token) && token != "" && token != rejected
    requires Judge(script[n].reply) == Registered(identity) && SavedEventually(script[n].saves)
    ensures Polling(script, rejected).outcome == Returned(identity)
    decreases n
  {
    var r := script[0];
    if n == 0 {
      var m :| 0 <= m < |r.saves| && r.saves[m].ok && SaveRetried(r.saves, m);
      SavingSucceeds(identity, r.saves, m);
    } else {
      var verdict := Judge(r.reply);
      var spent := r.token.Ok? && r.token.value != "" && r.token.value != rejected && !verdict.Transient?;
      var next := if spent then r.token.value else rejected;
      assert script[1..][n - 1] == script[n];
      assert NothingYet(script[1..], token, n - 1);
      FreshTokenRegisters(script[1..], next, token, identity, n - 1);
    }
  }

  // Exactly when a token is submitted.

  /** The token a history rejected last, or `default` if it rejected none. */
  function LastRejected(events: seq<Event>, default: string): string {
    if events == [] then default
    else
      var last := events[|events| - 1];
      if Rejects(last) then last.token else LastRejected(events[..|events| - 1], default)
  }

  /** The round offers a token, and not the one remembered. */
  predicate Offers(r: Round, rejected: string) {
    r.token.Ok? && r.token.value != "" && r.token.value != rejected
  }

  function SubmittedIn(r: Round, rejected: string): seq<Event> {
    if Offers(r, rejected) then [Submitted(r.token.value, Judge(r.reply))] else []
  }

  function Remembered(r: Round, rejected: string): string {
    LastRejected(SubmittedIn(r, rejected), rejected)
  }

  /** The wait goes on after this round. */
  predicate GoesOn(r: Round, rejected: string) {
    var verdict := Judge(r.reply);
    && !r.stopped
    && (Offers(r, rejected) ==> !verdict.Registered?)
    && (r.waited || (Offers(r, rejected) && verdict.Incomplete?))
  }

  /** The wait goes through all these rounds and on. */
  predicate KeepsPolling(p: seq<Round>, rejected: string) {
    p == [] || (GoesOn(p[0], rejected) && KeepsPolling(p[1..], Remembered(p[0], rejected)))
  }

  lemma OneRound(script: seq<Round>, rejected: string)
    requires script != [] && GoesOn(script[0], rejected)
    ensures Polling(script, rejected)
      == Then(SubmittedIn(script[0], rejected), Polling(script[1..], Remembered(script[0], rejected)))
  {
    assert LastRejected([], rejected) == rejected;
    var rest := Polling(script[1..], Remembered(script[0], rejected));
    assert [] + rest.events == rest.events;
    if Offers(script[0], rejected) {
      var e := Submitted(script[0].token.value, Judge(script[0].reply));
      assert [e][..0] == [];
      assert Remembered(script[0], rejected) == if Rejects(e) then e.token else rejected;
    }
  }

  lemma {:induction false} LastRejectedAppend(a: seq<Event>, b: seq<Event>, default: string)
    ensures LastRejected(a + b, default) == LastRejected(b, LastRejected(a, default))
    decreases |b|
  {
    if b == [] {
      assert a + b == a;
    } else {
      assert (a + b)[..|a + b| - 1] == a + b[..|b| - 1];
      LastRejectedAppend(a, b[..|b| - 1], default);
    }
  }

  /** A script splits wherever the wait goes on: all the rest depends on is the token
      rejected last. */
  lemma {:induction false} PollingSplits(p: seq<Round>, q: seq<Round>, rejected: string)
    requires KeepsPolling(p, rejected)
    ensures var before := Polling(p, rejected).events;
      Polling(p + q, rejected) == Then(before, Polling(q, LastRejected(before, rejected)))
    decreases |p|
  {
    if p == [] {
      assert p + q == q && [] + Polling(q, rejected).events == Polling(q, rejected).events;
    } else {
      var first, next := SubmittedIn(p[0], rejected), Remembered(p[0], rejected);
      assert (p + q)[0] == p[0] && (p + q)[1..] == p[1..] + q;
      OneRound(p, rejected);
      OneRound(p + q, rejected);
      PollingSplits(p[1..], q, next);
      var rest := Polling(p[1..], next).events;
      LastRejectedAppend(first, rest, rejected);
      ThenThen(first, rest, Polling(q, LastRejected(rest, next)));
    }
  }

  /** The history up to the end of round `n`. */
  function Until(script: seq<Round>, n: nat): seq<Event>
    requires n <= |script|
  {
    Polling(script[..n], "").events
  }

  /** A round that is reached submits its token exactly when it has one that is not the
      token rejected last, and nobody has stopped the wait. */
  lemma SubmittedExactly(script: seq<Round>, n: nat)
    requires n < |script| && KeepsPolling(script[..n], "")
    ensures var r, before := script[n], Until(script, n);
      && before <= Until(script, n + 1) <= Polling(script, "").events
      && (Until(script, n + 1) != before <==> !r.stopped && Offers(r, LastRejected(before, "")))
      && (Until(script, n + 1) != before ==> Until(script, n + 1)[|before|] == Submitted(r.token.value, Judge(r.reply)))
  {
    SplitsAt(script, n);
    HeadFirst(script[n..], LastRejected(Until(script, n), ""));
  }

  lemma SplitsAt(script: seq<Round>, n: nat)
    requires n < |script| && KeepsPolling(script[..n], "")
    ensures var before := Until(script, n);
      && Until(script, n + 1) == before + Polling([script[n]], LastRejected(before, "")).events
      && Polling(script, "").events == before + Polling(script[n..], LastRejected(before, "")).events
  {
    PollingSplits(script[..n], [script[n]], "");
    PollingSplits(script[..n], script[n..], "");
    assert script[..n] + [script[n]] == script[..n + 1] && script[..n] + script[n..] == script;
  }

  lemma HeadFirst(q: seq<Round>, rejected: string)
    requires q != []
    ensures Polling([q[0]], rejected).events <= Polling(q, rejected).events
    ensures Polling([q[0]], rejected).events != [] <==> !q[0].stopped && Offers(q[0], rejected)
    ensures Polling([q[0]], rejected).events != [] ==>
      Polling([q[0]], rejected).events[0] == Submitted(q[0].token.value, Judge(q[0].reply))
  {
    assert [q[0]][1..] == [];
  }

  /** So a token that was rejected is spent again, whenever it is on offer, exactly when
      some other rejection has followed its own last one. */
  lemma ResubmittedExactly(script: seq<Round>, n: nat, i: nat)
    requires n < |script| && KeepsPolling(script[..n], "") && !script[n].stopped
    requires var before := Until(script, n);
      && i < |before| && Rejects(before[i]) && script[n].token == Ok(before[i].token)
      && forall j :: i < j < |before| && Rejects(before[j]) ==> before[j].token != before[i].token
    ensures Until(script, n + 1) != Until(script, n) <==>
      exists j :: i < j < |Until(script, n)| && Rejects(Until(script, n)[j])
  {
    TraceSound(script[..n], "");
    SubmittedExactly(script, n);
    LastOfThem(Until(script, n), i, "");
  }

  lemma {:induction false} LastOfThem(events: seq<Event>, i: nat, default: string)
    requires i < |events| && Rejects(events[i])
    requires forall j :: i < j < |events| && Rejects(events[j]) ==> events[j].token != events[i].token
    ensures LastRejected(events, default) != events[i].token <==> exists j :: i < j < |events| && Rejects(events[j])
    decreases |events|
  {
    var n := |events| - 1;
    if i < n && !Rejects(events[n]) {
      var init := events[..n];
      LastOfThem(init, i, default);
      assert forall j :: i < j < n ==> init[j] == events[j];
    }
  }

  /** A token that got a plain failure (no answer, a 5xx, a 429, a body without a token) is
      not remembered: the next round submits it again, if it is still on offer. */
  lemma RetriedAfterFailure(script: seq<Round>, n: nat)
    requires n + 1 < |script| && KeepsPolling(script[..n + 1], "")
    requires Until(script, n + 1) != Until(script, n) && script[n + 1].token == script[n].token && !script[n + 1].stopped
    requires match script[n].reply
      case NoReply => true
      case BadBody => true
      case Status(code) => !(400 <= code <= 499) || code == 429
      case Accepted(_, _, agentToken, _) => agentToken == ""
    ensures Until(script, n + 2) != Until(script, n + 1)
  {
    KeepsPollingPrefix(script[..n + 1], n, "");
    assert script[..n + 1][..n] == script[..n];
    SubmittedExactly(script, n);
    SplitsAt(script, n);
    var last := LastRejected(Until(script, n), "");
    var r := script[n];
    assert Judge(r.reply).Transient?;
    assert Polling([r], last).events == [Submitted(r.token.value, Transient)] by {
      assert [r][1..] == [];
    }
    var before, after := Until(script, n), Until(script, n + 1);
    assert after == before + [Submitted(r.token.value, Transient)] && after[..|after| - 1] == before;
    SubmittedExactly(script, n + 1);
  }

  lemma {:induction false} KeepsPollingPrefix(p: seq<Round>, n: nat, rejected: string)
    requires n <= |p| && KeepsPolling(p, rejected)
    ensures KeepsPolling(p[..n], rejected)
    decreases |p|
  {
    if n > 0 {
      KeepsPollingPrefix(p[1..], n - 1, Remembered(p[0], rejected));
      assert p[..n][0] == p[0] && p[..n][1..] == p[1..][..n - 1];
    }
  }

  /** The round stops the wait: it is cancelled at the top of the loop, or while waiting
      for the next round. */
  predicate Halts(r: Round, rejected: string) {
    r.stopped || (!r.waited && !(Offers(r, rejected) && (Judge(r.reply).Registered? || Judge(r.reply).Incomplete?)))
  }

  lemma HaltsNow(script: seq<Round>, rejected: string)
    requires script != [] && Halts(script[0], rejected)
    ensures Polling(script, rejected).outcome == Stopped
    ensures Polling(script, rejected).events == if script[0].stopped then [] else SubmittedIn(script[0], rejected)
  {
  }

  /** A wait that is stopped in a round it has reached ends there; nothing more is
      submitted or saved. */
  lemma StopEndsIt(script: seq<Round>, n: nat)
    requires n < |script| && KeepsPolling(script[..n], "")
    requires Halts(script[n], LastRejected(Until(script, n), ""))
    ensures Polling(script, "").events == Until(script, n + 1) && Polling(script, "").outcome == Stopped
  {
    var last := LastRejected(Until(script, n), "");
    SplitsAt(script, n);
    HaltsNow(script[n..], last);
    HaltsNow([script[n]], last);
    OutcomeOfRest(script, n);
  }

  lemma OutcomeOfRest(script: seq<Round>, n: nat)
    requires n < |script| && KeepsPolling(script[..n], "")
    ensures Polling(script, "").outcome == Polling(script[n..], LastRejected(Until(script, n), "")).outcome
  {
    PollingSplits(script[..n], script[n..], "");
    assert script[..n] + script[n..] == script;
  }

  /** Saving ends with the first attempt that works, or with the first wait after a failed
      one that is cancelled. */
  lemma {:induction false} SavingEnds(identity: Identity, saves: seq<Save>)
    ensures Saving(identity, saves).outcome == Returned(identity) <==>
      exists m :: 0 <= m < |saves| && saves[m].ok && SaveRetried(saves, m)
    ensures Saving(identity, saves).outcome == Stopped <==>
      exists m :: 0 <= m < |saves| && !saves[m].ok && !saves[m].waited && SaveRetried(saves, m)
  {
    if saves != [] {
      assert SaveRetried(saves, 0);
      if !saves[0].ok && saves[0].waited {
        SavingEnds(identity, saves[1..]);
        forall m | 1 <= m < |saves| ensures SaveRetried(saves, m) <==> SaveRetried(saves[1..], m - 1) {
          assert forall i :: 1 <= i < m ==> saves[i] == saves[1..][i - 1];
          assert forall i :: 0 <= i < m - 1 ==> saves[1..][i] == saves[i + 1];
        }
        if m :| 0 <= m < |saves| - 1 && saves[1..][m].ok && SaveRetried(saves[1..], m) {
          assert saves[m + 1].ok && SaveRetried(saves, m + 1);
        }
        if m :| 0 <= m < |saves| - 1 && !saves[1..][m].ok && !saves[1..][m].waited && SaveRetried(saves[1..], m) {
          assert !saves[m + 1].ok && SaveRetried(saves, m + 1);
        }
      }
    }
  }

  /** An instance: only one rejected token is remembered, so a second rejection makes the
      agent spend the first one again. */
  lemma SecondRejectionForgetsFirst(a: string, b: string)
    requires a != "" && b != "" && a != b
    ensures var used := Status(401);
      Polling([Round(false, Ok(a), used, [], true), Round(false, Ok(b), used, [], true), Round(false, Ok(a), used, [], true)], "").events
        == [Submitted(a, Permanent), Submitted(b, Permanent), Submitted(a, Permanent)]
  {
    var x, y := Round(false, Ok(a), Status(401), [], true), Round(false, Ok(b), Status(401), [], true);
    assert [x, y, x][1..] == [y, x] && [y, x][1..] == [x] && [x][1..] == [];
    assert Polling([x], b).events == [Submitted(a, Permanent)];
    assert Polling([y, x], a).events == [Submitted(b, Permanent), Submitted(a, Permanent)];
  }
}
