/** `App.Run`: one gateway client after another, each with the credentials that replaced
    the revoked ones. */
module App {
  import opened Wrappers
  import opened Auth
  import opened GatewayClient

  /** One pass of the wait for rotated credentials. */
  datatype Poll = Poll(stopped: bool, secret: Secret, waited: bool)

  datatype Rotation = StillPolling | GaveUp | Found(identity: Identity)

  /** `waitForUpdatedCredentials`. */
  function AwaitRotation(polls: seq<Poll>, previous: string): Rotation {
    if polls == [] then StillPolling
    else if polls[0].stopped then GaveUp
    else
      match Usable(polls[0].secret, previous)
      case Some(identity) => Found(identity)
      case None => if polls[0].waited then AwaitRotation(polls[1..], previous) else GaveUp
  }

  function Usable(secret: Secret, previous: string): Option<Identity> {
    match Load(secret)
    case Err(_) => None
    case Ok(identity) => if identity.Valid() && identity.token != previous then Some(identity) else None
  }

  method WaitForUpdatedCredentials(polls: seq<Poll>, previous: string) returns (r: Rotation)
    ensures r == AwaitRotation(polls, previous)
  {
    for i := 0 to |polls|
      invariant AwaitRotation(polls, previous) == AwaitRotation(polls[i..], previous)
    {
      assert polls[i..][0] == polls[i] && polls[i..][1..] == polls[i + 1..];
      if polls[i].stopped {
        return GaveUp;
      }
      var loaded := Load(polls[i].secret);
      if loaded.Ok? && loaded.value.Valid() && loaded.value.token != previous {
        return Found(loaded.value);
      }
      if !polls[i].waited {
        return GaveUp;
      }
    }
    return StillPolling;
  }

  /** A Secret worth adopting: complete, and not the token the gateway has just refused. */
  predicate Adoptable(secret: Secret, previous: string) {
    secret.Data? && secret.agentId != "" && secret.token != "" && secret.token != previous
  }

  /** The wait goes on past this poll. */
  predicate GoesOn(p: Poll, previous: string) {
    !p.stopped && !Adoptable(p.secret, previous) && p.waited
  }

  /** Poll `n` is the first that finds usable credentials, and nobody stopped the wait. */
  ghost predicate EndsAt(polls: seq<Poll>, previous: string, n: nat)
    requires n < |polls|
  {
    !polls[n].stopped && Adoptable(polls[n].secret, previous) && forall i :: 0 <= i < n ==> GoesOn(polls[i], previous)
  }

  /** Poll `n` is where the wait is cancelled. */
  ghost predicate CancelledAt(polls: seq<Poll>, previous: string, n: nat)
    requires n < |polls|
  {
    && (polls[n].stopped || (!Adoptable(polls[n].secret, previous) && !polls[n].waited))
    && forall i :: 0 <= i < n ==> GoesOn(polls[i], previous)
  }

  /** The wait ends with the first Secret that holds complete credentials under another
      token, unless it is cancelled before; half-filled and unreadable Secrets, and the
      revoked token itself, only prolong it. */
  lemma {:induction false} RotationFound(polls: seq<Poll>, previous: string)
    ensures AwaitRotation(polls, previous).Found? <==>
      exists n :: 0 <= n < |polls| && EndsAt(polls, previous, n)
    ensures AwaitRotation(polls, previous).GaveUp? <==>
      exists n :: 0 <= n < |polls| && CancelledAt(polls, previous, n)
    ensures forall n :: 0 <= n < |polls| && EndsAt(polls, previous, n) ==>
      AwaitRotation(polls, previous) == Found(Identity(polls[n].secret.agentId, "", polls[n].secret.token, ""))
  {
    if polls != [] {
      RotationFound(polls[1..], previous);
      if GoesOn(polls[0], previous) {
        forall n | 1 <= n < |polls|
          ensures EndsAt(polls, previous, n) <==> EndsAt(polls[1..], previous, n - 1)
          ensures CancelledAt(polls, previous, n) <==> CancelledAt(polls[1..], previous, n - 1)
        {
          assert forall i :: 1 <= i < n ==> polls[i] == polls[1..][i - 1];
          assert forall i :: 0 <= i < n - 1 ==> polls[1..][i] == polls[i + 1];
        }
        if n :| 0 <= n < |polls| - 1 && EndsAt(polls[1..], previous, n) {
          assert EndsAt(polls, previous, n + 1);
        }
        if n :| 0 <= n < |polls| - 1 && CancelledAt(polls[1..], previous, n) {
          assert CancelledAt(polls, previous, n + 1);
        }
      } else if polls[0].stopped || !Adoptable(polls[0].secret, previous) {
        assert CancelledAt(polls, previous, 0);
      } else {
        assert EndsAt(polls, previous, 0);
      }
    }
  }

  /** What one client meets, and what is polled should it be revoked. */
  datatype Tenure = Tenure(rounds: seq<Round>, polls: seq<Poll>)

  datatype Client = Client(identity: Identity, summary: Summary)

  datatype Ending = StillServing | StillWaiting | ShutDown

  datatype History = History(clients: seq<Client>, ending: Ending)

  function Serve(identity: Identity, script: seq<Tenure>): History
    decreases |script|
  {
    if script == [] then History([], StillServing)
    else
      var summary := Run(script[0].rounds, 0);
      var client := [Client(identity, summary)];
      match summary.outcome
      case Running => History(client, StillServing)
      case Stopped => History(client, ShutDown)
      case Revoked =>
        match AwaitRotation(script[0].polls, identity.token)
        case StillPolling => History(client, StillWaiting)
        case GaveUp => History(client, ShutDown)
        case Found(next) => Prepend(client, Serve(next, script[1..]))
  }

  method RunApp(startup: Startup, script: seq<Tenure>) returns (h: Result<History, ()>)
    ensures h.Ok? <==> Start(startup).Ok?
    ensures h.Ok? ==> h.value == Serve(Start(startup).value, script)
  {
    var started := Start(startup);
    if started.Err? {
      return Err(());
    }
    var history := ServeClients(started.value, script);
    return Ok(history);
  }

  /** The loop of `App.Run`. */
  method ServeClients(first: Identity, script: seq<Tenure>) returns (h: History)
    ensures h == Serve(first, script)
  {
    var identity := first;
    var clients: seq<Client> := [];
    for i := 0 to |script|
      invariant Serve(first, script) == Prepend(clients, Serve(identity, script[i..]))
    {
      assert script[i..][0] == script[i] && script[i..][1..] == script[i + 1..];
      var summary := RunClient(script[i].rounds);
      ghost var before := clients;
      clients := clients + [Client(identity, summary)];
      if summary.outcome != Revoked {
        return History(clients, if summary.outcome == Running then StillServing else ShutDown);
      }
      var rotation := WaitForUpdatedCredentials(script[i].polls, identity.token);
      match rotation {
        case StillPolling => return History(clients, StillWaiting);
        case GaveUp => return History(clients, ShutDown);
        case Found(next) =>
          assert Serve(identity, script[i..]) == Prepend([Client(identity, summary)], Serve(next, script[i + 1..]));
          PrependTwice(before, [Client(identity, summary)], Serve(next, script[i + 1..]));
          identity := next;
      }
    }
    assert script[|script|..] == [] && clients + [] == clients;
    return History(clients, StillServing);
  }

  function Prepend(clients: seq<Client>, rest: History): History {
    History(clients + rest.clients, rest.ending)
  }

  lemma PrependTwice(a: seq<Client>, b: seq<Client>, rest: History)
    ensures Prepend(a, Prepend(b, rest)) == Prepend(a + b, rest)
  {
    assert a + (b + rest.clients) == a + b + rest.clients;
  }

  /** Client `i` was revoked and its successor has another token. */
  ghost predicate HandsOver(clients: seq<Client>, i: nat)
    requires i + 1 < |clients|
  {
    clients[i].summary.outcome == Revoked && clients[i + 1].identity.token != clients[i].identity.token
  }

  ghost predicate Rotates(clients: seq<Client>) {
    && (forall i :: 0 <= i < |clients| ==> clients[i].identity.Complete())
    && (forall i :: 0 <= i < |clients| - 1 ==> HandsOver(clients, i))
  }

  /** The clients rotate, start with `identity`, and each met its part of the script. */
  ghost predicate RotatesFrom(identity: Identity, clients: seq<Client>, script: seq<Tenure>) {
    && Rotates(clients)
    && (clients != [] ==> clients[0].identity == identity)
    && |clients| <= |script|
    && (forall i :: 0 <= i < |clients| ==> clients[i].summary == Run(script[i].rounds, 0))
    && (script != [] ==> clients != [])
    && (forall i :: 0 <= i < |clients| && i + 1 < |script| ==> GoesOnExactly(clients, script, i))
  }

  /** There is a next client exactly when this one was revoked and its wait found new
      credentials, and then it is the one with those credentials. */
  ghost predicate GoesOnExactly(clients: seq<Client>, script: seq<Tenure>, i: nat)
    requires i < |clients| && i < |script|
  {
    var rotation := AwaitRotation(script[i].polls, clients[i].identity.token);
    && (i + 1 < |clients| <==> clients[i].summary.outcome == Revoked && rotation.Found?)
    && (i + 1 < |clients| ==> clients[i + 1].identity == rotation.identity)
  }

  lemma Succeeds(identity: Identity, next: Identity, rest: seq<Client>, script: seq<Tenure>)
    requires script != [] && identity.Complete() && next.token != identity.token
    requires AwaitRotation(script[0].polls, identity.token) == Found(next)
    requires Run(script[0].rounds, 0).outcome == Revoked && RotatesFrom(next, rest, script[1..])
    ensures RotatesFrom(identity, [Client(identity, Run(script[0].rounds, 0))] + rest, script)
  {
    var clients := [Client(identity, Run(script[0].rounds, 0))] + rest;
    forall i | 0 <= i < |clients| - 1 ensures HandsOver(clients, i) {
      if i > 0 {
        assert HandsOver(rest, i - 1);
      }
    }
    forall i | 0 <= i < |clients| ensures clients[i].summary == Run(script[i].rounds, 0) {
      if i > 0 {
        assert clients[i] == rest[i - 1] && script[i] == script[1..][i - 1];
      }
    }
    forall i | 0 <= i < |clients| && i + 1 < |script| ensures GoesOnExactly(clients, script, i) {
      if i > 0 {
        assert clients[i] == rest[i - 1] && script[i] == script[1..][i - 1];
        assert GoesOnExactly(rest, script[1..], i - 1);
      }
    }
  }

  lemma {:induction false} ServeRotates(identity: Identity, script: seq<Tenure>)
    requires identity.Complete()
    ensures RotatesFrom(identity, Serve(identity, script).clients, script)
    decreases |script|
  {
    if script != [] && Run(script[0].rounds, 0).outcome == Revoked {
      var rotation := AwaitRotation(script[0].polls, identity.token);
      if rotation.Found? {
        RotationFound(script[0].polls, identity.token);
        ServeRotates(rotation.identity, script[1..]);
        Succeeds(identity, rotation.identity, Serve(rotation.identity, script[1..]).clients, script);
      }
    }
  }

  /** In any run of the app: every client carries complete credentials, no two
      consecutive ones the same token, and each replaced client had met a 401/403
      handshake or a 1008 close (section 7.4.1 of RFC 6455) in its last round. */
  lemma RotationTrace(startup: Startup, script: seq<Tenure>)
    requires Start(startup).Ok?
    ensures var clients := Serve(Start(startup).value, script).clients;
      && RotatesFrom(Start(startup).value, clients, script)
      && forall i :: 0 <= i < |clients| - 1 ==> EndedRevoked(script[i].rounds, clients[i].summary)
  {
    StartIsComplete(startup);
    ServeRotates(Start(startup).value, script);
    var clients := Serve(Start(startup).value, script).clients;
    forall i | 0 <= i < |clients| - 1 ensures EndedRevoked(script[i].rounds, clients[i].summary) {
      assert HandsOver(clients, i);
      RunEnds(script[i].rounds, 0);
    }
  }

  /** And how the run stands at the end: shut down exactly when the last client was
      stopped or its wait cancelled, waiting exactly when that wait has found nothing yet. */
  lemma {:induction false} EndingExactly(identity: Identity, script: seq<Tenure>)
    requires script != []
    ensures var h := Serve(identity, script);
      && h.clients != []
      && var n := |h.clients| - 1;
         var last := h.clients[n];
         n < |script| &&
         var rotation := AwaitRotation(script[n].polls, last.identity.token);
         && (h.ending.ShutDown? <==>
              (last.summary.outcome == Stopped || (last.summary.outcome == Revoked && rotation.GaveUp?)))
         && (h.ending.StillWaiting? <==> (last.summary.outcome == Revoked && rotation.StillPolling?))
    decreases |script|
  {
    var rotation := AwaitRotation(script[0].polls, identity.token);
    if Run(script[0].rounds, 0).outcome == Revoked && rotation.Found? && |script| > 1 {
      EndingExactly(rotation.identity, script[1..]);
      var rest := Serve(rotation.identity, script[1..]);
      var h := Serve(identity, script);
      assert h.clients[|h.clients| - 1] == rest.clients[|rest.clients| - 1];
      assert script[|h.clients| - 1] == script[1..][|rest.clients| - 1];
    } else {
      assert |script| == 1 ==> script[1..] == [];
      assert forall next :: Serve(next, []).clients == [];
    }
  }

  ghost predicate EndedRevoked(rounds: seq<Round>, s: Summary) {
    s.waits < |rounds| && Revokes(rounds[s.waits])
  }

  /** Only the token just revoked is avoided. A client is followed by one with the token
      of any earlier client exactly when it was revoked and the first usable Secret of its
      wait carries that token. */
  lemma EarlierTokenReturns(startup: Startup, script: seq<Tenure>, n: nat, earlier: nat)
    requires Start(startup).Ok?
    requires var clients := Serve(Start(startup).value, script).clients;
      earlier <= n < |clients| && n + 1 < |script|
    ensures var clients := Serve(Start(startup).value, script).clients;
      (n + 1 < |clients| && clients[n + 1].identity.token == clients[earlier].identity.token) <==>
        && clients[n].summary.outcome == Revoked
        && exists k :: 0 <= k < |script[n].polls| && EndsAt(script[n].polls, clients[n].identity.token, k)
             && script[n].polls[k].secret.token == clients[earlier].identity.token
  {
    RotationTrace(startup, script);
    var clients := Serve(Start(startup).value, script).clients;
    assert GoesOnExactly(clients, script, n);
    RotationFound(script[n].polls, clients[n].identity.token);
  }
}
