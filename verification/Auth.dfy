/** Identities, the credentials Secret, and what a registration attempt comes to. */
module Auth {
  import opened Wrappers

  datatype Identity = Identity(agentId: string, clusterId: string, token: string, gatewayUrl: string) {
    /** The code's `Valid`: a token is enough. */
    predicate Valid() {
      token != ""
    }

    predicate Complete() {
      agentId != "" && token != ""
    }
  }

  const NO_IDENTITY := Identity("", "", "", "")

  /** The Secret as the API server returns it. */
  datatype Secret = SecretMissing | Unreadable | Data(agentId: string, token: string)

  /** `KubernetesCredentialStore.Load`: an empty Secret is the bootstrap state, a half
      filled one is an error. */
  function Load(s: Secret): Result<Identity, ()> {
    match s
    case SecretMissing => Err(())
    case Unreadable => Err(())
    case Data(agentId, token) =>
      if agentId == "" && token == "" then Ok(NO_IDENTITY)
      else if agentId == "" || token == "" then Err(())
      else Ok(Identity(agentId, "", token, ""))
  }

  /** The platform's answer to one POST. */
  datatype Reply =
    | NoReply
    | Status(code: int)
    | Accepted(agentId: string, clusterId: string, agentToken: string, gatewayUrl: string)
    | BadBody

  /** `Registrar.Register` and `IsPermanentRegistrationError` together. A reply without a
      token is a plain error, hence retryable. */
  datatype Verdict = Registered(identity: Identity) | Incomplete | Permanent | Transient

  predicate PermanentStatus(code: int) {
    400 <= code < 500 && code != 429
  }

  function Judge(r: Reply): Verdict {
    match r
    case NoReply => Transient
    case BadBody => Transient
    case Status(code) => if PermanentStatus(code) then Permanent else Transient
    case Accepted(agentId, clusterId, agentToken, gatewayUrl) =>
      if agentToken == "" then Transient
      else if agentId == "" then Incomplete
      else Registered(Identity(agentId, clusterId, agentToken, gatewayUrl))
  }

  /** What `App.identity` meets at start-up; `Bootstrap` loads the Secret a second time. */
  datatype Startup = Startup(
    first: Secret, writeEnabled: bool, registrationToken: Result<string, ()>,
    second: Secret, reply: Reply, saved: bool)

  /** `App.identity` and `Bootstrap`. */
  function Start(b: Startup): Result<Identity, ()> {
    match Load(b.first)
    case Err(e) => Err(e)
    case Ok(found) =>
      if found.Valid() then Ok(found)
      else if !b.writeEnabled || b.registrationToken.Err? then Err(())
      else
        match Load(b.second)
        case Err(e) => Err(e)
        case Ok(again) =>
          if again.Valid() then Ok(again)
          else if b.registrationToken.value == "" then Err(())
          else
            match Judge(b.reply)
            case Registered(identity) => if b.saved then Ok(identity) else Err(())
            case _ => Err(())
  }

  /** `Valid` asks for less than completeness, but no incomplete identity gets this far. */
  lemma StartIsComplete(b: Startup)
    ensures Start(b).Ok? ==> Start(b).value.Complete()
  {
  }

  /** The answer of a registration that went through. */
  predicate Grants(r: Reply) {
    r.Accepted? && r.agentId != "" && r.agentToken != ""
  }

  const EMPTY := Data("", "")

  predicate Filled(s: Secret) {
    s.Data? && s.agentId != "" && s.token != ""
  }

  /** Stored credentials are used, whatever else the start-up holds. */
  lemma StoredCredentialsWin(b: Startup)
    requires Filled(b.first)
    ensures Start(b) == Ok(Identity(b.first.agentId, "", b.first.token, ""))
  {
  }

  /** A start that finds nothing stored may register, when it may write and has a token;
      if somebody else has filled the Secret meanwhile, that is used instead. Every other
      start is an error. */
  lemma StartExactly(b: Startup)
    ensures Start(b).Ok? <==>
      || Filled(b.first)
      || (b.first == EMPTY && b.writeEnabled && b.registrationToken.Ok?
          && (Filled(b.second)
              || (b.second == EMPTY && b.registrationToken.value != "" && Grants(b.reply) && b.saved)))
    ensures Start(b).Ok? && !Filled(b.first) ==>
      Start(b).value ==
        if Filled(b.second) then Identity(b.second.agentId, "", b.second.token, "")
        else Identity(b.reply.agentId, b.reply.clusterId, b.reply.agentToken, b.reply.gatewayUrl)
  {
  }

  /** The platform has the last word on a token exactly with a 4xx other than 429. */
  lemma JudgedExactly(r: Reply)
    ensures Judge(r).Permanent? <==> r.Status? && 400 <= r.code <= 499 && r.code != 429
    ensures Judge(r).Incomplete? <==> r.Accepted? && r.agentToken != "" && r.agentId == ""
    ensures Judge(r).Registered? <==> Grants(r)
    ensures Grants(r) ==> Judge(r).identity == Identity(r.agentId, r.clusterId, r.agentToken, r.gatewayUrl)
  {
  }
}
