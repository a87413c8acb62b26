/** The gateway protocol: commands, the workspace policy they carry, responses. */
module Api {
  import opened Wrappers

  /** A JSON field: its value (the zero value when missing), or one of the wrong type. */
  datatype Field<+T> = Value(v: T) | Mistyped

  /** `params` as the decoders see it. */
  datatype Payload =
    | Absent
    | Malformed
    | Fields(namespace: Field<string>, pod: Field<string>, container: Field<string>,
             tailLines: Field<int>, deployment: Field<string>)

  /** `namespace_mode`; anything but the two known words is invalid. */
  datatype Mode = Selected | All | OtherMode

  datatype AccessPolicy = AccessPolicy(
    namespaceMode: Mode, namespaces: seq<string>, podLogsEnabled: bool, version: int)

  /** The ten action names the agent knows, and every other string. */
  datatype Action =
    | DiscoverNamespaces | ListNamespaces | ListPods | GetPod | GetPodLogs | ListEvents
    | ListDeployments | ListServices | GetRolloutStatus | DescribePod
    | Unknown(name: string)

  datatype Kind = CommandMessage | OtherMessage

  datatype Command = Command(
    id: string, kind: Kind, action: Action, params: Payload, accessPolicy: Option<AccessPolicy>)

  datatype Code =
    | InvalidCommand | UnsupportedAction | InvalidParams | NamespaceDenied | RbacDenied
    | NotFound | Timeout | Internal | DuplicateCommand | PolicyDenied

  datatype Response<+D> = Success(id: string, data: D) | Failure(id: string, code: Code)

  datatype PolicyRefusal =
    | NoActivePolicy | InvalidPolicy | PodLogsDisabled
    | InvalidNamespace | NamespaceRequired | NamespaceNotAllowed

  /** The namespace as the policy check decodes it: it looks at no other field, and
      unlike the router it does not accept missing params. */
  function PolicyNamespace(params: Payload): Option<string> {
    if params.Fields? && params.namespace.Value? then Some(params.namespace.v) else None
  }

  /** `policyAllowsCommand`. */
  function CheckPolicy(cmd: Command): Option<PolicyRefusal> {
    if cmd.action.DiscoverNamespaces? then None
    else if cmd.accessPolicy == None || cmd.accessPolicy.value.version < 1 then Some(NoActivePolicy)
    else
      var policy := cmd.accessPolicy.value;
      if policy.namespaceMode.OtherMode? then Some(InvalidPolicy)
      else if cmd.action.GetPodLogs? && !policy.podLogsEnabled then Some(PodLogsDisabled)
      else if policy.namespaceMode.All? || cmd.action.ListNamespaces? then None
      else
        match PolicyNamespace(cmd.params)
        case None => Some(InvalidNamespace)
        case Some(ns) =>
          if ns == "" then Some(NamespaceRequired)
          else if ns in policy.namespaces then None
          else Some(NamespaceNotAllowed)
  }

  predicate PolicyAllows(cmd: Command) {
    CheckPolicy(cmd) == None
  }

  datatype Limits = Limits(defaultTailLines: int, maxTailLines: int, maxLogBytes: int) {
    function TailLines(requested: int): int {
      if requested <= 0 then defaultTailLines
      else if requested > maxTailLines then maxTailLines
      else requested
    }

    /** What `Config.Validate` establishes. */
    predicate Validated() {
      0 < defaultTailLines <= maxTailLines && 0 < maxLogBytes
    }
  }
}
