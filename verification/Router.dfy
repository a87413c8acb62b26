/** The command router: the gate in front of every Kubernetes call. */
module Router {
  import opened Wrappers
  import opened Api
  import opened Guard

  /** The actions that list one kind of object in one namespace or in all of them. */
  predicate IsListing(a: Action) {
    a.ListPods? || a.ListEvents? || a.ListDeployments? || a.ListServices?
  }

  datatype Call =
    | ClusterNamespaces
    | Namespaced(action: Action, namespace: string, name: string)
    | PodLogs(namespace: string, pod: string, container: string, tail: int, maxBytes: int)

  datatype Plan =
    | Refuse(code: Code)
    | Inventory
    | One(call: Call)
    | FanOut(action: Action)

  datatype Router = Router(guard: NamespaceGuard, limits: Limits)

  function Or<T>(f: Field<T>, zero: T): T {
    if f.Value? then f.v else zero
  }

  /** `decodeParams` for the fields an action's parameter struct has. */
  predicate ParamsDecode(cmd: Command) {
    match cmd.params
    case Absent => true
    case Malformed => false
    case Fields(namespace, pod, container, tailLines, deployment) =>
      && namespace.Value?
      && (cmd.action.GetPod? || cmd.action.GetPodLogs? || cmd.action.DescribePod? ==> pod.Value?)
      && (cmd.action.GetPodLogs? ==> container.Value? && tailLines.Value?)
      && (cmd.action.GetRolloutStatus? ==> deployment.Value?)
  }

  function NamespaceOf(p: Payload): string { if p.Fields? then Or(p.namespace, "") else "" }
  function PodOf(p: Payload): string { if p.Fields? then Or(p.pod, "") else "" }
  function ContainerOf(p: Payload): string { if p.Fields? then Or(p.container, "") else "" }
  function TailOf(p: Payload): int { if p.Fields? then Or(p.tailLines, 0) else 0 }
  function DeploymentOf(p: Payload): string { if p.Fields? then Or(p.deployment, "") else "" }

  /** `ValidateCommand`. */
  predicate ValidCommand(cmd: Command) {
    cmd.id != "" && cmd.kind.CommandMessage? && !cmd.action.Unknown?
  }

  /** What `Handle` and `dispatch` decide before anything is asked of Kubernetes. */
  function PlanFor(r: Router, cmd: Command): Plan {
    if !ValidCommand(cmd) then
      Refuse(if cmd.action.Unknown? then UnsupportedAction else InvalidCommand)
    else if cmd.action.DiscoverNamespaces? then One(ClusterNamespaces)
    else if cmd.action.ListNamespaces? then Inventory
    else if !ParamsDecode(cmd) then Refuse(InvalidParams)
    else
      var ns := NamespaceOf(cmd.params);
      if IsListing(cmd.action) then
        if !r.guard.Passes(ns) then Refuse(NamespaceDenied)
        else if ns == "" then FanOut(cmd.action)
        else One(Namespaced(cmd.action, ns, ""))
      else
        var name := if cmd.action.GetRolloutStatus? then DeploymentOf(cmd.params) else PodOf(cmd.params);
        if ns == "" || name == "" then Refuse(InvalidParams)
        else if !r.guard.Passes(ns) then Refuse(NamespaceDenied)
        else if cmd.action.GetPodLogs? then
          One(PodLogs(ns, name, ContainerOf(cmd.params), r.limits.TailLines(TailOf(cmd.params)), r.limits.maxLogBytes))
        else One(Namespaced(cmd.action, ns, name))
  }

  /** The Kubernetes calls a handled command can issue. */
  ghost predicate MayCall(r: Router, cmd: Command, call: Call) {
    match PlanFor(r, cmd)
    case Refuse(_) => false
    case Inventory => false
    case One(c) => call == c
    case FanOut(action) => call.Namespaced? && call.action == action && call.name == "" && call.namespace in r.guard.Visited()
  }

  datatype ApiError = Deadline | Missing | Forbidden | Unauthorized | Other

  /** `classifyError` on what a Kubernetes call returned. */
  function Classify(e: ApiError): Code {
    match e
    case Deadline => Timeout
    case Missing => NotFound
    case Forbidden => RbacDenied
    case Unauthorized => RbacDenied
    case Other => Internal
  }

  datatype Data<+D> = Names(names: seq<string>) | Payload(data: D)

  /** `Handle`, given what the planned calls came to. */
  ghost function Handle<D>(r: Router, cmd: Command, outcome: Result<D, ApiError>): Response<Data<D>> {
    match PlanFor(r, cmd)
    case Refuse(code) => Failure(cmd.id, code)
    case Inventory => Success(cmd.id, Names(r.guard.Visited()))
    case _ =>
      match outcome
      case Ok(d) => Success(cmd.id, Payload(d))
      case Err(e) => Failure(cmd.id, Classify(e))
  }

  // The confinement a workspace is promised, said without the two filters.

  ghost predicate PolicyCovers(cmd: Command, ns: string) {
    && cmd.accessPolicy.Some?
    && cmd.accessPolicy.value.version >= 1
    && (cmd.accessPolicy.value.namespaceMode.All?
        || (cmd.accessPolicy.value.namespaceMode.Selected? && ns in cmd.accessPolicy.value.namespaces))
  }

  ghost predicate Confined(r: Router, cmd: Command, call: Call) {
    match call
    case ClusterNamespaces => cmd.action.DiscoverNamespaces?
    case Namespaced(action, ns, _) =>
      && action == cmd.action && !action.GetPodLogs?
      && ns != "" && r.guard.Passes(ns) && PolicyCovers(cmd, ns)
    case PodLogs(ns, pod, _, tail, maxBytes) =>
      && cmd.action.GetPodLogs? && pod != ""
      && ns != "" && r.guard.Passes(ns) && PolicyCovers(cmd, ns)
      && cmd.accessPolicy.value.podLogsEnabled
      && 1 <= tail <= r.limits.maxTailLines && maxBytes == r.limits.maxLogBytes
  }

  /** The policy check and the guard compose: nothing a command lets through both can
      ask leaves the confinement. */
  lemma Confinement(r: Router, cmd: Command, call: Call)
    requires r.guard.WellFormed() && r.limits.Validated()
    requires PolicyAllows(cmd) && MayCall(r, cmd, call)
    ensures Confined(r, cmd, call)
  {
  }

  ghost predicate Asks(cmd: Command, action: Action, ns: string, name: string) {
    && cmd.id != "" && cmd.kind.CommandMessage? && cmd.action == action
    && cmd.params.Fields? && cmd.params.namespace == Value(ns)
    && (if IsListing(action) then name == ""
        else if action.GetRolloutStatus? then cmd.params.deployment == Value(name)
        else cmd.params.pod == Value(name))
  }

  /** And nothing inside it is refused: a well-formed request for one namespace reaches
      Kubernetes exactly when the promised confinement covers it. */
  lemma ReadServedIffConfined(r: Router, cmd: Command, action: Action, ns: string, name: string)
    requires !action.Unknown? && !action.DiscoverNamespaces? && !action.ListNamespaces? && !action.GetPodLogs?
    requires Asks(cmd, action, ns, name) && ns != "" && (!IsListing(action) ==> name != "")
    ensures PolicyAllows(cmd) && MayCall(r, cmd, Namespaced(action, ns, name))
      <==> Confined(r, cmd, Namespaced(action, ns, name))
    ensures forall call :: MayCall(r, cmd, call) ==> call == Namespaced(action, ns, name)
  {
  }

  /** The same for logs; and what is read is the pod and container asked for, with the
      tail asked for, the default where none was, and never more than the maximum. */
  lemma LogsServedIffConfined(r: Router, cmd: Command, ns: string, pod: string, container: string, tail: int)
    requires r.limits.Validated()
    requires Asks(cmd, GetPodLogs, ns, pod) && ns != "" && pod != ""
    requires cmd.params.container == Value(container) && cmd.params.tailLines == Value(tail)
    ensures PolicyAllows(cmd) && (exists call :: MayCall(r, cmd, call))
      <==> Confined(r, cmd, PodLogs(ns, pod, container, r.limits.TailLines(tail), r.limits.maxLogBytes))
    ensures forall call :: MayCall(r, cmd, call) ==>
      && call.PodLogs? && call.namespace == ns && call.pod == pod && call.container == container
      && call.maxBytes == r.limits.maxLogBytes
      && (tail <= 0 ==> call.tail == r.limits.defaultTailLines)
      && (0 < tail <= r.limits.maxTailLines ==> call.tail == tail)
      && (tail > r.limits.maxTailLines ==> call.tail == r.limits.maxTailLines)
  {
    var call := PodLogs(ns, pod, container, r.limits.TailLines(tail), r.limits.maxLogBytes);
    if r.guard.Passes(ns) {
      assert MayCall(r, cmd, call);
    }
  }

  ghost predicate IsListingOfAllowed(r: Router, action: Action, call: Call) {
    && call.Namespaced? && call.action == action && call.name == ""
    && call.namespace in r.guard.allowlist && r.guard.Passes(call.namespace)
  }

  /** A well-formed listing command that names no namespace, with or without params. */
  predicate ListsEverywhere(cmd: Command) {
    && cmd.id != "" && cmd.kind.CommandMessage? && IsListing(cmd.action)
    && ParamsDecode(cmd) && NamespaceOf(cmd.params) == ""
  }

  /** A listing without a namespace reads every allowed namespace and nothing else; a
      "selected" policy never lets one through, an "all" policy always does. */
  lemma FanOutCoverage(r: Router, cmd: Command)
    requires r.guard.WellFormed() && ListsEverywhere(cmd)
    ensures forall call :: (MayCall(r, cmd, call) <==> IsListingOfAllowed(r, cmd.action, call))
    ensures PolicyAllows(cmd) <==>
      cmd.accessPolicy.Some? && cmd.accessPolicy.value.version >= 1 && cmd.accessPolicy.value.namespaceMode.All?
  {
    assert PlanFor(r, cmd) == FanOut(cmd.action);
  }

  /** A command is answered "namespace denied" exactly when its namespace is the one thing
      wrong with it: the guard refuses it, and under a guard that lets everything pass the
      same command would have been planned. */
  lemma NamespaceDeniedExactly(r: Router, cmd: Command)
    ensures PlanFor(r, cmd) == Refuse(NamespaceDenied) <==>
      !r.guard.Passes(NamespaceOf(cmd.params)) && PlansPerNamespace(PlanFor(r.(guard := NamespaceGuard({}, {})), cmd))
  {
  }

  predicate PlansPerNamespace(p: Plan) {
    p.FanOut? || (p.One? && !p.call.ClusterNamespaces?)
  }

  /** The two actions about all namespaces. The inventory is the guard's own listing: it
      needs an active policy and asks nothing of Kubernetes. Discovery is there to set up
      the first policy: it needs none, and is the one call that names no namespace. */
  lemma ClusterReads<D>(r: Router, cmd: Command, outcome: Result<D, ApiError>)
    requires ValidCommand(cmd)
    ensures cmd.action.ListNamespaces? ==>
      && Handle(r, cmd, outcome) == Success(cmd.id, Names(r.guard.Visited()))
      && (forall call :: !MayCall(r, cmd, call))
      && (PolicyAllows(cmd) <==>
            (cmd.accessPolicy.Some? && cmd.accessPolicy.value.version >= 1 && !cmd.accessPolicy.value.namespaceMode.OtherMode?))
    ensures cmd.action.DiscoverNamespaces? ==>
      PolicyAllows(cmd) && forall call :: MayCall(r, cmd, call) <==> call == ClusterNamespaces
  {
  }

  /** An action on one object names it. */
  predicate NamesItsObject(cmd: Command) {
    NamespaceOf(cmd.params) != "" && (if cmd.action.GetRolloutStatus? then DeploymentOf(cmd.params) else PodOf(cmd.params)) != ""
  }

  /** Which of the other refusals a command gets, and exactly when. */
  lemma RefusalCodes(r: Router, cmd: Command)
    ensures PlanFor(r, cmd) == Refuse(UnsupportedAction) <==> cmd.action.Unknown?
    ensures PlanFor(r, cmd) == Refuse(InvalidCommand) <==>
      !cmd.action.Unknown? && (cmd.id == "" || cmd.kind.OtherMessage?)
    ensures PlanFor(r, cmd) == Refuse(InvalidParams) <==>
      && ValidCommand(cmd) && !cmd.action.DiscoverNamespaces? && !cmd.action.ListNamespaces?
      && (!ParamsDecode(cmd) || (!IsListing(cmd.action) && !NamesItsObject(cmd)))
  {
  }

  /** Every answer carries its own command's id, and a refusal is decided before
      Kubernetes is asked: it does not depend on any answer. */
  lemma HandleAnswers<D>(r: Router, cmd: Command, a: Result<D, ApiError>, b: Result<D, ApiError>)
    ensures Handle(r, cmd, a).id == cmd.id
    ensures (forall call :: !MayCall(r, cmd, call)) && !PlanFor(r, cmd).FanOut? ==> Handle(r, cmd, a) == Handle(r, cmd, b)
    ensures Handle(r, cmd, a).Failure? && Handle(r, cmd, a).code in { InvalidCommand, UnsupportedAction, InvalidParams, NamespaceDenied }
      <==> PlanFor(r, cmd).Refuse?
    ensures PlanFor(r, cmd).Refuse? ==> Handle(r, cmd, a) == Failure(cmd.id, PlanFor(r, cmd).code)
    ensures PlanFor(r, cmd).One? || PlanFor(r, cmd).FanOut? ==>
      match a
      case Ok(d) => Handle(r, cmd, a) == Success(cmd.id, Payload(d))
      case Err(Deadline) => Handle(r, cmd, a) == Failure(cmd.id, Timeout)
      case Err(Missing) => Handle(r, cmd, a) == Failure(cmd.id, NotFound)
      case Err(Other) => Handle(r, cmd, a) == Failure(cmd.id, Internal)
      case Err(_) => Handle(r, cmd, a) == Failure(cmd.id, RbacDenied)
  {
    if PlanFor(r, cmd).One? {
      assert MayCall(r, cmd, PlanFor(r, cmd).call);
    }
  }
}
