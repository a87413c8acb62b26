/** From environment values to a router: `Config.Load`, `Validate` and the wiring in
    `App.Run`, as far as the limits and the namespace guard depend on them. */
module Config {
  import opened Wrappers
  import opened Api
  import Routing = Router
  import Csv
  import Guard

  const PLATFORM_URL := "INCIDENTFLOW_PLATFORM_URL"
  const GATEWAY_URL := "INCIDENTFLOW_GATEWAY_URL"

  datatype UrlShape = NoUrl | NotWss | Wss

  datatype ConfigError =
    | GatewayUrlInvalid | AllowlistEmpty | MissingSettings(names: seq<string>)
    | MaxTailInvalid | DefaultTailInvalid | MaxLogInvalid

  datatype Settings = Settings(platformUrl: string, gatewayUrl: UrlShape, allowlist: Option<seq<string>>, limits: Limits) {
    predicate ListsNamespaces() {
      allowlist.Some? && allowlist.value != []
    }

    function Missing(): seq<string> {
      (if platformUrl == "" then [PLATFORM_URL] else []) + (if gatewayUrl.NoUrl? then [GATEWAY_URL] else [])
    }

    /** Nothing but the limits can still be wrong. */
    predicate Present() {
      platformUrl != "" && gatewayUrl.Wss? && ListsNamespaces()
    }
  }

  /** `Config.Validate`, in its order: what is missing is noted first but reported late. */
  method Validate(c: Settings) returns (error: Option<ConfigError>)
    ensures error == None <==>
      c.platformUrl != "" && c.gatewayUrl.Wss? && c.ListsNamespaces() && c.limits.Validated()
    ensures error == Some(GatewayUrlInvalid) <==> c.gatewayUrl.NotWss?
    ensures error == Some(AllowlistEmpty) <==> !c.gatewayUrl.NotWss? && !c.ListsNamespaces()
    ensures error.Some? && error.value.MissingSettings? <==> !c.gatewayUrl.NotWss? && c.ListsNamespaces() && c.Missing() != []
    ensures error.Some? && error.value.MissingSettings? ==> error.value.names == c.Missing()
    ensures error == Some(MaxTailInvalid) <==> c.Present() && c.limits.maxTailLines <= 0
    ensures error == Some(DefaultTailInvalid) <==>
      c.Present() && c.limits.maxTailLines > 0 && !(0 < c.limits.defaultTailLines <= c.limits.maxTailLines)
    ensures error == Some(MaxLogInvalid) <==>
      c.Present() && 0 < c.limits.defaultTailLines <= c.limits.maxTailLines && c.limits.maxLogBytes <= 0
  {
    var missing: seq<string> := [];
    if c.platformUrl == "" {
      missing := missing + [PLATFORM_URL];
    }
    if c.gatewayUrl.NoUrl? {
      missing := missing + [GATEWAY_URL];
    }
    if c.gatewayUrl.NotWss? {
      return Some(GatewayUrlInvalid);
    }
    if c.allowlist == None || |c.allowlist.value| == 0 {
      return Some(AllowlistEmpty);
    }
    if |missing| > 0 {
      return Some(MissingSettings(missing));
    }
    if c.limits.maxTailLines <= 0 {
      return Some(MaxTailInvalid);
    }
    if c.limits.defaultTailLines <= 0 || c.limits.defaultTailLines > c.limits.maxTailLines {
      return Some(DefaultTailInvalid);
    }
    if c.limits.maxLogBytes <= 0 {
      return Some(MaxLogInvalid);
    }
    return None;
  }

  /** A router exists only for a validated configuration, and then it meets what the
      confinement proofs ask of it: sane limits, and a guard whose inventory and check
      agree because its allowlist is not empty. */
  method BuildRouter(allowValue: string, denyValue: string, platformUrl: string, gatewayUrl: UrlShape, limits: Limits)
    returns (r: Result<Routing.Router, ConfigError>)
    ensures r.Ok? <==>
      platformUrl != "" && gatewayUrl.Wss? && limits.Validated() && allowValue != "" && Csv.Names(allowValue) != []
    ensures r.Ok? ==>
      && r.value.limits == limits
      && r.value.guard.WellFormed() && r.value.guard.allowlist != {}
      && r.value.guard == Guard.Configured(allowValue, denyValue)
  {
    var allow := Csv.SplitCsv(allowValue);
    var deny := Csv.SplitCsv(if denyValue == "" then Guard.DEFAULT_DENYLIST else denyValue);
    var error := Validate(Settings(platformUrl, gatewayUrl, allow, limits));
    if error.Some? {
      return Err(error.value);
    }
    var guard := Guard.NewNamespaceGuard(allow, deny);
    Guard.NamesAreProper(allowValue);
    assert Csv.Names(allowValue)[0] in guard.allowlist;
    return Ok(Routing.Router(guard, limits));
  }
}
