/**
 * The API gateway's request pipeline as one decision function.
 *
 * A request is answered by the health probe, rejected by a gate, rejected as not found,
 * or forwarded to one backend with its mount prefix stripped. The six route rules are
 * tried in their declared order; the first whose prefix mounts the path decides. A rule
 * that requires authentication runs the bearer-token verifier; a rule with a role runs
 * the role gate after it. The principal produced by the verifier is threaded explicitly
 * from one gate to the next.
 */
module Gateway {
  import opened Common
  import Types

  /** The backends behind the gateway. */
  datatype Backend = AuthSvc | Registry | Finance | Billing | Messaging | Reporting

  /** The `targets` object: one base URL per backend. */
  datatype Targets = Targets(
    auth: string, registry: string, finance: string,
    billing: string, messaging: string, reporting: string)

  /** The gateway's configuration. An empty `publicKey` is "open" mode: requests are anonymous. */
  datatype GatewayConfig = GatewayConfig(publicKey: string, targets: Targets)

  /** The environment variable naming a backend's base URL. */
  function UrlVariable(s: Backend): string
  {
    match s
    case AuthSvc => "AUTH_SERVICE_URL"
    case Registry => "REGISTRY_SERVICE_URL"
    case Finance => "FINANCE_SERVICE_URL"
    case Billing => "BILLING_SERVICE_URL"
    case Messaging => "MESSAGING_SERVICE_URL"
    case Reporting => "REPORTING_SERVICE_URL"
  }

  /** The base URL a backend has when its variable is unset or empty. */
  function DefaultUrl(s: Backend): string
  {
    match s
    case AuthSvc => "http://localhost:3001"
    case Registry => "http://localhost:3002"
    case Finance => "http://localhost:3003"
    case Billing => "http://localhost:3004"
    case Messaging => "http://localhost:3005"
    case Reporting => "http://localhost:3006"
  }

  /** Reads the configuration from the process environment, with the source's default URLs. */
  function LoadConfig(env: map<string, string>): (cfg: GatewayConfig)
    ensures cfg.publicKey == "" <==> "JWT_PUBLIC_KEY" !in env || env["JWT_PUBLIC_KEY"] == ""
    ensures cfg.publicKey != "" ==> "JWT_PUBLIC_KEY" in env && cfg.publicKey == env["JWT_PUBLIC_KEY"]
    ensures forall s: Backend :: UrlVariable(s) !in env || env[UrlVariable(s)] == "" ==>
      TargetUrl(cfg.targets, s) == DefaultUrl(s)
    ensures forall s: Backend :: UrlVariable(s) in env && env[UrlVariable(s)] != "" ==>
      TargetUrl(cfg.targets, s) == env[UrlVariable(s)]
  {
    var url := (s: Backend) => EnvOr(env, UrlVariable(s), DefaultUrl(s));
    GatewayConfig(
      EnvOr(env, "JWT_PUBLIC_KEY", ""),
      Targets(url(AuthSvc), url(Registry), url(Finance), url(Billing), url(Messaging), url(Reporting)))
  }

  function TargetUrl(t: Targets, s: Backend): string
  {
    match s
    case AuthSvc => t.auth
    case Registry => t.registry
    case Finance => t.finance
    case Billing => t.billing
    case Messaging => t.messaging
    case Reporting => t.reporting
  }

  /** One `app.use(prefix, ...)` registration: its mount prefix, its backend, whether the
      verifier runs, and the role the role gate demands, if any. */
  datatype RouteRule = RouteRule(prefix: string, target: Backend, authRequired: bool, role: Option<string>)

  const AdminRole: string := Types.RoleName(Types.Admin)

  /** The route table, in registration order. */
  const Rules: seq<RouteRule> := [
    RouteRule("/auth", AuthSvc, false, None),
    RouteRule("/registry", Registry, true, None),
    RouteRule("/finance", Finance, true, None),
    RouteRule("/billing", Billing, true, None),
    RouteRule("/messaging", Messaging, true, None),
    RouteRule("/reporting", Reporting, true, Some(AdminRole))
  ]

  /** A verified token payload. Any claim may be absent. */
  datatype Payload = Payload(sub: Option<string>, email: Option<string>, roles: Option<seq<string>>)

  /** `jwt.verify(token, publicKey, { algorithms: ['RS256'] })`: the payload when the signature
      checks under the key with algorithm RS256 and the token has not expired, otherwise None. */
  type Verifier = (string, string) -> Option<Payload>

  datatype Request = Request(verb: string, path: string, authorization: Option<string>)

  /** The result of one gate: continue with the (possibly absent) principal, or answer with an error. */
  datatype Gate = Pass(user: Option<Payload>) | Fail(status: nat, error: string)

  /** What the gateway does with a request. */
  datatype Outcome =
    | Forward(target: string, path: string)
    | Reject(status: nat, error: string)
    | Health(state: string, service: string)

  /** Express mount semantics: `prefix` mounts `path` when the path is the prefix itself or
      continues it with a `/` segment. */
  predicate MountMatches(prefix: string, path: string): (m: bool)
    ensures m <==> exists rest :: path == prefix + rest && (rest == "" || rest[0] == '/')
  {
    assert StartsWith(path, prefix) ==> path == prefix + path[|prefix|..];
    StartsWith(path, prefix) && (|path| == |prefix| || path[|prefix|] == '/')
  }

  /** The index of the first rule whose prefix mounts `path`. */
  function FirstMatch(rules: seq<RouteRule>, path: string): (r: Option<nat>)
    ensures r.Some? ==> r.value < |rules| && MountMatches(rules[r.value].prefix, path)
    ensures r.Some? ==> forall j :: 0 <= j < r.value ==> !MountMatches(rules[j].prefix, path)
    ensures r.None? ==> forall j :: 0 <= j < |rules| ==> !MountMatches(rules[j].prefix, path)
    decreases |rules|
  {
    if rules == [] then None
    else if MountMatches(rules[0].prefix, path) then Some(0)
    else match FirstMatch(rules[1..], path)
      case None => None
      case Some(k) => Some(k + 1)
  }

  const BearerScheme: string := "Bearer "

  /** The token of an `Authorization: Bearer <token>` header: the header with the exact,
      case-sensitive prefix `"Bearer "` removed. */
  function BearerToken(header: Option<string>): (token: Option<string>)
    ensures token.Some? <==> header.Some? && StartsWith(header.value, BearerScheme)
    ensures token.Some? ==> header.value == BearerScheme + token.value
  {
    if header.Some? && StartsWith(header.value, BearerScheme) then
      var h := header.value;
      assert h == h[..|BearerScheme|] + h[|BearerScheme|..];
      Some(h[|BearerScheme|..])
    else None
  }

  /** `verifyJwtMiddleware`: open mode lets every request through anonymously; otherwise
      the header must carry a bearer token that verifies, and its payload becomes the principal. */
  function VerifyJwt(publicKey: string, header: Option<string>, verify: Verifier): (g: Gate)
    ensures publicKey == "" ==> g == Pass(None)
    ensures publicKey != "" && BearerToken(header).None? ==> g == Fail(401, "Missing bearer token")
    ensures publicKey != "" && BearerToken(header).Some? ==>
      g == (match verify(BearerToken(header).value, publicKey)
            case None => Fail(401, "Invalid token")
            case Some(p) => Pass(Some(p)))
    ensures g.Fail? ==> g.status == 401 && publicKey != ""
  {
    if publicKey == "" then Pass(None)
    else match BearerToken(header)
      case None => Fail(401, "Missing bearer token")
      case Some(token) =>
        match verify(token, publicKey)
        case None => Fail(401, "Invalid token")
        case Some(payload) => Pass(Some(payload))
  }

  /** The `roles` claim, or no roles when the claim is absent. */
  function RolesOf(p: Payload): (r: seq<string>)
    ensures forall role :: role in r <==> p.roles.Some? && role in p.roles.value
  {
    if p.roles.Some? then p.roles.value else []
  }

  /** `requireRole(role)`: no principal is unauthenticated, a principal without the role is
      forbidden, anything else passes unchanged. */
  function RequireRole(user: Option<Payload>, role: string): (g: Gate)
    ensures g.Pass? <==> user.Some? && role in RolesOf(user.value)
    ensures g.Pass? ==> g.user == user
    ensures user.None? ==> g == Fail(401, "Unauthorized")
    ensures user.Some? && role !in RolesOf(user.value) ==> g == Fail(403, "Forbidden")
  {
    match user
    case None => Fail(401, "Unauthorized")
    case Some(p) => if role in RolesOf(p) then Pass(user) else Fail(403, "Forbidden")
  }

  /** `pathRewrite: { '^<prefix>': '' }`: removes a leading `prefix`, leaves any other path alone. */
  function Rewrite(prefix: string, path: string): (p: string)
    ensures StartsWith(path, prefix) ==> path == prefix + p
    ensures !StartsWith(path, prefix) ==> p == path
  {
    if StartsWith(path, prefix) then
      assert path == path[..|prefix|] + path[|prefix|..];
      path[|prefix|..]
    else path
  }

  /** `app.get('/health', ...)`: GET (and so HEAD) on `/health`, with or without a trailing slash. */
  predicate IsHealthCheck(req: Request): (h: bool)
    ensures h ==> FirstMatch(Rules, req.path).None?
  {
    (req.verb == "GET" || req.verb == "HEAD") && (req.path == "/health" || req.path == "/health/")
  }

  /** Runs one matched rule: the verifier if the rule requires it, the role gate if it names a
      role, then the proxy. */
  function Dispatch(cfg: GatewayConfig, rule: RouteRule, req: Request, verify: Verifier): (o: Outcome)
    ensures o.Forward? ==> o == Forward(TargetUrl(cfg.targets, rule.target), Rewrite(rule.prefix, req.path))
    ensures o.Reject? ==> o.status == 401 || (o.status == 403 && rule.role.Some?)
    ensures !o.Health?
    ensures rule.role.None? ==>
      (o.Forward? <==> !rule.authRequired || VerifyJwt(cfg.publicKey, req.authorization, verify).Pass?)
    ensures rule.role.Some? ==>
      (o.Forward? <==>
        var g := VerifyJwt(cfg.publicKey, req.authorization, verify);
        rule.authRequired && g.Pass? && g.user.Some? && rule.role.value in RolesOf(g.user.value))
  {
    var authn := if rule.authRequired then VerifyJwt(cfg.publicKey, req.authorization, verify) else Pass(None);
    match authn
    case Fail(status, error) => Reject(status, error)
    case Pass(user) =>
      var authz := if rule.role.Some? then RequireRole(user, rule.role.value) else Pass(user);
      match authz
      case Fail(status, error) => Reject(status, error)
      case Pass(_) => Forward(TargetUrl(cfg.targets, rule.target), Rewrite(rule.prefix, req.path))
  }

  /** The whole pipeline: the health probe, then the route table in order, then Express's
      default 404 answer. */
  function Route(cfg: GatewayConfig, req: Request, verify: Verifier): (o: Outcome)
    ensures o.Health? <==> IsHealthCheck(req)
    ensures o.Health? ==> o == Health("ok", "api-gateway")
    ensures o.Reject? && o.status == 404 <==> !IsHealthCheck(req) && FirstMatch(Rules, req.path).None?
    ensures o.Forward? ==>
      var i := FirstMatch(Rules, req.path);
      i.Some? && o.path == Rewrite(Rules[i.value].prefix, req.path)
  {
    if IsHealthCheck(req) then Health("ok", "api-gateway")
    else match FirstMatch(Rules, req.path)
      case None => Reject(404, "Cannot " + req.verb + " " + req.path)
      case Some(i) => Dispatch(cfg, Rules[i], req, verify)
  }
}
