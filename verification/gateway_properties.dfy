/**
 * What the gateway promises about every request: the public `/auth` route, the bearer and
 * verification gates of the protected routes, the admin gate of `/reporting`, open mode,
 * where a forwarded request goes, and that nothing unmatched or rejected is forwarded.
 */
module GatewayProperties {
  import opened Common
  import opened Gateway

  /** If two prefixes mount the same path, the shorter one mounts the longer one. */
  lemma MountsNest(p: string, q: string, path: string)
    requires MountMatches(p, path) && MountMatches(q, path) && |p| <= |q|
    ensures MountMatches(p, q)
  {
    assert q == path[..|q|];
    assert p == path[..|p|] == q[..|p|];
    if |p| < |q| {
      assert q[|p|] == path[|p|];
    }
  }

  /** No prefix of the table mounts another one. */
  lemma PrefixesApart()
    ensures forall i, j :: 0 <= i < |Rules| && 0 <= j < |Rules| && i != j ==>
      !MountMatches(Rules[i].prefix, Rules[j].prefix)
  {
    forall i, j | 0 <= i < |Rules| && 0 <= j < |Rules| && i != j
      ensures !MountMatches(Rules[i].prefix, Rules[j].prefix)
    {
      // The prefixes are distinct words after the leading '/': they differ at index 1 or 3.
      var p, q := Rules[i].prefix, Rules[j].prefix;
      assert p[1] != q[1] || p[3] != q[3];
    }
  }

  /** At most one rule of the table mounts any path, so the first match is the only match
      and the declared order of the six rules does not change any decision. */
  lemma RulesDisjoint(path: string, i: nat, j: nat)
    requires i < |Rules| && j < |Rules|
    requires MountMatches(Rules[i].prefix, path) && MountMatches(Rules[j].prefix, path)
    ensures i == j
  {
    PrefixesApart();
    var p, q := Rules[i].prefix, Rules[j].prefix;
    if |p| <= |q| {
      MountsNest(p, q, path);
    } else {
      MountsNest(q, p, path);
    }
  }

  /** The rule chosen for a path is exactly the rule whose prefix mounts it. */
  lemma FirstMatchIsUnique(path: string, i: nat)
    requires i < |Rules|
    ensures FirstMatch(Rules, path) == Some(i) <==> MountMatches(Rules[i].prefix, path)
  {
    var r := FirstMatch(Rules, path);
    if MountMatches(Rules[i].prefix, path) {
      assert r.Some?;
      RulesDisjoint(path, i, r.value);
    }
  }

  /** The health probe's paths are mounted by no rule. */
  lemma HealthNotRouted(path: string, i: nat)
    requires path == "/health" || path == "/health/"
    requires i < |Rules|
    ensures !MountMatches(Rules[i].prefix, path)
  {
    assert path[1] == 'h';
    assert Rules[i].prefix[1] != 'h';
  }

  /** A request the rule at index `i` mounts reaches that rule's gates. */
  lemma RouteReachesRule(cfg: GatewayConfig, req: Request, verify: Verifier, i: nat)
    requires i < |Rules| && MountMatches(Rules[i].prefix, req.path)
    ensures Route(cfg, req, verify) == Dispatch(cfg, Rules[i], req, verify)
  {
    if IsHealthCheck(req) {
      HealthNotRouted(req.path, i);
    }
    FirstMatchIsUnique(req.path, i);
  }

  /** An `/auth` request is forwarded to the identity service with `/auth` stripped, whatever
      its Authorization header and whatever the verifier would say: neither is consulted. */
  lemma AuthRouteIsPublic(cfg: GatewayConfig, req: Request, verify: Verifier)
    requires MountMatches("/auth", req.path)
    ensures Route(cfg, req, verify) == Forward(cfg.targets.auth, Rewrite("/auth", req.path))
    ensures req.path == "/auth" + Route(cfg, req, verify).path
  {
    RouteReachesRule(cfg, req, verify, 0);
  }

  /** With a public key configured, a protected route whose request has no header, or a header
      not starting with exactly "Bearer ", is answered 401 "Missing bearer token". */
  lemma MissingBearerRejected(cfg: GatewayConfig, req: Request, verify: Verifier, i: nat)
    requires i < |Rules| && Rules[i].authRequired && MountMatches(Rules[i].prefix, req.path)
    requires cfg.publicKey != ""
    requires req.authorization.None? || !StartsWith(req.authorization.value, BearerScheme)
    ensures Route(cfg, req, verify) == Reject(401, "Missing bearer token")
  {
    RouteReachesRule(cfg, req, verify, i);
  }

  /** With a public key configured, a protected route whose bearer token does not verify
      (bad signature, another algorithm than RS256, expired) is answered 401 "Invalid token". */
  lemma InvalidTokenRejected(cfg: GatewayConfig, req: Request, verify: Verifier, i: nat, token: string)
    requires i < |Rules| && Rules[i].authRequired && MountMatches(Rules[i].prefix, req.path)
    requires cfg.publicKey != ""
    requires req.authorization == Some(BearerScheme + token)
    requires verify(token, cfg.publicKey).None?
    ensures Route(cfg, req, verify) == Reject(401, "Invalid token")
  {
    BearerRoundTrip(token);
    RouteReachesRule(cfg, req, verify, i);
  }

  /** The token extracted from `"Bearer " + t` is exactly `t`. */
  lemma BearerRoundTrip(t: string)
    ensures BearerToken(Some(BearerScheme + t)) == Some(t)
  {
    var h := BearerScheme + t;
    assert h[..|BearerScheme|] == BearerScheme;
    assert h[|BearerScheme|..] == t;
  }

  /** `/reporting` is forwarded exactly when a public key is configured, the bearer token
      verifies, and its payload's roles contain "admin"; a verified non-admin gets 403. */
  lemma ReportingRequiresAdmin(cfg: GatewayConfig, req: Request, verify: Verifier)
    requires MountMatches("/reporting", req.path)
    ensures Route(cfg, req, verify).Forward? <==>
      && cfg.publicKey != ""
      && BearerToken(req.authorization).Some?
      && verify(BearerToken(req.authorization).value, cfg.publicKey).Some?
      && AdminRole in RolesOf(verify(BearerToken(req.authorization).value, cfg.publicKey).value)
    ensures Route(cfg, req, verify).Forward? ==>
      Route(cfg, req, verify) == Forward(cfg.targets.reporting, Rewrite("/reporting", req.path))
    ensures (cfg.publicKey != "" && BearerToken(req.authorization).Some? &&
             verify(BearerToken(req.authorization).value, cfg.publicKey).Some? &&
             AdminRole !in RolesOf(verify(BearerToken(req.authorization).value, cfg.publicKey).value)) ==>
      Route(cfg, req, verify) == Reject(403, "Forbidden")
  {
    RouteReachesRule(cfg, req, verify, 5);
  }

  /** Open mode: with no public key, `/reporting` is always 401 "Unauthorized" (there is never
      a principal to carry the admin role), and the other protected routes forward anonymously
      whatever the header says. */
  lemma OpenModeDecisions(cfg: GatewayConfig, req: Request, verify: Verifier, i: nat)
    requires cfg.publicKey == ""
    requires i < |Rules| && MountMatches(Rules[i].prefix, req.path)
    ensures Rules[i].role.Some? ==> Route(cfg, req, verify) == Reject(401, "Unauthorized")
    ensures Rules[i].role.None? ==>
      Route(cfg, req, verify) == Forward(TargetUrl(cfg.targets, Rules[i].target), Rewrite(Rules[i].prefix, req.path))
  {
    RouteReachesRule(cfg, req, verify, i);
  }

  /** A forwarded request went through the gates of the rule that mounts its path: it goes to
      that rule's backend, with that rule's prefix removed and the rest of the path unchanged,
      and every gate the rule names accepted it. */
  lemma ForwardPassedGates(cfg: GatewayConfig, req: Request, verify: Verifier)
    requires Route(cfg, req, verify).Forward?
    ensures FirstMatch(Rules, req.path).Some?
    ensures var rule := Rules[FirstMatch(Rules, req.path).value];
      && MountMatches(rule.prefix, req.path)
      && Route(cfg, req, verify).target == TargetUrl(cfg.targets, rule.target)
      && req.path == rule.prefix + Route(cfg, req, verify).path
      && (rule.authRequired && cfg.publicKey != "" ==>
            BearerToken(req.authorization).Some? &&
            verify(BearerToken(req.authorization).value, cfg.publicKey).Some?)
      && (rule.role.Some? ==>
            rule.authRequired && cfg.publicKey != "" &&
            BearerToken(req.authorization).Some? &&
            verify(BearerToken(req.authorization).value, cfg.publicKey).Some? &&
            rule.role.value in RolesOf(verify(BearerToken(req.authorization).value, cfg.publicKey).value))
  {
  }

  /** A path no rule mounts is never forwarded: it is the health probe or a 404. */
  lemma UnmatchedNeverForwarded(cfg: GatewayConfig, req: Request, verify: Verifier)
    requires forall i :: 0 <= i < |Rules| ==> !MountMatches(Rules[i].prefix, req.path)
    ensures !Route(cfg, req, verify).Forward?
    ensures !IsHealthCheck(req) ==> Route(cfg, req, verify) == Reject(404, "Cannot " + req.verb + " " + req.path)
  {
  }
}
