/**
 * The two services together: a token the identity service issues at login, presented to the
 * gateway as a bearer token, is judged by the roles the account was stored with.
 */
module Boundary {
  import opened Common
  import opened Types
  import A = AuthService
  import G = Gateway
  import GP = GatewayProperties

  /** The payload `jwt.verify` yields for a token signed over `c`. */
  function PayloadOf(c: JwtUserClaims): (p: G.Payload)
    ensures G.RolesOf(p) == c.roles
  {
    G.Payload(Some(c.sub), Some(c.email), Some(c.roles))
  }

  /** The key pair is consistent: every token the identity service signs with its private key
      and its signing options verifies, under the gateway's public key, to the claims it was
      signed over. */
  ghost predicate KeysAgree(crypto: A.Crypto, acfg: A.AuthConfig, verify: G.Verifier, publicKey: string)
  {
    forall c: JwtUserClaims :: crypto.sign(c, acfg.privateKey, A.SigningOptions(acfg)).Some? ==>
      verify(crypto.sign(c, acfg.privateKey, A.SigningOptions(acfg)).value, publicKey) == Some(PayloadOf(c))
  }

  /** A token issued at login opens a gateway route exactly when the route names no role or
      the account's stored roles hold it; otherwise the answer is 403. It is forwarded to the
      route's backend with the prefix stripped. */
  lemma IssuedTokenAtGateway(
    users: A.Users, body: A.LoginBody, crypto: A.Crypto, acfg: A.AuthConfig,
    gcfg: G.GatewayConfig, verify: G.Verifier, req: G.Request, token: string, i: nat)
    requires A.Present(body.email) && body.email.value in users
    requires A.LoginSpec(users, body, crypto, acfg, true) == A.Reply(200, A.Grant(token, "Bearer", acfg.expiresIn))
    requires gcfg.publicKey != ""
    requires KeysAgree(crypto, acfg, verify, gcfg.publicKey)
    requires req.authorization == Some(G.BearerScheme + token)
    requires i < |G.Rules| && G.MountMatches(G.Rules[i].prefix, req.path)
    ensures var rule := G.Rules[i];
      G.Route(gcfg, req, verify) ==
        if rule.role.None? || rule.role.value in users[body.email.value].roles then
          G.Forward(G.TargetUrl(gcfg.targets, rule.target), G.Rewrite(rule.prefix, req.path))
        else G.Reject(403, "Forbidden")
  {
  }

  /** Signup stores whatever role it is given, so anyone can create an account with role
      "admin", log in with it, and have the gateway forward their `/reporting` requests. */
  lemma SelfAssignedAdminReachesReporting(
    users: A.Users, email: string, password: string, crypto: A.Crypto, acfg: A.AuthConfig,
    freshId: string, gcfg: G.GatewayConfig, verify: G.Verifier, req: G.Request, token: string)
    requires A.HashAgrees(crypto)
    requires email != "" && password != "" && email !in users && freshId !in A.Ids(users)
    requires crypto.sign(JwtUserClaims(freshId, email, ["admin"]), acfg.privateKey, A.SigningOptions(acfg)) == Some(token)
    requires gcfg.publicKey != ""
    requires KeysAgree(crypto, acfg, verify, gcfg.publicKey)
    requires req.authorization == Some("Bearer " + token) && G.MountMatches("/reporting", req.path)
    ensures var signup := A.SignupSpec(users, A.SignupBody(Some(email), Some(password), Some("admin")), crypto, freshId, true);
      && signup.reply == A.Reply(201, A.Account(freshId, email, ["admin"]))
      && A.LoginSpec(signup.users, A.LoginBody(Some(email), Some(password)), crypto, acfg, true) ==
           A.Reply(200, A.Grant(token, "Bearer", acfg.expiresIn))
      && G.Route(gcfg, req, verify) == G.Forward(gcfg.targets.reporting, G.Rewrite("/reporting", req.path))
  {
    var body := A.SignupBody(Some(email), Some(password), Some("admin"));
    var signup := A.SignupSpec(users, body, crypto, freshId, true);
    assert crypto.compare(password, crypto.hash(password, A.SaltRounds));
    assert signup.users[email].passwordHash == crypto.hash(password, A.SaltRounds);
    GP.BearerRoundTrip(token);
    GP.RouteReachesRule(gcfg, req, verify, 5);
  }
}
