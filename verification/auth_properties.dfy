/**
 * What the identity service promises: validation before anything else, the uniqueness conflict,
 * exactly one new row on success with the defaulted roles and no hash in the answer, login's
 * single answer for every bad credential, the claims and options a token is signed with, and
 * that a fresh account can log in with the password it signed up with.
 */
module AuthProperties {
  import opened Common
  import opened Types
  import opened AuthService

  /** Signup without a truthy email or password is 400 and leaves the table alone. */
  lemma SignupRequiresFields(users: Users, body: SignupBody, crypto: Crypto, freshId: string, storeUp: bool)
    requires !Present(body.email) || !Present(body.password)
    ensures SignupSpec(users, body, crypto, freshId, storeUp) ==
      SignupOutcome(Reply(400, Failure("email_password_required")), users)
  {
  }

  /** Signup with an email already in the table is 409 and leaves the table alone. */
  lemma SignupRejectsDuplicateEmail(users: Users, body: SignupBody, crypto: Crypto, freshId: string)
    requires Present(body.email) && Present(body.password)
    requires body.email.value in users
    ensures SignupSpec(users, body, crypto, freshId, true) ==
      SignupOutcome(Reply(409, Failure("email_exists")), users)
  {
  }

  /** Signup succeeds exactly when both fields are present, the store answers, and neither the
      email nor the generated id is taken. A success adds exactly one row, filed under the email,
      with the hash of the password and the roles `[role]` (any non-empty role string, unchecked)
      or `["resident"]`; it answers 201 with the id, email and roles only; all other rows are as
      they were. Every other outcome leaves the table as it was. */
  lemma SignupCreatesOneRow(users: Users, body: SignupBody, crypto: Crypto, freshId: string, storeUp: bool)
    ensures var out := SignupSpec(users, body, crypto, freshId, storeUp);
      out.reply.status == 201 <==>
        Present(body.email) && Present(body.password) && storeUp &&
        body.email.value !in users && freshId !in Ids(users)
    ensures var out := SignupSpec(users, body, crypto, freshId, storeUp);
      out.reply.status != 201 ==> out.users == users && out.reply.body.Failure?
    ensures var out := SignupSpec(users, body, crypto, freshId, storeUp);
      out.reply.status == 201 ==>
        var email := body.email.value;
        var roles := if Present(body.role) then [body.role.value] else ["resident"];
        && out.users.Keys == users.Keys + {email}
        && |out.users| == |users| + 1
        && (forall e :: e in users ==> out.users[e] == users[e])
        && out.users[email] == User(freshId, email, crypto.hash(body.password.value, 10), roles)
        && out.reply.body == Account(freshId, email, roles)
  {
  }

  /** The rows of a well-formed table have pairwise distinct emails. */
  lemma EmailsUnique(users: Users, e1: string, e2: string)
    requires WellFormed(users)
    requires e1 in users && e2 in users && e1 != e2
    ensures users[e1].email != users[e2].email
  {
  }

  /** Login without a truthy email or password is 400. */
  lemma LoginRequiresFields(users: Users, body: LoginBody, crypto: Crypto, cfg: AuthConfig, storeUp: bool)
    requires !Present(body.email) || !Present(body.password)
    ensures LoginSpec(users, body, crypto, cfg, storeUp) == Reply(400, Failure("email_password_required"))
  {
  }

  /** An unknown email and a wrong password get the same answer, 401 `invalid_credentials`. */
  lemma LoginBadCredentials(users: Users, body: LoginBody, crypto: Crypto, cfg: AuthConfig)
    requires Present(body.email) && Present(body.password)
    requires body.email.value !in users ||
             !crypto.compare(body.password.value, users[body.email.value].passwordHash)
    ensures LoginSpec(users, body, crypto, cfg, true) == Reply(401, Failure("invalid_credentials"))
  {
  }

  /** A table without the email and a table where the password does not match it answer the
      same. The answer alone does not tell whether the account exists; how long it takes is not
      modelled. */
  lemma LoginDoesNotEnumerate(without: Users, with: Users, body: LoginBody, crypto: Crypto, cfg: AuthConfig)
    requires Present(body.email) && Present(body.password)
    requires body.email.value !in without
    requires body.email.value in with && !crypto.compare(body.password.value, with[body.email.value].passwordHash)
    ensures LoginSpec(without, body, crypto, cfg, true) == LoginSpec(with, body, crypto, cfg, true)
  {
    LoginBadCredentials(without, body, crypto, cfg);
    LoginBadCredentials(with, body, crypto, cfg);
  }

  /** A matching password gets a token signed over `{sub: id, email, roles}` of the stored row,
      with RS256, key id `midas-default` and the configured lifetime, returned as a Bearer
      token with that lifetime; a signing failure is 500. */
  lemma LoginIssuesToken(users: Users, body: LoginBody, crypto: Crypto, cfg: AuthConfig)
    requires Present(body.email) && Present(body.password) && body.email.value in users
    requires crypto.compare(body.password.value, users[body.email.value].passwordHash)
    ensures var u := users[body.email.value];
      LoginSpec(users, body, crypto, cfg, true) ==
        match crypto.sign(JwtUserClaims(u.id, u.email, u.roles), cfg.privateKey,
                          SignOptions("RS256", cfg.expiresIn, "midas-default"))
        case Some(token) => Reply(200, Grant(token, "Bearer", cfg.expiresIn))
        case None => Reply(500, Failure("login_failed"))
  {
  }

  /** Without `JWT_EXPIRES_IN` tokens are signed with RS256, key id `midas-default` and a
      lifetime of one hour. */
  lemma DefaultTokenOptions(env: map<string, string>)
    requires "JWT_EXPIRES_IN" !in env
    ensures SigningOptions(LoadConfig(env)) == SignOptions("RS256", "1h", "midas-default")
  {
  }

  /** An account that signup just created can log in with the same email and password, and
      its token carries the new id, the email and the roles signup stored. */
  lemma SignupThenLogin(users: Users, body: SignupBody, crypto: Crypto, cfg: AuthConfig, freshId: string)
    requires HashAgrees(crypto)
    requires SignupSpec(users, body, crypto, freshId, true).reply.status == 201
    ensures var after := SignupSpec(users, body, crypto, freshId, true).users;
      var claims := JwtUserClaims(freshId, body.email.value, InitialRoles(body.role));
      LoginSpec(after, LoginBody(body.email, body.password), crypto, cfg, true) ==
        match crypto.sign(claims, cfg.privateKey, SigningOptions(cfg))
        case Some(token) => Reply(200, Grant(token, "Bearer", cfg.expiresIn))
        case None => Reply(500, Failure("login_failed"))
  {
    var after := SignupSpec(users, body, crypto, freshId, true).users;
    var password := body.password.value;
    assert after[body.email.value].passwordHash == crypto.hash(password, SaltRounds);
    assert crypto.compare(password, crypto.hash(password, SaltRounds));
  }
}
