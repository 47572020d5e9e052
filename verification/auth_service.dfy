/**
 * The identity service's account logic: signup inserts a user into the users table, login
 * checks a password against it and issues a signed token, and the JWKS document publishes
 * the verification key under the key id the tokens carry.
 *
 * The table is a map from email to the user's row. The `UNIQUE` email column is the map's
 * key, kept equal to the row's own email; the `PRIMARY KEY` id column is an invariant that
 * signup preserves. Password hashing, hash comparison and token signing are foreign code and
 * appear as functions the service is given (`Crypto`).
 */
module AuthService {
  import opened Common
  import opened Types

  /** The bcrypt cost factor signup hashes with. */
  const SaltRounds: nat := 10
  /** The key id every token is signed under and the JWKS document publishes. */
  const KeyId: string := "midas-default"
  /** The one signing algorithm. */
  const SigningAlgorithm: string := "RS256"
  /** The token lifetime when `JWT_EXPIRES_IN` is unset or empty. */
  const DefaultExpiresIn: string := "1h"
  /** The role a user gets when signup names none. */
  const DefaultRole: string := RoleName(Resident)

  /** Key material and token lifetime, read once at start-up. */
  datatype AuthConfig = AuthConfig(privateKey: string, publicKey: string, expiresIn: string)

  /** Reads the key pair as given (no default; unset is modelled as empty) and the token
      lifetime with its `|| '1h'` default. */
  function LoadConfig(env: map<string, string>): (cfg: AuthConfig)
    ensures "JWT_PRIVATE_KEY" in env ==> cfg.privateKey == env["JWT_PRIVATE_KEY"]
    ensures "JWT_PRIVATE_KEY" !in env ==> cfg.privateKey == ""
    ensures "JWT_PUBLIC_KEY" in env ==> cfg.publicKey == env["JWT_PUBLIC_KEY"]
    ensures "JWT_PUBLIC_KEY" !in env ==> cfg.publicKey == ""
    ensures ("JWT_EXPIRES_IN" !in env || env["JWT_EXPIRES_IN"] == "") ==> cfg.expiresIn == DefaultExpiresIn
    ensures ("JWT_EXPIRES_IN" in env && env["JWT_EXPIRES_IN"] != "") ==> cfg.expiresIn == env["JWT_EXPIRES_IN"]
  {
    AuthConfig(
      EnvOr(env, "JWT_PRIVATE_KEY", ""),
      EnvOr(env, "JWT_PUBLIC_KEY", ""),
      EnvOr(env, "JWT_EXPIRES_IN", DefaultExpiresIn))
  }

  /** The options `jwt.sign` is called with. */
  datatype SignOptions = SignOptions(algorithm: string, expiresIn: string, keyid: string)

  /** The foreign primitives: `bcrypt.hash(password, rounds)`, `bcrypt.compare(password, hash)`
      and `jwt.sign(claims, privateKey, options)`, which yields None where it throws. */
  datatype Crypto = Crypto(
    hash: (string, nat) -> string,
    compare: (string, string) -> bool,
    sign: (JwtUserClaims, string, SignOptions) -> Option<string>)

  /** The one law of the hash pair: a password matches its own hash. */
  ghost predicate HashAgrees(crypto: Crypto)
  {
    forall p :: crypto.compare(p, crypto.hash(p, SaltRounds))
  }

  /** The request bodies. A field is None when it is absent from the JSON body (or the body is). */
  datatype SignupBody = SignupBody(email: Option<string>, password: Option<string>, role: Option<string>)
  datatype LoginBody = LoginBody(email: Option<string>, password: Option<string>)

  /** A row of the users table. */
  datatype User = User(id: string, email: string, passwordHash: string, roles: seq<string>)

  /** One entry of the JWKS document. */
  datatype Jwk = Jwk(kid: string, kty: string, alg: string, use: string, pem: string)

  /** The JSON bodies the service answers with. None of them can carry a password hash. */
  datatype Body =
    | Account(id: string, email: string, roles: seq<string>)
    | Grant(accessToken: string, tokenType: string, expiresIn: string)
    | Failure(error: string)
    | KeySet(keys: seq<Jwk>)

  datatype Reply = Reply(status: nat, body: Body)

  /** The users table, keyed by email. */
  type Users = map<string, User>

  function Ids(users: Users): set<string>
  {
    set e | e in users :: users[e].id
  }

  /** The table's constraints: each row is filed under its own email (so emails are unique)
      and ids are unique. The `roles` column is only `NOT NULL`; that the rows signup writes
      hold exactly one role is a fact about signup (`InitialRoles`), not a constraint. */
  ghost predicate WellFormed(users: Users)
  {
    && (forall e :: e in users ==> users[e].email == e)
    && (forall e1, e2 :: e1 in users && e2 in users && users[e1].id == users[e2].id ==> e1 == e2)
  }

  /** JavaScript truthiness of a string field: present and not empty. */
  predicate Present(field: Option<string>)
  {
    field.Some? && field.value != ""
  }

  /** `role ? [role] : ['resident']`. */
  function InitialRoles(role: Option<string>): (r: seq<string>)
    ensures |r| == 1 && r[0] != ""
    ensures Present(role) ==> r == [role.value]
    ensures !Present(role) ==> r == ["resident"]
  {
    if Present(role) then [role.value] else [DefaultRole]
  }

  /** The claims a token is signed over: `{ sub: id, email, roles }` of the stored row. */
  function ClaimsOf(u: User): (c: JwtUserClaims)
    ensures c.sub == u.id && c.email == u.email && c.roles == u.roles
  {
    JwtUserClaims(u.id, u.email, u.roles)
  }

  function SigningOptions(cfg: AuthConfig): (opts: SignOptions)
    ensures opts.algorithm == "RS256" && opts.keyid == "midas-default"
    ensures opts.expiresIn == cfg.expiresIn
  {
    SignOptions(SigningAlgorithm, cfg.expiresIn, KeyId)
  }

  /** `GET /.well-known/jwks.json`: one RSA key, published under the key id tokens are signed with. */
  function Jwks(cfg: AuthConfig): (r: Reply)
    ensures r.status == 200 && r.body.KeySet? && |r.body.keys| == 1
    ensures r.body.keys[0].kid == SigningOptions(cfg).keyid
    ensures r.body.keys[0].alg == SigningOptions(cfg).algorithm
    ensures r.body.keys[0].pem == cfg.publicKey
  {
    Reply(200, KeySet([Jwk(KeyId, "RSA", SigningAlgorithm, "sig", cfg.publicKey)]))
  }

  datatype SignupOutcome = SignupOutcome(reply: Reply, users: Users)

  /** `POST /signup` on the table `users`. `freshId` is the id the database would generate;
      `storeUp` is false when the database cannot be reached. A duplicate email, like a duplicate
      id, violates a unique constraint and is reported as `email_exists`. */
  function SignupSpec(users: Users, body: SignupBody, crypto: Crypto, freshId: string, storeUp: bool): (out: SignupOutcome)
    ensures out.reply.status in {201, 400, 409, 500}
    ensures out.reply.status != 201 ==> out.users == users && out.reply.body.Failure?
    ensures users.Keys <= out.users.Keys && forall e :: e in users ==> out.users[e] == users[e]
    ensures out.reply.body.Account? ==> out.reply.body.id !in Ids(users) && out.reply.body.email !in users
  {
    if !Present(body.email) || !Present(body.password) then
      SignupOutcome(Reply(400, Failure("email_password_required")), users)
    else
      var email := body.email.value;
      var passwordHash := crypto.hash(body.password.value, SaltRounds);
      if !storeUp then
        SignupOutcome(Reply(500, Failure("signup_failed")), users)
      else if email in users || freshId in Ids(users) then
        SignupOutcome(Reply(409, Failure("email_exists")), users)
      else
        var user := User(freshId, email, passwordHash, InitialRoles(body.role));
        SignupOutcome(Reply(201, Account(user.id, user.email, user.roles)), users[email := user])
  }

  /** `POST /login` against the table `users`. */
  function LoginSpec(users: Users, body: LoginBody, crypto: Crypto, cfg: AuthConfig, storeUp: bool): (r: Reply)
    ensures r.status in {200, 400, 401, 500}
    ensures r.status == 200 <==> r.body.Grant?
    ensures r.status == 200 ==>
      && Present(body.email) && Present(body.password) && storeUp && body.email.value in users
      && crypto.compare(body.password.value, users[body.email.value].passwordHash)
      && r.body.tokenType == "Bearer" && r.body.expiresIn == cfg.expiresIn
  {
    if !Present(body.email) || !Present(body.password) then
      Reply(400, Failure("email_password_required"))
    else if !storeUp then
      Reply(500, Failure("login_failed"))
    else if body.email.value !in users then
      Reply(401, Failure("invalid_credentials"))
    else
      var user := users[body.email.value];
      if !crypto.compare(body.password.value, user.passwordHash) then
        Reply(401, Failure("invalid_credentials"))
      else
        match crypto.sign(ClaimsOf(user), cfg.privateKey, SigningOptions(cfg))
        case None => Reply(500, Failure("login_failed"))
        case Some(token) => Reply(200, Grant(token, "Bearer", cfg.expiresIn))
  }

  /** The running identity service: its configuration, its primitives and the users table. */
  class Service {
    const config: AuthConfig
    const crypto: Crypto
    var users: Users

    ghost predicate Valid()
      reads this
    {
      WellFormed(users)
    }

    /** Starts the service over an existing table (`CREATE TABLE IF NOT EXISTS` keeps old rows). */
    constructor(env: map<string, string>, crypto: Crypto, existing: Users)
      requires WellFormed(existing)
      ensures Valid()
      ensures config == LoadConfig(env) && this.crypto == crypto && users == existing
    {
      this.config := LoadConfig(env);
      this.crypto := crypto;
      this.users := existing;
    }

    method Signup(body: SignupBody, freshId: string, storeUp: bool) returns (reply: Reply)
      requires Valid()
      modifies this
      ensures Valid()
      ensures reply == SignupSpec(old(users), body, crypto, freshId, storeUp).reply
      ensures users == SignupSpec(old(users), body, crypto, freshId, storeUp).users
    {
      if !Present(body.email) || !Present(body.password) {
        return Reply(400, Failure("email_password_required"));
      }
      var email, password := body.email.value, body.password.value;
      var passwordHash := crypto.hash(password, SaltRounds);
      if !storeUp {
        return Reply(500, Failure("signup_failed"));
      }
      if email in users || freshId in Ids(users) {
        return Reply(409, Failure("email_exists"));
      }
      var user := User(freshId, email, passwordHash, InitialRoles(body.role));
      SignupPreservesWellFormed(users, body, crypto, freshId, storeUp);
      users := users[email := user];
      reply := Reply(201, Account(user.id, user.email, user.roles));
    }

    /** Login only reads the table. */
    method Login(body: LoginBody, storeUp: bool) returns (reply: Reply)
      ensures reply == LoginSpec(users, body, crypto, config, storeUp)
    {
      if !Present(body.email) || !Present(body.password) {
        return Reply(400, Failure("email_password_required"));
      }
      if !storeUp {
        return Reply(500, Failure("login_failed"));
      }
      var email, password := body.email.value, body.password.value;
      if email !in users {
        return Reply(401, Failure("invalid_credentials"));
      }
      var user := users[email];
      var ok := crypto.compare(password, user.passwordHash);
      if !ok {
        return Reply(401, Failure("invalid_credentials"));
      }
      var token := crypto.sign(ClaimsOf(user), config.privateKey, SigningOptions(config));
      if token.None? {
        return Reply(500, Failure("login_failed"));
      }
      reply := Reply(200, Grant(token.value, "Bearer", config.expiresIn));
    }
  }

  /** Signup keeps the table's constraints: emails and ids stay unique. */
  lemma SignupPreservesWellFormed(users: Users, body: SignupBody, crypto: Crypto, freshId: string, storeUp: bool)
    requires WellFormed(users)
    ensures WellFormed(SignupSpec(users, body, crypto, freshId, storeUp).users)
  {
  }
}
