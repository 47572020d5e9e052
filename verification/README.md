# Midas identity and access boundary, in Dafny

This project models the two places in the Midas condominium platform where identity and
access are decided:

- **The API gateway** (`midas/services/api-gateway/src/index.ts`). Every inbound request
  goes through one pure decision function, `Gateway.Route`. It answers the `/health` probe
  itself. Otherwise it finds the first of six route rules whose prefix mounts the path
  (`/auth`, `/registry`, `/finance`, `/billing`, `/messaging`, `/reporting`, in that order).
  A rule that requires authentication runs the bearer-token verifier (`Gateway.VerifyJwt`).
  A rule that names a role then runs the role gate (`Gateway.RequireRole`). A request that
  passes its gates becomes `Forward(target, path)`, with the mount prefix stripped from the
  path. A request that fails a gate becomes `Reject(status, error)`. A path that no rule
  mounts gets Express's 404. The principal is passed explicitly from the verifier to the
  role gate. An empty or unset `JWT_PUBLIC_KEY` is open mode: the verifier lets every
  request through with no principal.
- **The identity service** (`midas/services/auth-service/src/index.ts`). The class
  `AuthService.Service` holds the users table. The table is a map from email to the row
  `{id, email, passwordHash, roles}`.
  - `Signup` inserts one row. The table keeps its `UNIQUE` email and `PRIMARY KEY` id
    constraints as the class invariant.
  - `Login` only reads the table. On success it returns a token signed over
    `{sub: id, email, roles}`.
  - `Jwks` publishes the public key under the key id that tokens are signed with.

  Each method is proved against a pure specification function (`SignupSpec`, `LoginSpec`).
  The lemmas in `AuthProperties` state the service's promises about those functions.

Cryptography and other foreign code appear as functions that the model is given, not as
implementations:

- `Gateway.Verifier` stands for `jwt.verify` with the algorithm pinned to RS256. It returns
  the payload, or nothing when the signature, the algorithm or the expiry is wrong.
- `AuthService.Crypto` stands for `bcrypt.hash`, `bcrypt.compare` and `jwt.sign`. Its one
  law, `HashAgrees`, says that a password matches its own hash.
- Randomness and the database are parameters. The generated row id is `freshId`. Whether
  the database answers is `storeUp`.
- The configuration comes from an environment map (`LoadConfig`). It applies the same
  `process.env.X || default` defaults as the source.

`Boundary` joins the two services. Its predicate `KeysAgree` states that the key pair is consistent:
every token the identity service signs verifies at the gateway to the claims it was signed
over. Under that predicate, and with a public key configured at the gateway, a token issued
at login opens a route exactly when the route names no role or the account's stored roles
include it. In open mode (no gateway key) every request is anonymous, so every token gets 401
`Unauthorized` on `/reporting` (`GatewayProperties.OpenModeDecisions`). The same module shows a consequence of the source:
signup stores whatever role string it is given, so a self-registered `admin` account
reaches `/reporting`.

Facts about the code that the model keeps as written:

- `midas/packages/types/src/index.ts:3` declares five roles, but neither service imports
  that type. Signup stores whatever role string the request carries
  (`midas/services/auth-service/src/index.ts:52`). The model takes the names `admin` (the
  gateway's role gate) and `resident` (signup's default) from `Types.Role`.
- An unset or empty `JWT_PUBLIC_KEY` selects open mode with no other switch
  (`midas/services/api-gateway/src/index.ts:17-24`); the start-up warning is the only sign.
- The gateway verifies every token against its single configured key
  (`midas/services/api-gateway/src/index.ts:28`). It never reads the token's `kid` header.
- A duplicate generated id and a duplicate email both raise the unique-violation error
  `23505`, which `midas/services/auth-service/src/index.ts:56` answers with 409
  `email_exists`. The model gives both the same answer.

## Model

| member | source | states |
|---|---|---|
| `Gateway.LoadConfig` | midas/services/api-gateway/src/index.ts:15-59 | Open mode holds exactly when `JWT_PUBLIC_KEY` is unset or empty; otherwise the key is the variable's value. Each backend's URL is its variable's value when that is set and non-empty, and its `localhost` default when the variable is unset or empty. |
| `Gateway.MountMatches` | midas/services/api-gateway/src/index.ts:61-66 | A prefix mounts a path exactly when the path is the prefix followed by a rest that is empty or starts with `/`. `PrefixesApart` and `RulesDisjoint` build on it. |
| `Gateway.FirstMatch` | midas/services/api-gateway/src/index.ts:61-66 | The chosen rule mounts the path and no earlier rule does. No result means that no rule mounts the path. |
| `Gateway.BearerToken` | midas/services/api-gateway/src/index.ts:25-26 | A token is extracted exactly when the header is present and starts with the exact string `"Bearer "`. The header is then `"Bearer "` followed by the token. |
| `Gateway.VerifyJwt` | midas/services/api-gateway/src/index.ts:22-34 | Open mode passes with no principal and ignores the header. Otherwise a missing bearer token gives 401 `Missing bearer token`. A token that does not verify gives 401 `Invalid token`. A verified payload becomes the principal. Every failure is a 401 and happens only when a key is configured. |
| `Gateway.RequireRole` | midas/services/api-gateway/src/index.ts:41-48 | No principal gives 401 `Unauthorized`. A principal whose `roles` lacks the role gives 403 `Forbidden`; an absent claim counts as no roles. Otherwise the principal passes unchanged, and this is the only way to pass. |
| `Gateway.RolesOf` | midas/services/api-gateway/src/index.ts:45 | A role is held exactly when the `roles` claim is present and lists it; an absent claim holds no role. |
| `Gateway.IsHealthCheck` | midas/services/api-gateway/src/index.ts:36-38 | A health probe is never a path that a route rule mounts. `HealthNotRouted` states the same for both spellings of the path. |
| `Gateway.Dispatch` | midas/services/api-gateway/src/index.ts:61-66 | A matched rule forwards to its target with its prefix stripped, or rejects with 401, or with 403 only when it names a role. A rule without a role forwards exactly when it needs no authentication or the verifier passes. A rule with a role forwards exactly when it needs authentication, the verifier yields a principal, and that principal holds the role. `RouteReachesRule`, `ReportingRequiresAdmin` and `OpenModeDecisions` state its cases per rule. |
| `Gateway.Route` | midas/services/api-gateway/src/index.ts:36-66 | The health probe is answered by the gateway itself and nothing else is. A 404 is given exactly when the request is not the probe and no rule mounts its path. A forwarded path is the request path with the matched rule's prefix stripped. `RouteReachesRule`, `ForwardPassedGates` and `UnmatchedNeverForwarded` state the rest. |
| `Gateway.Rewrite` | midas/services/api-gateway/src/index.ts:61-66 | The leading prefix is removed so that the prefix followed by the result is the original path. A path without the prefix is left unchanged. |
| `GatewayProperties.PrefixesApart` | midas/services/api-gateway/src/index.ts:61-66 | No prefix in the table mounts another prefix in the table. |
| `GatewayProperties.RulesDisjoint` | midas/services/api-gateway/src/index.ts:61-66 | At most one rule mounts any path, so registration order never changes a decision. |
| `GatewayProperties.FirstMatchIsUnique` | midas/services/api-gateway/src/index.ts:61-66 | The first match is rule `i` exactly when rule `i`'s prefix mounts the path. |
| `GatewayProperties.HealthNotRouted` | midas/services/api-gateway/src/index.ts:36-38 | No route rule mounts `/health` or `/health/`. |
| `GatewayProperties.RouteReachesRule` | midas/services/api-gateway/src/index.ts:36-66 | A request whose path rule `i` mounts is decided by rule `i`'s gates and proxy. |
| `GatewayProperties.AuthRouteIsPublic` | midas/services/api-gateway/src/index.ts:61 | An `/auth` path is forwarded to the auth target with `/auth` stripped, for every header and every verifier. |
| `GatewayProperties.MissingBearerRejected` | midas/services/api-gateway/src/index.ts:22-25 | With a key configured, a protected route with no header, or a header not starting with `"Bearer "`, gives 401 `Missing bearer token` and is not forwarded. |
| `GatewayProperties.InvalidTokenRejected` | midas/services/api-gateway/src/index.ts:26-33 | With a key configured, a protected route whose bearer token fails verification gives 401 `Invalid token` and is not forwarded. |
| `GatewayProperties.BearerRoundTrip` | midas/services/api-gateway/src/index.ts:26 | The header `"Bearer " + t` yields exactly the token `t`. |
| `GatewayProperties.ReportingRequiresAdmin` | midas/services/api-gateway/src/index.ts:66 | `/reporting` is forwarded exactly when a key is configured, the token verifies, and its roles contain `admin`. It then goes to the reporting target with the prefix stripped. A verified principal without `admin` gets 403. |
| `GatewayProperties.OpenModeDecisions` | midas/services/api-gateway/src/index.ts:22-24 | With no key, `/reporting` is always 401 `Unauthorized`. Every other route is forwarded anonymously, whatever the header says. |
| `GatewayProperties.ForwardPassedGates` | midas/services/api-gateway/src/index.ts:61-66 | A forwarded request goes to the target of the rule that mounts its path. The path is that rule's prefix followed by the forwarded path. Every gate the rule names accepted the request. |
| `GatewayProperties.UnmatchedNeverForwarded` | midas/services/api-gateway/src/index.ts:36-66 | A path that no rule mounts is never forwarded. Apart from the health probe, it gets 404. |
| `AuthService.LoadConfig` | midas/services/auth-service/src/index.ts:18-20 | The private and public keys are the values of `JWT_PRIVATE_KEY` and `JWT_PUBLIC_KEY` as given, with no default; an unset key is empty. `JWT_EXPIRES_IN` defaults to `"1h"` when unset or empty. Otherwise its value is used. |
| `AuthService.SigningOptions` | midas/services/auth-service/src/index.ts:71-75 | Tokens are signed with algorithm `RS256`, key id `midas-default` and the configured lifetime. |
| `AuthService.Jwks` | midas/services/auth-service/src/index.ts:31-34 | The JWKS document holds one key. Its `kid` and `alg` equal those used for signing, and it carries the configured public key. |
| `AuthService.InitialRoles` | midas/services/auth-service/src/index.ts:52 | A new row holds exactly one non-empty role: the role the request gives when it is a non-empty string, otherwise `resident`. `SignupCreatesOneRow` uses it. |
| `AuthService.ClaimsOf` | midas/services/auth-service/src/index.ts:71 | A token's subject is the row's id, not its email; its email and roles are the stored ones. `LoginIssuesToken` and `SignupThenLogin` use it. |
| `AuthService.SignupSpec` | midas/services/auth-service/src/index.ts:36-59 | Signup answers 201, 400, 409 or 500. Every failure leaves the table unchanged. No existing row is changed or removed. A created account's id and email were not in the table. `SignupCreatesOneRow` and the other signup lemmas state each case. |
| `AuthService.LoginSpec` | midas/services/auth-service/src/index.ts:61-80 | Login answers 200, 400, 401 or 500, and 200 exactly when it grants a token. A token is granted only for present fields, a reachable store, a known email and a matching password, as a `Bearer` token with the configured lifetime. `LoginBadCredentials`, `LoginIssuesToken` and `LoginDoesNotEnumerate` state each case. |
| `AuthService.Service.constructor` | midas/services/auth-service/src/index.ts:16-20 | The service starts over an existing well-formed table and the configuration read from the environment. |
| `AuthService.Service.Signup` | midas/services/auth-service/src/index.ts:36-59 | The answer and the new table are those of `SignupSpec` on the old table. The table invariant (unique emails, unique ids) is kept. |
| `AuthService.Service.Login` | midas/services/auth-service/src/index.ts:61-80 | The answer is that of `LoginSpec` on the table. The method has no write access, so the table is never changed. |
| `AuthService.SignupPreservesWellFormed` | midas/services/auth-service/src/index.ts:42-53 | Every signup outcome keeps emails unique and ids unique. |
| `AuthProperties.SignupRequiresFields` | midas/services/auth-service/src/index.ts:37-38 | A missing or empty email or password gives 400 `email_password_required` and leaves the table unchanged. |
| `AuthProperties.SignupRejectsDuplicateEmail` | midas/services/auth-service/src/index.ts:55-56 | An email already in the table gives 409 `email_exists` and leaves the table unchanged. |
| `AuthProperties.SignupCreatesOneRow` | midas/services/auth-service/src/index.ts:50-54 | Signup gives 201 exactly when both fields are present, the store answers, and neither the email nor the id is taken. Success adds exactly one row, holding the password's hash and the roles `[role]` or `["resident"]`, and no other row changes. It answers with `{id, email, roles}` only. Any other outcome is an error that leaves the table unchanged. |
| `AuthProperties.EmailsUnique` | midas/services/auth-service/src/index.ts:44 | In a well-formed table, distinct rows have distinct emails. |
| `AuthProperties.LoginRequiresFields` | midas/services/auth-service/src/index.ts:62-63 | A missing or empty email or password gives 400 `email_password_required`. |
| `AuthProperties.LoginBadCredentials` | midas/services/auth-service/src/index.ts:65-69 | An unknown email gives 401 `invalid_credentials`, and so does a password that does not match. |
| `AuthProperties.LoginDoesNotEnumerate` | midas/services/auth-service/src/index.ts:65-69 | A table without the email and a table whose row does not match the password give identical answers. The answer's timing is not modelled. |
| `AuthProperties.LoginIssuesToken` | midas/services/auth-service/src/index.ts:71-76 | A matching password gives 200 with a `Bearer` token. The token is signed over the row's `{sub: id, email, roles}` with `RS256`, `midas-default` and the configured `expires_in`. A signing failure gives 500 `login_failed`. |
| `AuthProperties.DefaultTokenOptions` | midas/services/auth-service/src/index.ts:20 | Without `JWT_EXPIRES_IN`, the signing options are `RS256`, `midas-default` and `"1h"`. |
| `AuthProperties.SignupThenLogin` | midas/services/auth-service/src/index.ts:36-76 | After a successful signup, a login with the same email and password returns a token signed over the new id, the email and the stored roles. |
| `Boundary.IssuedTokenAtGateway` | midas/services/api-gateway/src/index.ts:22-66 | With a public key configured at the gateway, a login token presented as a bearer token is forwarded on a route that names no role, or a role the account holds. Otherwise it gets 403. |
| `Boundary.SelfAssignedAdminReachesReporting` | midas/services/auth-service/src/index.ts:52 | A signup with role `"admin"` succeeds, its login succeeds, and the gateway forwards that token's `/reporting` requests. |

## Left out

- Express setup: `helmet`, `morgan`, `express.json`, `app.listen` and the port. A body that is not valid JSON is answered 400 before any route runs. The `cors` middleware answers `OPTIONS` preflight requests before any gate runs. The model covers neither.
- Case-insensitive matching: Express matches mount paths and `/health` case-insensitively, and the model compares them case-sensitively. The `pathRewrite` regular expression is case-sensitive, so a path such as `/AUTH/x` would be proxied unrewritten. The model does not cover this.
- The rewrite is applied to the full original path, as version 2 of `http-proxy-middleware` does. Version 3 would see the path after Express has already removed the mount prefix.
- Query strings: the request path is the path without its query. The rewrite leaves a query untouched.
- Proxying: `changeOrigin`, header and body streaming, relaying the upstream answer, and upstream failures. The proxy library turns an empty rewritten path into `/`; the model keeps the empty path.
- The 404 answer is Express's default handler. Its text is modelled as `Cannot <verb> <path>`, without URL encoding or the HTML page around it.
- Token verification internals: RSA, algorithm pinning, expiry and the clock are behind the `Verifier` function. A payload that is a string rather than an object is not modelled. A `roles` claim that is a string rather than an array is not modelled either; on a string, `includes` would test for a substring.
- Token signing internals: the `iat` and `exp` claims taken from the clock, and the parsing of the lifetime string, are behind the `sign` function. A signing error is None, and login answers 500 `login_failed`.
- bcrypt internals and its random salt: `hash` is a given function with cost 10. A `compare` that throws on a malformed hash, which the source answers with 500, is not modelled.
- The `pg` pool, the `CREATE TABLE IF NOT EXISTS` statement and the SQL text are replaced by the in-memory map. Every store failure, including a failed table creation, is the single `storeUp = false` case. The `created_at` column is not modelled.
- `gen_random_uuid()`: the generated id is the `freshId` parameter.
- Body fields that are not strings (numbers, booleans, objects) are not modelled. Each field is either a string or absent.
- Concurrent signups on one email: operations run one after another. Uniqueness under concurrency is the database's guarantee.
- `LoginDoesNotEnumerate`: the model has no time, so it does not cover the timing difference between the two cases. An unknown email is answered at `midas/services/auth-service/src/index.ts:66` without calling `bcrypt.compare`; a wrong password is answered at line 69, after the comparison at line 68.
- `KeysAgree` does not model token expiry: a token that verifies at issue time is taken to verify at the gateway.
- The health endpoints of the identity service and the other services, the messaging, finance and registry placeholder handlers, and `ApiHealth` in `midas/packages/types/src/index.ts`. They are stubs and health pings with no access decision.
- Unset key variables: in the source an unset `JWT_PUBLIC_KEY` is `undefined`, so the JWKS entry (`midas/services/auth-service/src/index.ts:33`) has no `pem` field, while the model publishes `pem: ""`. An unset `JWT_PRIVATE_KEY` makes `jwt.sign` throw; the model passes the empty key to `sign`, whose None answer covers that throw.
- The gateway's start-up warning when `JWT_PUBLIC_KEY` is missing is console output only.
