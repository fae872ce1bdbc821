# Credential issuance of the AuthApp backend, in Dafny

This project models the core of `backend/main.py`, an authentication gateway.
Callers prove who they are in one of four ways: a local username and password,
a Google ID token, a Microsoft authorization code, or a Microsoft ID token.
Every way ends in the same session credential, a signed JWT whose `sub` is the
username and whose `exp` is the configured lifetime from now.

The one piece of state is the user directory. It maps each username to a
password hash, and the empty hash marks a user created by federated login.

- `Common` holds the vocabulary: `Option`, `Result`, JSON claim values, Python
  truthiness and `or`, and the failures with their HTTP status codes.
- `Tokens` holds `create_access_token` and `verify_token`. The signature is an
  abstract `Mac(key, claims)`.
- `Users` holds the directory rules as functions of the directory's value:
  lookup, `authenticate_user`, registration, and the find-or-create
  provisioning that the three federated routes repeat.
- `Providers` turns each provider's answer into the email the gateway signs
  for. It covers the Google validator, the Microsoft code exchange with its
  Graph profile call, and the unverified decode of a Microsoft ID token.
- `Gateway` holds the configuration and the shared session step. Its
  `UserStore` class keeps the directory in a field and has one method per
  route. Each method changes the field in place and is proved against a
  function of the directory's value. `Run` folds those functions over a
  history of requests.

Proved:

- Registering a taken username fails with 400 and leaves the directory
  unchanged. A fresh username adds exactly one record, and every other
  record stays as it was.
- Authentication succeeds exactly when the user exists and the password
  checks. An unknown user and a wrong password give the same failure, and
  the directory is never written.
- Provisioning either returns the stored record or adds `{email, ""}`. It is
  idempotent, at the level of the function and of a repeated federated
  request.
- Email extraction follows Python's `get`/`or` truthiness over JSON strings,
  integers, null, and other values known by their truthiness. When no email
  is found, the route fails before the directory is read or written.
- A token round-trips: a token issued for `u` verifies at any time from its
  issue to its expiry and carries `sub == u`. An expired token, a forged
  token, a token with altered claims and a token without `sub` all get the
  same 403.
- The Microsoft ID-token route trusts unverified claims. A token that anyone
  can make, carrying only the `email` of an existing user, yields a verifying
  session for that user, password users included.
- Across any history of requests, no record is ever changed or removed. The
  subject of every token issued is a user in the directory. Every user the
  history adds has either the empty hash or the hash of a password
  registered for that user.

Time is a whole number of seconds since the epoch. The expiry check accepts a
token up to and including the second `exp`. It rejects a token once `now`
passes `exp`, and it rejects an `exp` that is not a number. A token without
`exp` is not checked for expiry.

## Model

| member | source | states |
|---|---|---|
| `Common.Or` | backend/main.py:191 | Python `a or b`: the first operand when truthy, otherwise the second (so `"" or None` is None); the result is truthy iff either operand is |
| `Common.Status` | backend/main.py:73-259 | the status each failure is reported under; exactly the catch-all is 500 and exactly the token check is 403 |
| `Tokens.Expiry` | backend/main.py:88-91 | `now + delta` for a non-zero delta, otherwise `now + 15 minutes` (a zero `timedelta` is falsy); never before `now` for a non-negative delta |
| `Tokens.CreateAccessToken` | backend/main.py:86-93 | the token carries the caller's claims plus `exp`, every claim other than `exp` unchanged, and is signed under the key |
| `Tokens.VerifyToken` | backend/main.py:110-118 | accepts iff signature checks, not expired and `sub` present, returning the claims; every rejection is the single `InvalidOrExpired` |
| `Tokens.IssueThenVerify` | backend/main.py:86-118 | a token issued for `u` verifies at any time from issue to expiry and returns `sub == u` |
| `Tokens.ExpiredIsRejected` | backend/main.py:110-118 | a token whose `exp` has passed is rejected whatever its signature |
| `Tokens.ForgeryIsRejected` | backend/main.py:110-118 | a token signed under another key or whose claims changed after signing is rejected |
| `Tokens.MissingSubjectIsRejected` | backend/main.py:113-115 | any token signed under the key and not expired whose `sub` is absent or null is rejected with the same `InvalidOrExpired` |
| `Users.FindUser` | backend/main.py:58-59 | the record stored under the username, present iff the username is a key |
| `Users.Authenticate` | backend/main.py:79-83 | the stored user iff the username is known and `verify(password, hash)` holds; one `None` for both failures |
| `Users.Register` | backend/main.py:62-76 | fails iff the username is taken, then writes nothing; otherwise adds exactly that key with the password's hash, every other record unchanged |
| `Users.Provision` | backend/main.py:139-145 | returns the record now stored under the email; an existing email leaves the directory unchanged, a new one adds exactly `{email, ""}` |
| `Users.ProvisionIdempotent` | backend/main.py:139-145 | a second provisioning of the same email is a pure lookup returning the same record |
| `Users.RegisterTwiceFails` | backend/main.py:69-76 | a second registration of a username fails with `UserAlreadyRegistered` and writes nothing |
| `Users.RegisterThenAuthenticate` | backend/main.py:62-83 | after registering, a password authenticates iff the opaque check accepts it against the stored hash |
| `Users.FederatedUserPassword` | backend/main.py:79-83 | a provisioned user passes password login iff the opaque check accepts the password against the empty hash |
| `Providers.EmailClaim` | backend/main.py:191-194 | the email is the first key's value when truthy, else the fallback's; it succeeds only with a non-empty string, else `NoEmailFound` |
| `Providers.GoogleEmail` | backend/main.py:132-156 | a rejected Google token is `InvalidGoogleToken` (401); verified claims yield their `email` iff it is a non-empty string, else 400 |
| `Providers.ProfileEmail` | backend/main.py:190-194 | a Graph profile yields `mail` when it is an email; a truthy `mail` that is not a string is 400; a falsy `mail` yields `userPrincipalName` when it is an email, else 400 |
| `Providers.IdTokenEmail` | backend/main.py:233-235 | ID-token claims yield `email` when it is an email; a truthy `email` that is not a string is 400; a falsy `email` yields `preferred_username` when it is an email, else 400 |
| `Providers.MicrosoftCodeEmail` | backend/main.py:172-216 | a failed call is 400, a token answer without a truthy `access_token` is 400; once both calls answer, the result is exactly the profile's email extraction; every failure is 400 |
| `Providers.MicrosoftIdTokenEmailAsWritten` | backend/main.py:227-259 | as written: undecodable is 401, and a decoded token without an email is caught by the catch-all and reported as 500 |
| `Providers.MicrosoftIdTokenEmail` | backend/main.py:227-259 | as intended: undecodable is 401, a decoded token without an email is 400, otherwise the token's email |
| `Providers.MissingEmailIsReported500` | backend/main.py:234-259 | a token with no email claims is reported 500 by the handler as written and 400 as intended |
| `Providers.AsWrittenDiffersOnlyOnMissingEmail` | backend/main.py:227-259 | the written and intended handlers differ exactly on decodable tokens without an email |
| `Providers.UnverifiedClaimsAreTrusted` | backend/main.py:230-233 | any decoded claim set whose `email` is a non-empty string yields that email on the ID-token path: nothing in it is verified |
| `Gateway.Session` | backend/main.py:104-107 | a bearer token with exactly `sub` (the username) and `exp` (now plus `ACCESS_TOKEN_EXPIRE_MINUTES`), signed; it verifies at issue when the lifetime is not negative |
| `Gateway.LoginStep` | backend/main.py:95-108 | a token iff the user exists and the password checks, and then exactly the session for that user: `sub` the username, `exp` now plus `ACCESS_TOKEN_EXPIRE_MINUTES`, signed under the key; otherwise the one 401 |
| `Gateway.FederatedLogin` | backend/main.py:139-150 | a provider failure leaves the directory unchanged; otherwise the email is found or created and exactly the session for that email is issued (`exp` now plus `ACCESS_TOKEN_EXPIRE_MINUTES`, signed under the key), its subject a user |
| `Gateway.Step` | backend/main.py:69-253 | every route keeps every existing record, and any token it issues is signed under the key, carries exactly `sub` and `exp` with `exp` now plus `ACCESS_TOKEN_EXPIRE_MINUTES`, names a user of the new directory and verifies at issue when the lifetime is not negative |
| `Gateway.RunKeepsIssuedSubjects` | backend/main.py:139-150 | over any history no record changes or disappears, and every issued token's subject is a user of the final directory |
| `Gateway.RunProvenance` | backend/main.py:62-67 | every user a history adds has the empty hash or the hash of a password registered for it |
| `Gateway.IdTokenRouteImpersonates` | backend/main.py:225-253 | a token carrying only `{email: u}` for an existing user `u`, password users included, writes nothing and yields a session for `u` that verifies |
| `Gateway.FederatedRequestIsIdempotent` | backend/main.py:197-203 | repeating a federated request leaves the directory as the first one left it |
| `Gateway.RegisterThenLogin` | backend/main.py:95-118 | register then login yields a token that verifies until expiry with `sub` the username; a rejected password yields 401 |
| `Gateway.UserStore.Register` | backend/main.py:62-76 | the store moves as `Users.Register` says: unchanged on failure, one new record on success |
| `Gateway.UserStore.ResolveOrCreate` | backend/main.py:238-244 | the store moves as `Users.Provision` says; the user returned is the record now stored under the email |
| `Gateway.UserStore.Login` | backend/main.py:95-108 | answers as `LoginStep` and never writes; a token's subject is a user of the store |
| `Gateway.UserStore.CompleteFederatedLogin` | backend/main.py:147-150 | fails before touching the store when the provider step failed; otherwise provisions and issues as `FederatedLogin` says |
| `Gateway.UserStore.GoogleAuth` | backend/main.py:126-156 | the Google route as `FederatedLogin` over `GoogleEmail`; a token's subject is a user of the store |
| `Gateway.UserStore.MicrosoftAuth` | backend/main.py:159-216 | the code route as `FederatedLogin` over `MicrosoftCodeEmail`; a token's subject is a user of the store |
| `Gateway.UserStore.MicrosoftTokenAuth` | backend/main.py:225-259 | the ID-token route as `FederatedLogin` over `MicrosoftIdTokenEmail`; a token's subject is a user of the store |
| `Gateway.UserStore.Handle` | backend/main.py:69-253 | handling one request moves the store and issues a token exactly as `Step` says |

## Left out

- The web framework layer is not modelled: routing, CORS, the database
  session's lifecycle and the `HTTPException` plumbing. Failures are
  `Result` values that carry a `Failure`, and `Status` gives the HTTP code.
- The `detail` messages and the `WWW-Authenticate` header are not modelled.
  Only the failure kind and its status code are.
- bcrypt is opaque. `Crypt.hash` and `Crypt.verify` are uninterpreted. The
  model does not claim that an empty hash never verifies, because that depends
  on the hashing library. bcrypt's random salt is not modelled either: `hash`
  is a function.
- JWT cryptography and the compact serialization are not modelled. A token is
  its claim set plus an abstract `Mac(key, claims)`. The `key` stands for
  `SECRET_KEY` together with `ALGORITHM`. A malformed token string is not
  represented.
- Tokens.VerifyToken: it models only the checks the gateway relies on, which
  are the signature, `exp` and `sub`. The library's checks of other claims
  (`nbf`, `iat`, `aud`, the type of `sub`) are not modelled. An `exp` that is
  not an integer is rejected, although the library may coerce a float or a
  numeric string.
- The expiry comparison inside the JWT library is not part of this model. The
  model's choice is that a token is valid while `now <= exp`, with no leeway.
- Time has whole seconds only. Sub-second parts of `datetime.utcnow()` are not
  modelled.
- Google's token verification, with its keys, issuer and audience, is an
  oracle (`GoogleAnswer`). So are the two outbound HTTP calls of the Microsoft
  code exchange (`MicrosoftExchange`). Network I/O, timeouts, non-JSON bodies
  and `raise_for_status` are reduced to `RequestFailed`.
- The unsigned decode of a Microsoft ID token is an oracle that returns
  whatever claims the token carries (`UnverifiedIdToken`). No signature check
  is added. `Providers.UnverifiedClaimsAreTrusted` states the resulting trust
  gap. Whether the JWT library accepts that decode call as written, without a
  key argument, depends on the library. That is not part of this model.
- Providers.EmailClaim, Providers.GoogleEmail, Providers.ProfileEmail,
  Providers.IdTokenEmail: only a non-empty string is accepted as an email,
  and no email syntax is checked. A truthy `email` or `mail` that is not a
  string (a number, `true`, a non-empty list or object) is treated as
  "no email". The source would pass it on as a
  username. JSON booleans, floats, lists and objects are represented only by
  their truthiness (`JOther`), which is all `or` and `if not` look at.
- Exceptions the handlers do not raise themselves are not modelled. That
  covers a database error, a validator error that is not a `ValueError`, and
  the 500 the `/auth/microsoft/token` catch-all gives to such errors.
- Environment configuration (`SECRET_KEY`, `ALGORITHM`,
  `ACCESS_TOKEN_EXPIRE_MINUTES`, client ids, tenant, redirect URI, Graph URL)
  is the `Config` parameter. The client ids and URLs only matter to the
  providers, which are oracles.
- Concurrency is not modelled. That includes two registrations of the same
  username racing on the database's unique constraint.
- `GET /verify-token/{token}` only wraps `verify_token` with a fixed message.
  It is represented by `Tokens.VerifyToken`.
- `backend/schemas.py` holds only request shapes, which appear here as
  parameters. The frontend files are UI only. They post `{token}` to
  `/auth/microsoft`, which expects `{code}` (frontend/auth-app/src/Login.js:59
  against backend/schemas.py:12). This integration mismatch is outside the
  model.
- Gateway.UserStore.MicrosoftTokenAuth: it reports a token without an email as
  400, the status the handler raises. The handler as written reports it as 500
  (see Findings).

## Findings

| source | as written | input that shows it | evidently intended | confidence | as-written member | corrected member |
|---|---|---|---|---|---|---|
| backend/main.py:234-259 | the 400 for a token without an email is raised inside the `try`, and the last handler, `except Exception`, catches it and re-raises it as 500 "Internal Server Error" | a decodable ID token with neither `email` nor `preferred_username` (claims `{}`) | 400 "Invalid Microsoft token: No email found", as for the other two federated routes | high, not executed | `Providers.MicrosoftIdTokenEmailAsWritten` (`Providers.MissingEmailIsReported500`) | `Providers.MicrosoftIdTokenEmail` (`Providers.AsWrittenDiffersOnlyOnMissingEmail`) |
