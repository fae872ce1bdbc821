/** The session token the gateway issues and checks: a JWT (RFC 7519) claim set
    signed with the service's secret and algorithm.

    The signature is abstract: `Mac(key, claims)` names the one value that
    signing `claims` under `key` produces, so a token passes the signature
    check exactly when it was signed under the verifier's key over exactly the
    claims it carries. Time is a whole number of seconds since the epoch, the
    unit of the numeric `exp` claim. */
module Tokens {
  import opened Common

  /** `timedelta(minutes=15)`, the lifetime used when no delta is given. */
  const DefaultLifetime: int := 15 * 60

  /** The signing configuration: `SECRET_KEY` and `ALGORITHM`. */
  datatype Key = Key(secret: string, algorithm: string)

  datatype Signature = Mac(key: Key, signed: Claims)

  datatype Token = Token(claims: Claims, sig: Signature)

  /** The `sub` claim as `payload.get("sub")` reads it. */
  function Subject(t: Token): Json
  {
    Get(t.claims, "sub")
  }

  predicate SignedBy(t: Token, key: Key)
  {
    t.sig == Mac(key, t.claims)
  }

  /** The expiry `create_access_token` stamps: `now + expires_delta` when the
      delta is truthy, otherwise `now + 15 minutes`. A zero `timedelta` is falsy
      in Python, so it falls back to the default as well. */
  function Expiry(now: int, delta: Option<int>): (exp: int)
    ensures delta.Some? && delta.value != 0 ==> exp == now + delta.value
    ensures delta.None? || delta.value == 0 ==> exp == now + DefaultLifetime
    ensures (delta.None? || delta.value >= 0) ==> exp >= now
  {
    match delta
    case Some(d) => if d != 0 then now + d else now + DefaultLifetime
    case None => now + DefaultLifetime
  }

  /** `create_access_token`: the caller's claims with `exp` set, signed. Dafny's
      maps are values, so the caller's claim set is never changed, as the
      source's `data.copy()` intends. */
  function CreateAccessToken(key: Key, data: Claims, delta: Option<int>, now: int): (t: Token)
    ensures SignedBy(t, key)
    ensures t.claims.Keys == data.Keys + {"exp"}
    ensures t.claims["exp"] == JNum(Expiry(now, delta))
    ensures forall k :: k in data && k != "exp" ==> t.claims[k] == data[k]
  {
    var toEncode := data["exp" := JNum(Expiry(now, delta))];
    Token(toEncode, Mac(key, toEncode))
  }

  /** The expiry check of the JWT library (section 4.1.4 of RFC 7519), with no
      leeway: a token whose `exp` is a number is still good at `now == exp`
      and expired once `now` passes it; an `exp` that is not a number is
      rejected; a token without `exp` is not checked for expiry. */
  predicate ExpiryRejects(claims: Claims, now: int)
  {
    "exp" in claims && !(claims["exp"].JNum? && now <= claims["exp"].num)
  }

  /** `verify_token`: the decoded claims when the signature checks, the token has
      not expired and `sub` is present; a single `InvalidOrExpired` otherwise. */
  function VerifyToken(t: Token, key: Key, now: int): (r: Result<Claims>)
    ensures r.Ok? <==> SignedBy(t, key) && !ExpiryRejects(t.claims, now) && Subject(t) != JNull
    ensures r.Ok? ==> r.value == t.claims
    ensures r.Err? ==> r.failure == InvalidOrExpired
  {
    if !SignedBy(t, key) || ExpiryRejects(t.claims, now) then
      Err(InvalidOrExpired)   // the library's JWTError
    else if Subject(t) == JNull then
      Err(InvalidOrExpired)   // the explicit check for a missing subject
    else
      Ok(t.claims)
  }

  /** Issue then verify: a token minted for subject `u` verifies under the same
      key at any time from its issue up to its expiry, and hands back `u`. */
  lemma IssueThenVerify(key: Key, u: string, delta: Option<int>, now: int, at: int)
    requires now <= at <= Expiry(now, delta)
    ensures VerifyToken(CreateAccessToken(key, map["sub" := JStr(u)], delta, now), key, at)
         == Ok(map["sub" := JStr(u), "exp" := JNum(Expiry(now, delta))])
    ensures Subject(CreateAccessToken(key, map["sub" := JStr(u)], delta, now)) == JStr(u)
  {
    var t := CreateAccessToken(key, map["sub" := JStr(u)], delta, now);
    assert t.claims == map["sub" := JStr(u), "exp" := JNum(Expiry(now, delta))];
  }

  /** A token whose expiry has passed is rejected, whatever its signature. */
  lemma ExpiredIsRejected(t: Token, key: Key, now: int)
    requires "exp" in t.claims && t.claims["exp"].JNum? && t.claims["exp"].num < now
    ensures VerifyToken(t, key, now) == Err(InvalidOrExpired)
  {
  }

  /** A token signed under another key, or whose claims were altered after
      signing, is rejected. */
  lemma ForgeryIsRejected(t: Token, key: Key, now: int)
    requires t.sig.key != key || t.sig.signed != t.claims
    ensures VerifyToken(t, key, now) == Err(InvalidOrExpired)
  {
  }

  /** A token signed under the key and not expired, but whose `sub` is absent
      or null, is rejected with the same failure as a forged or expired one. */
  lemma MissingSubjectIsRejected(t: Token, key: Key, now: int)
    requires SignedBy(t, key) && !ExpiryRejects(t.claims, now)
    requires "sub" !in t.claims || t.claims["sub"] == JNull
    ensures VerifyToken(t, key, now) == Err(InvalidOrExpired)
  {
  }
}
