/** Identity proofs from the external providers, reduced to the email the
    gateway provisions and signs for.

    The providers themselves are oracles: what the Google validator, the
    Microsoft token and profile endpoints, and the unverified decoder of a
    Microsoft ID token answer is a parameter of each function here. Only what
    the gateway does with those answers is modelled. */
module Providers {
  import opened Common

  /** What Google's ID-token validator answers: the verified claims, or the
      `ValueError` it raises for a bad signature, issuer, audience or expiry. */
  datatype GoogleAnswer = GoogleRejected | GoogleVerified(idInfo: Claims)

  /** One outbound HTTP call: a `requests.RequestException` (no connection, or a
      non-2xx status through `raise_for_status`), or the JSON body. */
  datatype HttpAnswer = RequestFailed | Answered(body: Claims)

  /** The authorization-code exchange (section 4.1.3 of RFC 6749): what the
      token endpoint answers, and what the profile endpoint answers when it is
      called with the access token obtained. */
  datatype MicrosoftExchange = MicrosoftExchange(tokenResponse: HttpAnswer, profileResponse: HttpAnswer)

  /** The decode of a Microsoft ID token WITHOUT signature verification: the
      claims the token carries, whoever made it, or the decoder's `JWTError`.
      Nothing an attacker puts in such a token is checked. */
  datatype UnverifiedIdToken = Undecodable | Decoded(payload: Claims)

  /** A claim value the gateway accepts as the email it uses for a username: any
      non-empty string. No email syntax is checked. */
  predicate IsNonEmptyString(v: Json)
  {
    v.JStr? && v.str != ""
  }

  /** The email chosen as `claims.get(first) or claims.get(fallback)`, failing
      when the chosen value is not a non-empty string. */
  function EmailClaim(claims: Claims, first: string, fallback: string): (r: Result<string>)
    ensures r.Ok? ==> r.value != ""
    ensures r.Err? ==> r.failure == NoEmailFound
    ensures Truthy(Get(claims, first)) ==> (r.Ok? <==> IsNonEmptyString(Get(claims, first)))
    ensures Truthy(Get(claims, first)) && r.Ok? ==> Get(claims, first) == JStr(r.value)
    ensures !Truthy(Get(claims, first)) ==> (r.Ok? <==> IsNonEmptyString(Get(claims, fallback)))
    ensures !Truthy(Get(claims, first)) && r.Ok? ==> Get(claims, fallback) == JStr(r.value)
  {
    var chosen := Or(Get(claims, first), Get(claims, fallback));
    if IsNonEmptyString(chosen) then Ok(chosen.str) else Err(NoEmailFound)
  }

  /** POST /auth/google up to provisioning: a rejected token is 401, verified
      claims without an `email` are 400. */
  function GoogleEmail(answer: GoogleAnswer): (r: Result<string>)
    ensures answer.GoogleRejected? <==> r == Err(InvalidGoogleToken)
    ensures answer.GoogleVerified? ==> (r.Ok? <==> IsNonEmptyString(Get(answer.idInfo, "email")))
    ensures answer.GoogleVerified? && r.Ok? ==> Get(answer.idInfo, "email") == JStr(r.value)
    ensures answer.GoogleVerified? && r.Err? ==> r.failure == NoEmailFound
  {
    match answer
    case GoogleRejected => Err(InvalidGoogleToken)
    case GoogleVerified(idInfo) =>
      var email := Get(idInfo, "email");
      if IsNonEmptyString(email) then Ok(email.str) else Err(NoEmailFound)
  }

  /** The email of a Microsoft Graph profile: `mail`, else `userPrincipalName`. */
  function ProfileEmail(userInfo: Claims): (r: Result<string>)
    ensures IsNonEmptyString(Get(userInfo, "mail")) ==> r == Ok(Get(userInfo, "mail").str)
    ensures !Truthy(Get(userInfo, "mail")) ==> (r.Ok? <==> IsNonEmptyString(Get(userInfo, "userPrincipalName")))
    ensures Truthy(Get(userInfo, "mail")) && !IsNonEmptyString(Get(userInfo, "mail")) ==> r == Err(NoEmailFound)
    ensures !Truthy(Get(userInfo, "mail")) && r.Ok? ==> r.value == Get(userInfo, "userPrincipalName").str
    ensures r.Err? ==> r.failure == NoEmailFound
  {
    EmailClaim(userInfo, "mail", "userPrincipalName")
  }

  /** The email of a Microsoft ID token's claims: `email`, else `preferred_username`. */
  function IdTokenEmail(payload: Claims): (r: Result<string>)
    ensures IsNonEmptyString(Get(payload, "email")) ==> r == Ok(Get(payload, "email").str)
    ensures !Truthy(Get(payload, "email")) ==> (r.Ok? <==> IsNonEmptyString(Get(payload, "preferred_username")))
    ensures Truthy(Get(payload, "email")) && !IsNonEmptyString(Get(payload, "email")) ==> r == Err(NoEmailFound)
    ensures !Truthy(Get(payload, "email")) && r.Ok? ==> r.value == Get(payload, "preferred_username").str
    ensures r.Err? ==> r.failure == NoEmailFound
  {
    EmailClaim(payload, "email", "preferred_username")
  }

  /** POST /auth/microsoft up to provisioning: a failed call to either endpoint
      is 400, a token answer without `access_token` is 400 and the profile is
      not fetched, a profile without an email is 400. */
  function MicrosoftCodeEmail(exchange: MicrosoftExchange): (r: Result<string>)
    ensures exchange.tokenResponse.RequestFailed? ==> r == Err(MicrosoftAuthFailed)
    ensures (exchange.tokenResponse.Answered? && !Truthy(Get(exchange.tokenResponse.body, "access_token")))
            ==> r == Err(NoMicrosoftAccessToken)
    ensures r.Ok? <==> exchange.tokenResponse.Answered? && Truthy(Get(exchange.tokenResponse.body, "access_token"))
                       && exchange.profileResponse.Answered? && ProfileEmail(exchange.profileResponse.body).Ok?
    ensures (exchange.tokenResponse.Answered? && Truthy(Get(exchange.tokenResponse.body, "access_token"))
             && exchange.profileResponse.Answered?)
            ==> r == ProfileEmail(exchange.profileResponse.body)
    ensures r.Err? ==> Status(r.failure) == 400
  {
    match exchange.tokenResponse
    case RequestFailed => Err(MicrosoftAuthFailed)
    case Answered(tokenInfo) =>
      if !Truthy(Get(tokenInfo, "access_token")) then
        Err(NoMicrosoftAccessToken)
      else
        match exchange.profileResponse
        case RequestFailed => Err(MicrosoftAuthFailed)
        case Answered(userInfo) => ProfileEmail(userInfo)
  }

  /** POST /auth/microsoft/token up to provisioning, as the handler is written:
      the 400 raised for a token without an email is raised inside the `try`
      whose last handler catches every `Exception`, so it leaves the route as
      a 500. */
  function MicrosoftIdTokenEmailAsWritten(decoded: UnverifiedIdToken): (r: Result<string>)
    ensures decoded.Undecodable? ==> r == Err(TokenDecodeError)
    ensures decoded.Decoded? ==> (r.Ok? <==> IdTokenEmail(decoded.payload).Ok?)
    ensures decoded.Decoded? && r.Err? ==> r.failure == InternalServerError
  {
    match decoded
    case Undecodable => Err(TokenDecodeError)
    case Decoded(payload) =>
      match IdTokenEmail(payload)
      case Ok(email) => Ok(email)
      case Err(_) => Err(InternalServerError)
  }

  /** POST /auth/microsoft/token up to provisioning, as intended: an undecodable
      token is 401, a token without an email is the 400 the handler raises. */
  function MicrosoftIdTokenEmail(decoded: UnverifiedIdToken): (r: Result<string>)
    ensures decoded.Undecodable? ==> r == Err(TokenDecodeError)
    ensures decoded.Decoded? ==> r == IdTokenEmail(decoded.payload)
    ensures r.Err? ==> Status(r.failure) == if decoded.Undecodable? then 401 else 400
  {
    match decoded
    case Undecodable => Err(TokenDecodeError)
    case Decoded(payload) => IdTokenEmail(payload)
  }

  /** The handler as written reports a token with neither `email` nor
      `preferred_username` as 500, where it raises 400. */
  lemma MissingEmailIsReported500()
    ensures Status(MicrosoftIdTokenEmailAsWritten(Decoded(map[])).failure) == 500
    ensures Status(MicrosoftIdTokenEmail(Decoded(map[])).failure) == 400
  {
    assert Get(map[], "email") == JNull;
  }

  /** The two handlers differ exactly on decodable tokens without an email. */
  lemma AsWrittenDiffersOnlyOnMissingEmail(decoded: UnverifiedIdToken)
    ensures MicrosoftIdTokenEmailAsWritten(decoded) != MicrosoftIdTokenEmail(decoded)
        <==> decoded.Decoded? && IdTokenEmail(decoded.payload).Err?
  {
  }

  /** The Microsoft ID-token path trusts its claims: any claim set whose `email`
      is a non-empty string, whoever made the token, yields that email. */
  lemma UnverifiedClaimsAreTrusted(payload: Claims)
    requires IsNonEmptyString(Get(payload, "email"))
    ensures MicrosoftIdTokenEmail(Decoded(payload)) == Ok(Get(payload, "email").str)
  {
  }
}
