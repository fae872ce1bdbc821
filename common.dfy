/** Shared vocabulary of the authentication gateway: optional values, results,
    the JSON values that claim sets carry, Python's truthiness on them, and the
    failures every route can end in together with the HTTP status each one is
    reported under. */
module Common {

  datatype Option<T> = None | Some(value: T)

  /** Every route either answers with a value or fails with one of the gateway's
      failures. */
  datatype Result<T> = Ok(value: T) | Err(failure: Failure)

  /** A JSON value inside a claim set or a provider's answer. Strings, integers
      and null are modelled in full; a boolean, a float, a list or an object is
      `JOther`, known only by its Python truthiness. */
  datatype Json = JStr(str: string) | JNum(num: int) | JNull | JOther(truthy: bool)

  /** A decoded JSON object: claim name to claim value. */
  type Claims = map<string, Json>

  /** `d.get(k)`: an absent key and an explicit null both read as None, which is
      modelled as `JNull`. */
  function Get(d: Claims, k: string): Json
  {
    if k in d then d[k] else JNull
  }

  /** Python truthiness: the empty string, zero, None, `False`, `0.0`, `[]` and
      `{}` are false. */
  predicate Truthy(v: Json)
  {
    match v
    case JStr(s) => s != ""
    case JNum(n) => n != 0
    case JNull => false
    case JOther(t) => t
  }

  /** Python's `a or b`: the first operand when it is truthy, else the second. */
  function Or(a: Json, b: Json): (r: Json)
    ensures Truthy(r) <==> Truthy(a) || Truthy(b)
    ensures r == a || r == b
    ensures Truthy(a) ==> r == a
    ensures !Truthy(a) ==> r == b
  {
    if Truthy(a) then a else b
  }

  /** The failures of the gateway, one per distinct `HTTPException` the routes raise. */
  datatype Failure =
    | UserAlreadyRegistered     // POST /register on a taken username
    | IncorrectCredentials      // POST /login, unknown user or wrong password alike
    | InvalidOrExpired          // verify_token, bad signature, expired or no subject alike
    | InvalidGoogleToken        // the Google validator raised ValueError
    | NoEmailFound              // a provider's claims carry no usable email
    | MicrosoftAuthFailed       // an outbound call of the code exchange failed
    | NoMicrosoftAccessToken    // the token endpoint answered without an access token
    | TokenDecodeError          // the unverified decode of a Microsoft ID token raised
    | InternalServerError       // the catch-all handler of POST /auth/microsoft/token

  /** The HTTP status code each failure is reported under. */
  function Status(f: Failure): (code: int)
    ensures 400 <= code <= 500
    ensures code == 500 <==> f == InternalServerError
    ensures code == 403 <==> f == InvalidOrExpired
  {
    match f
    case UserAlreadyRegistered => 400
    case IncorrectCredentials => 401
    case InvalidOrExpired => 403
    case InvalidGoogleToken => 401
    case NoEmailFound => 400
    case MicrosoftAuthFailed => 400
    case NoMicrosoftAccessToken => 400
    case TokenDecodeError => 401
    case InternalServerError => 500
  }
}
