/** The gateway's routes over one user directory.

    Every login route has the same shape: obtain an identity (a password pair
    checked against the directory, or an email taken from a provider's
    answer), find or create the user, and issue a bearer token whose subject
    is that user's username, with lifetime `ACCESS_TOKEN_EXPIRE_MINUTES`.
    The routes are the methods of `UserStore`, which holds the directory and
    updates it in place; each is specified by a function of the directory's
    value, and a history of requests is a fold of those functions. */
module Gateway {
  import opened Common
  import opened Tokens
  import opened Users
  import opened Providers

  /** The configuration read once at startup: `SECRET_KEY` with `ALGORITHM`,
      `ACCESS_TOKEN_EXPIRE_MINUTES`, and the password-hashing context. */
  datatype Config = Config(key: Key, expireMinutes: int, crypt: Crypt)

  /** The body of every successful login: `{access_token, token_type}`. */
  datatype Bearer = Bearer(accessToken: Token, tokenType: string)

  /** The token's subject is a user of the directory. */
  ghost predicate SubjectIsUser(t: Token, users: Directory)
  {
    Subject(t).JStr? && Subject(t).str in users
  }

  /** The last step of every login route: a bearer token for `username` with
      `sub` the username and `exp` the configured lifetime from `now`. */
  function Session(cfg: Config, username: string, now: int): (b: Bearer)
    ensures b.tokenType == "bearer"
    ensures SignedBy(b.accessToken, cfg.key)
    ensures b.accessToken.claims.Keys == {"sub", "exp"}
    ensures Subject(b.accessToken) == JStr(username)
    ensures b.accessToken.claims["exp"] == JNum(Expiry(now, Some(cfg.expireMinutes * 60)))
    ensures cfg.expireMinutes >= 0 ==> VerifyToken(b.accessToken, cfg.key, now).Ok?
  {
    Bearer(CreateAccessToken(cfg.key, map["sub" := JStr(username)], Some(cfg.expireMinutes * 60), now), "bearer")
  }

  /** POST /login: a bearer token for the user exactly when the password checks
      against the stored hash; one 401 for an unknown user and a wrong password
      alike. The directory is only read. */
  function LoginStep(users: Directory, cfg: Config, username: string, password: string, now: int): (r: Result<Bearer>)
    ensures r.Ok? <==> username in users && cfg.crypt.verify(password, users[username])
    ensures r.Err? ==> r.failure == IncorrectCredentials
    ensures r.Ok? ==> SubjectIsUser(r.value.accessToken, users) && r.value == Session(cfg, username, now)
  {
    match Authenticate(users, cfg.crypt, username, password)
    case None => Err(IncorrectCredentials)
    case Some(user) => Ok(Session(cfg, user.username, now))
  }

  /** The federated routes after the provider step: a failed provider step
      fails before the directory is read or written; otherwise the email is
      found or created as a user and a bearer token is issued for it. */
  function FederatedLogin(users: Directory, cfg: Config, email: Result<string>, now: int): (o: Outcome<Bearer>)
    ensures email.Err? ==> o.users == users && o.result == Err(email.failure)
    ensures email.Ok? ==> o.result == Ok(Session(cfg, email.value, now))
    ensures o.result.Ok? ==> SubjectIsUser(o.result.value.accessToken, o.users)
    ensures email.Ok? && email.value in users ==> o.users == users
    ensures email.Ok? && email.value !in users ==> o.users == users[email.value := ""]
    ensures Extends(users, o.users)
  {
    match email
    case Err(f) => Outcome(users, Err(f))
    case Ok(e) =>
      var (provisioned, user) := Provision(users, e);
      Outcome(provisioned, Ok(Session(cfg, user.username, now)))
  }

  /** The requests that can change the directory or issue a token. */
  datatype Request =
    | RegisterRequest(username: string, password: string)
    | LoginRequest(username: string, password: string)
    | GoogleRequest(google: GoogleAnswer)
    | MicrosoftRequest(exchange: MicrosoftExchange)
    | MicrosoftTokenRequest(decoded: UnverifiedIdToken)

  predicate IsFederated(req: Request)
  {
    req.GoogleRequest? || req.MicrosoftRequest? || req.MicrosoftTokenRequest?
  }

  /** The provider step of a federated request. */
  function ProviderEmail(req: Request): Result<string>
    requires IsFederated(req)
  {
    match req
    case GoogleRequest(answer) => GoogleEmail(answer)
    case MicrosoftRequest(exchange) => MicrosoftCodeEmail(exchange)
    case MicrosoftTokenRequest(decoded) => MicrosoftIdTokenEmail(decoded)
  }

  /** One request handled at time `now`: the directory after it, and the
      session token it issued, if any. */
  function Step(users: Directory, cfg: Config, req: Request, now: int): (s: (Directory, Option<Token>))
    ensures Extends(users, s.0)
    ensures s.1.Some? ==> SubjectIsUser(s.1.value, s.0) && SignedBy(s.1.value, cfg.key)
    ensures s.1.Some? ==> s.1.value.claims.Keys == {"sub", "exp"}
                          && s.1.value.claims["exp"] == JNum(Expiry(now, Some(cfg.expireMinutes * 60)))
    ensures s.1.Some? && cfg.expireMinutes >= 0 ==> VerifyToken(s.1.value, cfg.key, now).Ok?
  {
    match req
    case RegisterRequest(u, p) => (Register(users, cfg.crypt, u, p).users, None)
    case LoginRequest(u, p) =>
      var r := LoginStep(users, cfg, u, p, now);
      (users, if r.Ok? then Some(r.value.accessToken) else None)
    case _ =>
      var o := FederatedLogin(users, cfg, ProviderEmail(req), now);
      (o.users, if o.result.Ok? then Some(o.result.value.accessToken) else None)
  }

  /** A request and the time it is handled. */
  datatype Event = Event(request: Request, at: int)

  /** A history of requests handled one after another: the final directory and
      every session token issued, in order. */
  function Run(users: Directory, cfg: Config, events: seq<Event>): (Directory, seq<Token>)
    decreases |events|
  {
    if events == [] then
      (users, [])
    else
      var s := Step(users, cfg, events[0].request, events[0].at);
      var rest := Run(s.0, cfg, events[1..]);
      (rest.0, (if s.1.Some? then [s.1.value] else []) + rest.1)
  }

  /** Across any history, records are never changed or removed, and the subject
      of every token issued is a user of the final directory. */
  lemma {:induction false} RunKeepsIssuedSubjects(users: Directory, cfg: Config, events: seq<Event>)
    decreases |events|
    ensures Extends(users, Run(users, cfg, events).0)
    ensures forall i :: 0 <= i < |Run(users, cfg, events).1| ==>
              SubjectIsUser(Run(users, cfg, events).1[i], Run(users, cfg, events).0)
  {
    if events != [] {
      var s := Step(users, cfg, events[0].request, events[0].at);
      RunKeepsIssuedSubjects(s.0, cfg, events[1..]);
      var rest := Run(s.0, cfg, events[1..]);
      var head := if s.1.Some? then [s.1.value] else [];
      assert Run(users, cfg, events) == (rest.0, head + rest.1);
      forall i | 0 <= i < |head + rest.1|
        ensures SubjectIsUser((head + rest.1)[i], rest.0)
      {
        if i < |head| {
          assert (head + rest.1)[i] == s.1.value;
        } else {
          assert (head + rest.1)[i] == rest.1[i - |head|];
        }
      }
    }
  }

  /** The history registered `username` with a password hashing to `hashed`. */
  ghost predicate RegisteredIn(events: seq<Event>, crypt: Crypt, username: string, hashed: string)
  {
    exists i :: 0 <= i < |events| && events[i].request.RegisterRequest?
      && events[i].request.username == username && crypt.hash(events[i].request.password) == hashed
  }

  /** Registration is the only route that writes a password hash: every user a
      history adds either carries the empty hash of a federated account or the
      hash of a password registered for it. */
  lemma {:induction false} RunProvenance(users: Directory, cfg: Config, events: seq<Event>)
    decreases |events|
    ensures forall u :: u in Run(users, cfg, events).0 && u !in users ==>
              Run(users, cfg, events).0[u] == "" || RegisteredIn(events, cfg.crypt, u, Run(users, cfg, events).0[u])
  {
    if events != [] {
      var s := Step(users, cfg, events[0].request, events[0].at);
      RunProvenance(s.0, cfg, events[1..]);
      RunKeepsIssuedSubjects(s.0, cfg, events[1..]);
      var final := Run(users, cfg, events).0;
      assert final == Run(s.0, cfg, events[1..]).0;
      forall u | u in final && u !in users
        ensures final[u] == "" || RegisteredIn(events, cfg.crypt, u, final[u])
      {
        if u in s.0 {
          assert final[u] == s.0[u];
          if s.0[u] != "" {
            assert events[0].request.RegisterRequest?;
            assert RegisteredIn(events, cfg.crypt, u, final[u]) by {
              assert 0 < |events|;
            }
          }
        } else if final[u] != "" {
          var rest := events[1..];
          assert RegisteredIn(rest, cfg.crypt, u, final[u]);
          var j :| 0 <= j < |rest| && rest[j].request.RegisterRequest?
            && rest[j].request.username == u && cfg.crypt.hash(rest[j].request.password) == final[u];
          assert events[j + 1] == rest[j];
        }
      }
    }
  }

  /** A federated request repeated later finds the user the first one created
      and changes nothing. */
  lemma FederatedRequestIsIdempotent(users: Directory, cfg: Config, req: Request, first: int, second: int)
    requires IsFederated(req)
    ensures var s := Step(users, cfg, req, first);
            Step(s.0, cfg, req, second).0 == s.0
  {
  }

  /** The trust gap of the ID-token route: a token anyone can make, carrying
      only the `email` of an existing user (a password user included), is
      accepted without a write and yields a session for that user which
      verifies. */
  lemma IdTokenRouteImpersonates(users: Directory, cfg: Config, u: string, now: int)
    requires u != "" && u in users && cfg.expireMinutes >= 0
    ensures var s := Step(users, cfg, MicrosoftTokenRequest(Decoded(map["email" := JStr(u)])), now);
            s.0 == users && s.1.Some? && Subject(s.1.value) == JStr(u) && VerifyToken(s.1.value, cfg.key, now).Ok?
  {
  }

  /** Register, then log in: the registered password yields a token that
      verifies with subject `username` until it expires, and a password the
      check rejects yields the 401. */
  lemma RegisterThenLogin(users: Directory, cfg: Config, username: string, password: string, wrong: string,
                          now: int, later: int)
    requires username !in users
    requires cfg.crypt.verify(password, cfg.crypt.hash(password))
    requires !cfg.crypt.verify(wrong, cfg.crypt.hash(password))
    requires 0 < cfg.expireMinutes && now <= later <= now + cfg.expireMinutes * 60
    ensures var registered := Register(users, cfg.crypt, username, password).users;
            var ok := LoginStep(registered, cfg, username, password, now);
            ok.Ok? && VerifyToken(ok.value.accessToken, cfg.key, later).Ok?
            && Get(VerifyToken(ok.value.accessToken, cfg.key, later).value, "sub") == JStr(username)
            && LoginStep(registered, cfg, username, wrong, now) == Err(IncorrectCredentials)
  {
    var registered := Register(users, cfg.crypt, username, password).users;
    var ok := LoginStep(registered, cfg, username, password, now);
    IssueThenVerify(cfg.key, username, Some(cfg.expireMinutes * 60), now, later);
    assert ok.value.accessToken == CreateAccessToken(cfg.key, map["sub" := JStr(username)], Some(cfg.expireMinutes * 60), now);
  }

  /** The directory of users, updated in place by the routes. */
  class UserStore {
    var users: Directory

    constructor ()
      ensures users == map[]
    {
      users := map[];
    }

    /** POST /register. */
    method Register(cfg: Config, username: string, password: string) returns (r: Result<User>)
      modifies this
      ensures Outcome(users, r) == Users.Register(old(users), cfg.crypt, username, password)
      ensures r.Err? ==> users == old(users) && r.failure == UserAlreadyRegistered
      ensures r.Ok? ==> users == old(users)[username := cfg.crypt.hash(password)]
    {
      if FindUser(users, username).Some? {
        return Err(UserAlreadyRegistered);
      }
      var hashed := cfg.crypt.hash(password);
      users := users[username := hashed];
      r := Ok(User(username, hashed));
    }

    /** The find-or-create block shared by the three federated routes. */
    method ResolveOrCreate(email: string) returns (user: User)
      modifies this
      ensures (users, user) == Provision(old(users), email)
      ensures user.username == email && email in users && users[email] == user.hashedPassword
      ensures email in old(users) ==> users == old(users)
      ensures email !in old(users) ==> users == old(users)[email := ""] && user.hashedPassword == ""
    {
      var found := FindUser(users, email);
      if found.Some? {
        return found.value;
      }
      users := users[email := ""];
      user := User(email, "");
    }

    /** POST /login. */
    method Login(cfg: Config, username: string, password: string, now: int) returns (r: Result<Bearer>)
      ensures r == LoginStep(users, cfg, username, password, now)
      ensures r.Ok? ==> SubjectIsUser(r.value.accessToken, users)
    {
      var user := Authenticate(users, cfg.crypt, username, password);
      if user.None? {
        return Err(IncorrectCredentials);
      }
      r := Ok(Session(cfg, user.value.username, now));
    }

    /** Provisioning and token issue once a provider step has produced `email`. */
    method CompleteFederatedLogin(cfg: Config, email: Result<string>, now: int) returns (r: Result<Bearer>)
      modifies this
      ensures Outcome(users, r) == FederatedLogin(old(users), cfg, email, now)
      ensures r.Err? ==> users == old(users)
      ensures r.Ok? ==> SubjectIsUser(r.value.accessToken, users)
    {
      if email.Err? {
        return Err(email.failure);
      }
      var user := ResolveOrCreate(email.value);
      r := Ok(Session(cfg, user.username, now));
    }

    /** POST /auth/google. */
    method GoogleAuth(cfg: Config, answer: GoogleAnswer, now: int) returns (r: Result<Bearer>)
      modifies this
      ensures Outcome(users, r) == FederatedLogin(old(users), cfg, GoogleEmail(answer), now)
      ensures r.Ok? ==> SubjectIsUser(r.value.accessToken, users)
    {
      r := CompleteFederatedLogin(cfg, GoogleEmail(answer), now);
    }

    /** POST /auth/microsoft. */
    method MicrosoftAuth(cfg: Config, exchange: MicrosoftExchange, now: int) returns (r: Result<Bearer>)
      modifies this
      ensures Outcome(users, r) == FederatedLogin(old(users), cfg, MicrosoftCodeEmail(exchange), now)
      ensures r.Ok? ==> SubjectIsUser(r.value.accessToken, users)
    {
      r := CompleteFederatedLogin(cfg, MicrosoftCodeEmail(exchange), now);
    }

    /** POST /auth/microsoft/token, with the missing-email failure reported as
        the 400 the handler raises. */
    method MicrosoftTokenAuth(cfg: Config, decoded: UnverifiedIdToken, now: int) returns (r: Result<Bearer>)
      modifies this
      ensures Outcome(users, r) == FederatedLogin(old(users), cfg, MicrosoftIdTokenEmail(decoded), now)
      ensures r.Ok? ==> SubjectIsUser(r.value.accessToken, users)
    {
      r := CompleteFederatedLogin(cfg, MicrosoftIdTokenEmail(decoded), now);
    }

    /** Handle one request; the directory moves as `Step` says. */
    method Handle(cfg: Config, req: Request, now: int) returns (issued: Option<Token>)
      modifies this
      ensures (users, issued) == Step(old(users), cfg, req, now)
    {
      match req
      case RegisterRequest(u, p) =>
        var _ := Register(cfg, u, p);
        issued := None;
      case LoginRequest(u, p) =>
        var r := Login(cfg, u, p, now);
        issued := if r.Ok? then Some(r.value.accessToken) else None;
      case GoogleRequest(answer) =>
        var r := GoogleAuth(cfg, answer, now);
        issued := if r.Ok? then Some(r.value.accessToken) else None;
      case MicrosoftRequest(exchange) =>
        var r := MicrosoftAuth(cfg, exchange, now);
        issued := if r.Ok? then Some(r.value.accessToken) else None;
      case MicrosoftTokenRequest(decoded) =>
        var r := MicrosoftTokenAuth(cfg, decoded, now);
        issued := if r.Ok? then Some(r.value.accessToken) else None;
    }
  }
}
