/** The user directory and the rules that read and write it, as functions of the
    directory's value. The directory maps each username to its password hash;
    the empty hash marks a user created by federated login, who has no local
    password. Password hashing is opaque: a `Crypt` supplies the one-way hash
    and the check of a password against a stored hash. */
module Users {
  import opened Common

  datatype User = User(username: string, hashedPassword: string)

  /** Username to hashed password: the `users` table keyed by its unique username. */
  type Directory = map<string, string>

  /** The password-hashing context: `hash` as in `pwd_context.hash`, `verify` as
      in `pwd_context.verify(password, hash)`. Both are left uninterpreted. */
  datatype Crypt = Crypt(hash: string -> string, verify: (string, string) -> bool)

  /** The directory after a request, with the request's answer. */
  datatype Outcome<T> = Outcome(users: Directory, result: Result<T>)

  /** `after` keeps every record of `before` exactly as it was: records are created
      once and never changed or removed. */
  ghost predicate Extends(before: Directory, after: Directory)
  {
    forall u :: u in before ==> u in after && after[u] == before[u]
  }

  /** `get_user_by_username`: the record stored under `username`, if any. */
  function FindUser(users: Directory, username: string): (u: Option<User>)
    ensures u.Some? <==> username in users
    ensures u.Some? ==> u.value.username == username && u.value.hashedPassword == users[username]
  {
    if username in users then Some(User(username, users[username])) else None
  }

  /** `authenticate_user`: the stored user when the username is known and the
      password checks against its hash. An unknown user and a wrong password
      give the same `None`. */
  function Authenticate(users: Directory, crypt: Crypt, username: string, password: string): (u: Option<User>)
    ensures u.Some? <==> username in users && crypt.verify(password, users[username])
    ensures u.Some? ==> u.value == User(username, users[username])
  {
    match FindUser(users, username)
    case None => None
    case Some(user) => if crypt.verify(password, user.hashedPassword) then Some(user) else None
  }

  /** `register_user` with `create_user`: a taken username fails before anything
      is written; a fresh one gets exactly one new record carrying the hash of
      its password. */
  function Register(users: Directory, crypt: Crypt, username: string, password: string): (o: Outcome<User>)
    ensures o.result.Ok? <==> username !in users
    ensures o.result.Err? ==> o.result.failure == UserAlreadyRegistered && o.users == users
    ensures o.result.Ok? ==> o.result.value == User(username, crypt.hash(password))
    ensures o.result.Ok? ==> o.users.Keys == users.Keys + {username} && o.users[username] == crypt.hash(password)
    ensures Extends(users, o.users)
  {
    if FindUser(users, username).Some? then
      Outcome(users, Err(UserAlreadyRegistered))
    else
      var hashed := crypt.hash(password);
      Outcome(users[username := hashed], Ok(User(username, hashed)))
  }

  /** Find-or-create of a federated identity: the stored record when `email` is
      already a username, otherwise one new record `{email, ""}`. The result is
      always the record now stored under `email`. */
  function Provision(users: Directory, email: string): (o: (Directory, User))
    ensures o.1.username == email && email in o.0 && o.0[email] == o.1.hashedPassword
    ensures email in users ==> o.0 == users
    ensures email !in users ==> o.0.Keys == users.Keys + {email} && o.1.hashedPassword == ""
    ensures Extends(users, o.0)
  {
    match FindUser(users, email)
    case Some(user) => (users, user)
    case None => (users[email := ""], User(email, ""))
  }

  /** Provisioning is idempotent: a second call with the same email is a pure
      lookup that returns the same record. */
  lemma ProvisionIdempotent(users: Directory, email: string)
    ensures Provision(Provision(users, email).0, email) == Provision(users, email)
  {
  }

  /** A second registration of the same username fails and writes nothing. */
  lemma RegisterTwiceFails(users: Directory, crypt: Crypt, username: string, p1: string, p2: string)
    ensures var o := Register(users, crypt, username, p1);
            Register(o.users, crypt, username, p2) == Outcome(o.users, Err(UserAlreadyRegistered))
  {
  }

  /** After a registration, the new user authenticates with the registered
      password whenever the hash function and its check agree on it, and is
      refused with any password the check rejects. */
  lemma RegisterThenAuthenticate(users: Directory, crypt: Crypt, username: string, password: string, attempt: string)
    requires username !in users
    ensures var o := Register(users, crypt, username, password);
            Authenticate(o.users, crypt, username, attempt).Some? <==> crypt.verify(attempt, crypt.hash(password))
  {
  }

  /** A federated user can log in with a password only if the opaque check
      accepts that password against the empty hash. */
  lemma FederatedUserPassword(users: Directory, crypt: Crypt, email: string, password: string)
    requires email !in users
    ensures Authenticate(Provision(users, email).0, crypt, email, password).Some? <==> crypt.verify(password, "")
  {
  }
}
