/** The account handlers of routes/auth.js: registration, login and logout
    over a collection of users and the per-request session. bcrypt is left
    abstract: a hash is a salt plus a digest made by an arbitrary function of
    salt and password, and the salt is supplied by the caller. */
module Accounts {
  import opened Wrappers
  import opened Text
  import opened TaskModel

  /** A stored bcrypt hash: the salt and the digest of salt and password. */
  datatype PasswordHash = PasswordHash(salt: string, digest: string)

  /** The one-way function bcrypt computes, as a parameter of the model. */
  type Digest = (string, string) -> string

  /** `bcrypt.hash(password, 10)` with the salt it draws. */
  function Hash(digest: Digest, password: string, salt: string): (h: PasswordHash)
    ensures h.salt == salt
  {
    PasswordHash(salt, digest(salt, password))
  }

  /** `bcrypt.compare(password, hash)`: the password hashed with the stored salt gives the stored digest. */
  predicate Compare(digest: Digest, password: string, h: PasswordHash)
  {
    digest(h.salt, password) == h.digest
  }

  /** A password always matches its own hash, whatever salt was drawn. */
  lemma CompareHash(digest: Digest, password: string, salt: string)
    ensures Compare(digest, password, Hash(digest, password, salt))
  {
  }

  /** A user document: the stored password is the hash, not the password. */
  datatype User = User(id: UserId, username: string, password: PasswordHash)

  const MinPasswordLength: nat := 6

  datatype AuthError =
    | MissingCredentials
    | InvalidCredentials
    | MissingFields
    | PasswordMismatch
    | PasswordTooShort
    | UsernameTaken
  {
    /** The flash message each error leaves in the session. */
    function Message(): string
    {
      match this
      case MissingCredentials => "Username and password are required"
      case InvalidCredentials => "Invalid username or password"
      case MissingFields => "Username and password are required"
      case PasswordMismatch => "Password do not match"
      case PasswordTooShort => "Password must be at least 6 characters"
      case UsernameTaken => "Username already exists"
    }
  }

  predicate AllPresent(username: Option<string>, password: Option<string>, confirm: Option<string>)
  {
    Truthy(username) && Truthy(password) && Truthy(confirm)
  }

  /** The checks of POST /register, in the order the handler makes them:
      a missing field, then differing passwords, then a short password,
      then a username already in use. The first that fails is reported. */
  function RegistrationError(users: map<string, User>, username: Option<string>, password: Option<string>,
                             confirm: Option<string>): (r: Option<AuthError>)
    ensures r == Some(MissingFields) <==> !AllPresent(username, password, confirm)
    ensures r == Some(PasswordMismatch) <==>
              AllPresent(username, password, confirm) && password.value != confirm.value
    ensures r == Some(PasswordTooShort) <==>
              AllPresent(username, password, confirm) && password.value == confirm.value
              && |password.value| < MinPasswordLength
    ensures r == Some(UsernameTaken) <==>
              AllPresent(username, password, confirm) && password.value == confirm.value
              && |password.value| >= MinPasswordLength && username.value in users
    ensures r.None? <==>
              AllPresent(username, password, confirm) && password.value == confirm.value
              && |password.value| >= MinPasswordLength && username.value !in users
  {
    if !AllPresent(username, password, confirm) then Some(MissingFields)
    else if password.value != confirm.value then Some(PasswordMismatch)
    else if |password.value| < MinPasswordLength then Some(PasswordTooShort)
    else if username.value in users then Some(UsernameTaken)
    else None
  }

  /** POST /register as a function of the stored users: either an error and
      no change, or exactly one new user whose password is stored hashed. */
  function RegisterStep(users: map<string, User>, id: UserId, digest: Digest, username: Option<string>,
                        password: Option<string>, confirm: Option<string>, salt: string)
    : (s: (Result<User, AuthError>, map<string, User>))
    ensures s.0.Failure? ==> s.1 == users && Some(s.0.error) == RegistrationError(users, username, password, confirm)
    ensures s.0.Success? <==> RegistrationError(users, username, password, confirm).None?
    ensures s.0.Success? ==>
              && s.0.value == User(id, username.value, Hash(digest, password.value, salt))
              && username.value !in users
              && s.1 == users[username.value := s.0.value]
              && |s.1| == |users| + 1
  {
    match RegistrationError(users, username, password, confirm)
    case Some(e) => (Failure(e), users)
    case None =>
      var u := User(id, username.value, Hash(digest, password.value, salt));
      (Success(u), users[username.value := u])
  }

  /** POST /login: the user found by exact username whose password matches,
      and one undifferentiated error when there is none. */
  function Authenticate(users: map<string, User>, digest: Digest, username: Option<string>,
                        password: Option<string>): (r: Result<User, AuthError>)
    ensures !(Truthy(username) && Truthy(password)) ==> r == Failure(MissingCredentials)
    ensures Truthy(username) && Truthy(password) && r.Failure? ==> r.error == InvalidCredentials
    ensures r.Success? <==>
              Truthy(username) && Truthy(password) && username.value in users
              && Compare(digest, password.value, users[username.value].password)
    ensures r.Success? ==> r.value == users[username.value]
  {
    if !Truthy(username) || !Truthy(password) then Failure(MissingCredentials)
    else if username.value !in users then Failure(InvalidCredentials)
    else if !Compare(digest, password.value, users[username.value].password) then Failure(InvalidCredentials)
    else Success(users[username.value])
  }

  /** An unknown username and a wrong password for a known one give the same
      answer, so a failed login does not reveal whether the account exists. */
  lemma UnknownUserLooksLikeWrongPassword(unknown: map<string, User>, known: map<string, User>,
                                          digest: Digest, username: string, password: string)
    requires username != "" && password != ""
    requires username !in unknown
    requires username in known && !Compare(digest, password, known[username].password)
    ensures Authenticate(unknown, digest, Some(username), Some(password))
         == Authenticate(known, digest, Some(username), Some(password))
         == Failure(InvalidCredentials)
  {
  }

  /** Registering and then logging in with the same credentials succeeds and
      yields the user just created. */
  lemma RegisterThenLogin(users: map<string, User>, id: UserId, digest: Digest, username: string,
                          password: string, salt: string)
    requires RegisterStep(users, id, digest, Some(username), Some(password), Some(password), salt).0.Success?
    ensures var s := RegisterStep(users, id, digest, Some(username), Some(password), Some(password), salt);
            Authenticate(s.1, digest, Some(username), Some(password)) == s.0
            && s.0.value.id == id && s.0.value.username == username
  {
    CompareHash(digest, password, salt);
  }

  /** What `req.session` holds for this model. */
  class Session {
    var userId: Option<UserId>
    var username: Option<string>

    constructor ()
      ensures userId == None && username == None
    {
      userId := None;
      username := None;
    }

    /** GET /logout: `req.session.destroy()`. Whatever the session held, and
        whether anyone was logged in or not, the next request finds it empty. */
    method Destroy()
      modifies this
      ensures userId == None && username == None
    {
      userId := None;
      username := None;
    }
  }

  /** The user collection together with the bcrypt function it is hashed with. */
  class Accounts {
    const digest: Digest
    var users: map<string, User>
    var nextId: UserId

    /** Each user is stored under its own username and has an id already
        handed out, and no two users share an id: tasks and sessions name
        their user by id alone. */
    ghost predicate Valid()
      reads this
    {
      && (forall name :: name in users ==> users[name].username == name && users[name].id < nextId)
      && (forall a, b :: a in users && b in users && a != b ==> users[a].id != users[b].id)
    }

    constructor (digest: Digest)
      ensures Valid() && this.digest == digest && users == map[] && nextId == 0
    {
      this.digest := digest;
      users := map[];
      nextId := 0;
    }

    /** POST /register. */
    method Register(username: Option<string>, password: Option<string>, confirm: Option<string>, salt: string)
      returns (r: Result<User, AuthError>)
      requires Valid()
      modifies this
      ensures Valid()
      ensures (r, users) == RegisterStep(old(users), old(nextId), digest, username, password, confirm, salt)
      ensures nextId == if r.Success? then old(nextId) + 1 else old(nextId)
    {
      var failure := RegistrationError(users, username, password, confirm);
      if failure.Some? {
        return Failure(failure.value);
      }
      var u := User(nextId, username.value, Hash(digest, password.value, salt));
      users := users[username.value := u];
      nextId := nextId + 1;
      r := Success(u);
    }

    /** POST /login. On success the session names the user found; on any
        failure the session is left as it was. */
    method Login(session: Session, username: Option<string>, password: Option<string>)
      returns (r: Result<User, AuthError>)
      requires Valid()
      modifies session
      ensures r == Authenticate(users, digest, username, password)
      ensures r.Success? ==> session.userId == Some(r.value.id) && session.username == username
      ensures r.Failure? ==> session.userId == old(session.userId) && session.username == old(session.username)
    {
      if !Truthy(username) || !Truthy(password) {
        return Failure(MissingCredentials);
      }
      if username.value !in users {
        return Failure(InvalidCredentials);
      }
      var user := users[username.value];
      if !Compare(digest, password.value, user.password) {
        return Failure(InvalidCredentials);
      }
      session.userId := Some(user.id);
      session.username := Some(user.username);
      r := Success(user);
    }
  }
}
