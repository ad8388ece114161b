/** Registration and login (app/routers/auth.py) over the `users` table.
    bcrypt stays abstract: `hash` is the salted hash of a password and
    `verify(p, h)` its check. */
module AuthRoutes {
  import opened Wrappers
  import opened Strings
  import opened Http
  import opened Models
  import Jwt

  const EMAIL_TAKEN := HttpError(BAD_REQUEST, "Email already registered", false)
  const BAD_CREDENTIALS := HttpError(UNAUTHORIZED, "Invalid email or password", false)

  /** The user fields a response exposes. */
  datatype UserResponse = UserResponse(id: int, email: string, fullName: Option<string>, createdAt: int)

  datatype TokenResponse = TokenResponse(accessToken: string, tokenType: string, user: UserResponse)

  function ToUserResponse(u: User): UserResponse
  {
    UserResponse(u.id, u.email, u.fullName, u.createdAt)
  }

  /** The response for a signed-in user: a token whose subject is `str(id)`. */
  function TokenFor(u: User, now: int, encode: Jwt.Payload -> string): TokenResponse
  {
    TokenResponse(Jwt.CreateAccessToken(map["sub" := Jwt.Str(IntToString(u.id))], now, encode), "bearer", ToUserResponse(u))
  }

  /** `register`: a taken email is refused with 400 and nothing is added;
      otherwise exactly one user is appended, with the hash of the password,
      and a token for that user is returned. */
  method Register(db: Database, email: string, password: string, fullName: Option<string>,
                  now: int, hash: string -> string, encode: Jwt.Payload -> string)
    returns (r: Result<TokenResponse, HttpError>)
    requires db.Valid()
    modifies db
    ensures db.Valid()
    ensures old(FindUserByEmail(db.users, email)).Some? ==>
      r == Err(EMAIL_TAKEN) && db.users == old(db.users) && db.nextUserId == old(db.nextUserId)
    ensures old(FindUserByEmail(db.users, email)).None? ==>
      var u := User(old(db.nextUserId), email, hash(password), fullName, now);
      && db.users == old(db.users) + [u]
      && db.nextUserId == old(db.nextUserId) + 1
      && r == Ok(TokenFor(u, now, encode))
    ensures db.accounts == old(db.accounts) && db.videos == old(db.videos)
    ensures db.snapshots == old(db.snapshots) && db.insights == old(db.insights)
    ensures db.nextAccountId == old(db.nextAccountId) && db.nextVideoId == old(db.nextVideoId)
    ensures db.nextSnapshotId == old(db.nextSnapshotId) && db.nextInsightId == old(db.nextInsightId)
  {
    var existing := FindUserByEmail(db.users, email);
    if existing.Some? {
      return Err(EMAIL_TAKEN);
    }
    var user := User(db.nextUserId, email, hash(password), fullName, now);
    db.users := db.users + [user];
    db.nextUserId := db.nextUserId + 1;
    r := Ok(TokenFor(user, now, encode));
  }

  /** `login`: the user with this email whose stored hash verifies against
      the password gets a token; an unknown email and a wrong password get the
      same 401. */
  function Login(users: seq<User>, email: string, password: string, now: int,
                 verify: (string, string) -> bool, encode: Jwt.Payload -> string)
    : (r: Result<TokenResponse, HttpError>)
    ensures r.Ok? <==> (exists i :: 0 <= i < |users| && FindUserByEmail(users, email) == Some(users[i])
                                 && verify(password, users[i].hashedPassword))
    ensures r.Err? ==> r.error == BAD_CREDENTIALS
    ensures r.Ok? ==> (exists i :: 0 <= i < |users| && users[i].email == email
                                && r.value == TokenFor(users[i], now, encode))
  {
    match FindUserByEmail(users, email)
    case None => Err(BAD_CREDENTIALS)
    case Some(u) =>
      if !verify(password, u.hashedPassword) then Err(BAD_CREDENTIALS)
      else Ok(TokenFor(u, now, encode))
  }

  /** A registered user logs in with the password they registered with, and
      receives a token for their own id. */
  lemma LoginAfterRegister(users: seq<User>, u: User, password: string, now: int,
                           hash: string -> string, verify: (string, string) -> bool,
                           encode: Jwt.Payload -> string)
    requires forall p :: verify(p, hash(p))
    requires UniqueEmails(users + [u]) && u.hashedPassword == hash(password)
    ensures Login(users + [u], u.email, password, now, verify, encode) == Ok(TokenFor(u, now, encode))
  {
    var all := users + [u];
    FindUserByEmailUnique(all, |users|);
    assert verify(password, hash(password));
  }

  /** Register keeps emails unique: a successful registration used an email
      no existing user had. */
  lemma RegisterKeepsEmailsUnique(users: seq<User>, u: User)
    requires UniqueEmails(users) && FindUserByEmail(users, u.email).None?
    ensures UniqueEmails(users + [u])
  {
  }
}
