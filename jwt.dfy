/** Access tokens (app/auth/jwt.py). Signing and verifying (HS256 under the
    configured secret, with jose's own expiry check) stay abstract: `encode`
    turns a claim set into a token string and `decode` either returns the
    claim set or fails with a JWTError message. */
module Jwt {
  import opened Wrappers
  import opened Strings
  import opened Http
  import Config

  /** A JSON value in a decoded claim set. `Other` stands for arrays and
      objects, on which Python's `int()` raises TypeError. */
  datatype Claim = Str(s: string) | Int(i: int) | Bool(b: bool) | Null | Other

  type Payload = map<string, Claim>

  const NOT_AUTHENTICATED := HttpError(UNAUTHORIZED, "Not authenticated", true)
  const INVALID_TOKEN := HttpError(UNAUTHORIZED, "Invalid or expired token", true)
  const INVALID_PAYLOAD := HttpError(UNAUTHORIZED, "Invalid token payload", false)
  const INVALID_USER_ID := HttpError(UNAUTHORIZED, "Invalid user id", false)

  /** The `exp` claim (section 4.1.4 of RFC 7519) of a token issued at `now`
      (seconds since the epoch). */
  function ExpiryAt(now: int): int
  {
    now + Config.ACCESS_TOKEN_EXPIRE_MINUTES * 60
  }

  /** The claim set `create_access_token` signs: a copy of `data` with `exp`
      set (replacing any `exp` the caller supplied). */
  function AccessClaims(data: Payload, now: int): (r: Payload)
    ensures r.Keys == data.Keys + {"exp"}
    ensures r["exp"] == Int(now + 7 * 24 * 60 * 60)
    ensures forall k :: k in data && k != "exp" ==> r[k] == data[k]
  {
    data["exp" := Int(ExpiryAt(now))]
  }

  function CreateAccessToken(data: Payload, now: int, encode: Payload -> string): string
  {
    encode(AccessClaims(data, now))
  }

  /** `decode_token`: a decoding failure becomes `None` instead of an error. */
  function DecodeToken(token: string, decode: string -> Result<Payload, string>): (r: Option<Payload>)
    ensures r.None? <==> decode(token).Err?
    ensures r.Some? ==> r.value == decode(token).value
  {
    match decode(token)
    case Ok(p) => Some(p)
    case Err(_) => None
  }

  /** Python's `int(v)` on a claim value: strings are parsed, integers kept,
      booleans become 1 or 0, arrays and objects are refused. */
  function ClaimToInt(c: Claim): Option<int>
  {
    match c
    case Str(s) => ParseInt(s)
    case Int(i) => Some(i)
    case Bool(b) => Some(if b then 1 else 0)
    case Null => None
    case Other => None
  }

  /** `payload.get("sub")` is not None. */
  predicate HasSubject(p: Payload)
  {
    "sub" in p && p["sub"] != Null
  }

  /** `get_current_user_id`: the bearer credential (section 2.1 of RFC 6750)
      is required, must decode to a non-empty claim set, must carry a `sub`
      claim (section 4.1.2 of RFC 7519), and `sub` must convert to an
      integer. The first check that fails decides the error. */
  function GetCurrentUserId(credentials: Option<string>, decode: string -> Result<Payload, string>): (r: Result<int, HttpError>)
    ensures r == Err(NOT_AUTHENTICATED) <==> credentials.None?
    ensures r == Err(INVALID_TOKEN) <==>
      credentials.Some? && (decode(credentials.value).Err? || decode(credentials.value).value == map[])
    ensures r == Err(INVALID_PAYLOAD) <==>
      credentials.Some? && decode(credentials.value).Ok? && decode(credentials.value).value != map[]
      && !HasSubject(decode(credentials.value).value)
    ensures r == Err(INVALID_USER_ID) <==>
      credentials.Some? && decode(credentials.value).Ok? && decode(credentials.value).value != map[]
      && HasSubject(decode(credentials.value).value)
      && ClaimToInt(decode(credentials.value).value["sub"]).None?
    ensures r.Ok? <==>
      credentials.Some? && decode(credentials.value).Ok? && decode(credentials.value).value != map[]
      && HasSubject(decode(credentials.value).value)
      && ClaimToInt(decode(credentials.value).value["sub"]).Some?
    ensures r.Ok? ==> Some(r.value) == ClaimToInt(decode(credentials.value).value["sub"])
    ensures r.Err? ==> r.error.status == UNAUTHORIZED
  {
    if credentials.None? then Err(NOT_AUTHENTICATED)
    else
      match DecodeToken(credentials.value, decode)
      case None => Err(INVALID_TOKEN)
      case Some(payload) =>
        if payload == map[] then Err(INVALID_TOKEN)
        else if !HasSubject(payload) then Err(INVALID_PAYLOAD)
        else
          match ClaimToInt(payload["sub"])
          case None => Err(INVALID_USER_ID)
          case Some(id) => Ok(id)
  }

  /** Without credentials the decoder is never consulted: the outcome is the
      same whatever it would have said. */
  lemma MissingCredentialsIgnoreDecoder(d1: string -> Result<Payload, string>, d2: string -> Result<Payload, string>)
    ensures GetCurrentUserId(None, d1) == GetCurrentUserId(None, d2) == Err(NOT_AUTHENTICATED)
  {
  }

  /** The claims of a token issued for user `id`, as register and login issue
      it: `{"sub": str(id)}` plus the expiry. */
  function SubjectClaims(id: int, now: int): Payload
  {
    AccessClaims(map["sub" := Str(IntToString(id))], now)
  }

  /** A token issued for user `id`, presented to the gate and decoded by a
      decoder that gives back what was signed, lets user `id` through. */
  lemma GateAcceptsIssuedToken(id: int, now: int, encode: Payload -> string, decode: string -> Result<Payload, string>)
    requires decode(encode(SubjectClaims(id, now))) == Ok(SubjectClaims(id, now))
    ensures GetCurrentUserId(Some(CreateAccessToken(map["sub" := Str(IntToString(id))], now, encode)), decode) == Ok(id)
  {
    var p := SubjectClaims(id, now);
    assert "sub" in p && p["sub"] == Str(IntToString(id));
    ParseIntOfIntToString(id);
  }
}
