/** Application settings read from the environment (app/core/config.py).
    An environment variable is `None` when unset and `Some(value)` when set;
    Python treats an unset and an empty value alike wherever it tests the
    value's truth. */
module Config {
  import opened Wrappers
  import opened Strings

  const APP_NAME := "AI Creator Analytics"
  const ALGORITHM := "HS256"

  /** Token lifetime: seven days, in minutes. */
  const ACCESS_TOKEN_EXPIRE_MINUTES: int := 60 * 24 * 7

  const LOCAL_DATABASE_URL := "sqlite+aiosqlite:///./creator_analytics.db"
  const SERVERLESS_DATABASE_URL := "sqlite+aiosqlite:////tmp/creator_analytics.db"
  const ASYNC_POSTGRES_SCHEME := "postgresql+asyncpg://"

  const DEFAULT_REDIS_URL := "redis://localhost:6379/0"
  const DEFAULT_SECRET_KEY := "change-me-in-production-secret-key"
  const DEFAULT_BROKER_URL := "redis://localhost:6379/1"

  /** Python's truth test on an optional string. */
  predicate IsSet(v: Option<string>) { v.Some? && |v.value| > 0 }

  /** `os.getenv(name, default)`: an empty value is kept, not defaulted. */
  function GetEnv(v: Option<string>, default: string): string
  {
    if v.Some? then v.value else default
  }

  lemma TokenLifetime()
    ensures ACCESS_TOKEN_EXPIRE_MINUTES == 10080
  {
  }

  /** DEBUG: the variable, lower-cased, reads "true"; unset means "false". */
  function Debug(env: Option<string>): (r: bool)
    ensures r <==> (env.Some? && |env.value| == 4
                    && env.value[0] in "tT" && env.value[1] in "rR"
                    && env.value[2] in "uU" && env.value[3] in "eE")
  {
    var low := Lower(GetEnv(env, "false"));
    assert |low| == 4 ==> (low == "true" <==> low[0] == 't' && low[1] == 'r' && low[2] == 'u' && low[3] == 'e');
    low == "true"
  }

  /** DATABASE_URL: a set value with the `postgres://` or `postgresql://`
      scheme is moved to the asyncpg driver, any other set value is used as it
      is, and an unset or empty one falls back to a SQLite file, under /tmp
      when VERCEL is set. */
  function DatabaseUrl(env: Option<string>, vercel: Option<string>): (r: string)
    ensures IsSet(env) && StartsWith(env.value, "postgres://") ==>
      r == ASYNC_POSTGRES_SCHEME + env.value[11..]
    ensures IsSet(env) && StartsWith(env.value, "postgresql://") ==>
      r == ASYNC_POSTGRES_SCHEME + env.value[13..]
    ensures IsSet(env) && !StartsWith(env.value, "postgres://") && !StartsWith(env.value, "postgresql://") ==>
      r == env.value
    ensures !IsSet(env) ==> r == if IsSet(vercel) then SERVERLESS_DATABASE_URL else LOCAL_DATABASE_URL
  {
    if IsSet(env) then
      var url := env.value;
      if StartsWith(url, "postgres://") then
        assert !StartsWith(url, "postgresql://") by {
          assert url[..11][8] == ':' && url[8] == url[..11][8];
        }
        ReplaceFirstAtStart(url, "postgres://", ASYNC_POSTGRES_SCHEME);
        ReplaceFirst(url, "postgres://", ASYNC_POSTGRES_SCHEME)
      else if StartsWith(url, "postgresql://") then
        ReplaceFirstAtStart(url, "postgresql://", ASYNC_POSTGRES_SCHEME);
        ReplaceFirst(url, "postgresql://", ASYNC_POSTGRES_SCHEME)
      else url
    else if IsSet(vercel) then SERVERLESS_DATABASE_URL
    else LOCAL_DATABASE_URL
  }

  /** CORS_ORIGINS: unset or empty allows every origin; otherwise one entry per
      comma-separated piece, each with its surrounding whitespace removed. */
  function CorsOrigins(env: Option<string>): (r: seq<string>)
    ensures !IsSet(env) ==> r == ["*"]
    ensures IsSet(env) ==> |r| == Occurrences(env.value, ',') + 1
    ensures IsSet(env) ==> |r| == |Split(env.value, ',')|
    ensures IsSet(env) ==> forall k :: 0 <= k < |r| ==> r[k] == Strip(Split(env.value, ',')[k])
    ensures IsSet(env) ==> forall k :: 0 <= k < |r| ==>
      ',' !in r[k] && (|r[k]| > 0 ==> !IsSpace(r[k][0]) && !IsSpace(r[k][|r[k]| - 1]))
  {
    if IsSet(env) then
      SplitCount(env.value, ',');
      StripAll(Split(env.value, ','))
    else ["*"]
  }

  /** `[x.strip() for x in pieces]` over comma-free pieces. */
  function StripAll(pieces: seq<string>): (r: seq<string>)
    requires forall k :: 0 <= k < |pieces| ==> ',' !in pieces[k]
    ensures |r| == |pieces|
    ensures forall k :: 0 <= k < |r| ==> r[k] == Strip(pieces[k])
    ensures forall k :: 0 <= k < |r| ==>
      ',' !in r[k] && (|r[k]| > 0 ==> !IsSpace(r[k][0]) && !IsSpace(r[k][|r[k]| - 1]))
  {
    seq(|pieces|, k requires 0 <= k < |pieces| => StripPiece(pieces[k]))
  }

  /** One stripped piece: a comma-free piece stays comma-free. */
  function StripPiece(p: string): (r: string)
    requires ',' !in p
    ensures ',' !in r
    ensures |r| > 0 ==> !IsSpace(r[0]) && !IsSpace(r[|r| - 1])
  {
    assert forall i :: 0 <= i < |Strip(p)| ==> Strip(p)[i] in p by {
      var k := StripSpec(p);
      assert forall i :: 0 <= i < |Strip(p)| ==> Strip(p)[i] == p[k + i];
    }
    Strip(p)
  }

  /** Writing a list of clean origins comma-separated into CORS_ORIGINS gives
      back that list. */
  lemma CorsOriginsOfList(origins: seq<string>)
    requires |origins| >= 1
    requires forall k :: 0 <= k < |origins| ==> |origins[k]| > 0 && ',' !in origins[k]
    requires forall k :: 0 <= k < |origins| ==> !IsSpace(origins[k][0]) && !IsSpace(origins[k][|origins[k]| - 1])
    ensures CorsOrigins(Some(Join(origins, ','))) == origins
  {
    var s := Join(origins, ',');
    SplitJoin(origins, ',');
    JoinNonEmpty(origins, ',');
    var r := CorsOrigins(Some(s));
    forall k | 0 <= k < |origins| ensures r[k] == origins[k] {
      StripUnchanged(origins[k]);
    }
  }

  lemma JoinNonEmpty(parts: seq<string>, sep: char)
    requires |parts| >= 1 && |parts[0]| > 0
    ensures |Join(parts, sep)| > 0
  {
  }
}
