/** The rewriting that turns the application's async database URL into the
    synchronous one the worker connects with (app/tasks/ai_tasks.py, lines
    16-22), on strings, with the rewriting's own guarantees. */
module SyncUrl {
  import opened Strings

  /** The worker's URL: an asyncpg URL loses its "+asyncpg" driver suffix,
      otherwise an aiosqlite URL loses "+aiosqlite", otherwise the URL is
      kept. Each branch then also rewrites the full scheme, which the first
      replacement has already removed. */
  function SyncDatabaseUrl(url: string): string
  {
    if Contains(url, "asyncpg") then
      ReplaceAll(ReplaceAll(url, "+asyncpg", ""), "postgresql+asyncpg", "postgresql")
    else if Contains(url, "aiosqlite") then
      ReplaceAll(ReplaceAll(url, "+aiosqlite", ""), "sqlite+aiosqlite", "sqlite")
    else url
  }

  /** A URL naming neither driver is used as it is. */
  lemma SyncKeepsPlainUrl(url: string)
    requires !Contains(url, "asyncpg") && !Contains(url, "aiosqlite")
    ensures SyncDatabaseUrl(url) == url
  {
  }

  /** A URL without any '+' is never changed either, even when it names a
      driver elsewhere (a database file called "aiosqlite.db", say), since
      every pattern the rewriting removes holds a '+'. */
  lemma SyncKeepsUrlWithoutPlus(url: string)
    requires '+' !in url
    ensures SyncDatabaseUrl(url) == url
  {
    ReplaceAllAbsentChar(url, "+asyncpg", "", '+');
    ReplaceAllAbsentChar(url, "postgresql+asyncpg", "postgresql", '+');
    ReplaceAllAbsentChar(url, "+aiosqlite", "", '+');
    ReplaceAllAbsentChar(url, "sqlite+aiosqlite", "sqlite", '+');
  }

  /** An asyncpg PostgreSQL URL maps to the plain PostgreSQL scheme with the
      rest kept, whenever the rest holds no "+asyncpg" of its own (a '+' in
      a password, or "asyncpg" in a host name, is kept as it is). */
  lemma SyncOfAsyncPostgres(rest: string)
    requires !Contains(rest, "+asyncpg")
    ensures SyncDatabaseUrl("postgresql+asyncpg://" + rest) == "postgresql://" + rest
  {
    AsyncPostgresNamesDriver(rest);
    AsyncPostgresDropsDriver(rest);
    PlainPostgresKept(rest);
  }

  /** An asyncpg URL takes the first branch. */
  lemma AsyncPostgresNamesDriver(rest: string)
    ensures Contains("postgresql+asyncpg://" + rest, "asyncpg")
  {
    var tail := "://" + rest;
    assert "postgresql+asyncpg://" + rest == "postgresql+" + "asyncpg" + tail;
    ContainsInfix("postgresql+", "asyncpg", tail);
  }

  /** The first replacement removes the one "+asyncpg" after the scheme name. */
  lemma AsyncPostgresDropsDriver(rest: string)
    requires !Contains(rest, "+asyncpg")
    ensures ReplaceAll("postgresql+asyncpg://" + rest, "+asyncpg", "") == "postgresql://" + rest
  {
    var tail := "://" + rest;
    NoDriverAfterScheme(rest);
    ReplaceAllOnceIn("postgresql+asyncpg://" + rest, "postgresql", "+asyncpg", tail, "", "postgresql://" + rest);
  }

  /** No "+asyncpg" follows the scheme separator. */
  lemma NoDriverAfterScheme(rest: string)
    requires !Contains(rest, "+asyncpg")
    ensures !Contains("://" + rest, "+asyncpg")
  {
    NotContainsSkipsPrefix("://", rest, "+asyncpg");
  }

  /** The second replacement finds no "postgresql+asyncpg" left to rewrite. */
  lemma PlainPostgresKept(rest: string)
    requires !Contains(rest, "+asyncpg")
    ensures ReplaceAll("postgresql://" + rest, "postgresql+asyncpg", "postgresql") == "postgresql://" + rest
  {
    var u := "postgresql://" + rest;
    NotContainsSkipsPrefix("postgresql://", rest, "+asyncpg");
    NotContainsExtended(u, "postgresql", "+asyncpg");
    assert "postgresql" + "+asyncpg" == "postgresql+asyncpg";
    ReplaceAllAbsent(u, "postgresql+asyncpg", "postgresql");
  }

  /** An aiosqlite URL maps to the plain SQLite scheme with the path kept,
      whenever the path has no '+' and no 'g' (so no "asyncpg" either). */
  lemma SyncOfAsyncSqlite(rest: string)
    requires '+' !in rest && 'g' !in rest
    ensures SyncDatabaseUrl("sqlite+aiosqlite" + rest) == "sqlite" + rest
  {
    AsyncSqliteNoAsyncpg(rest);
    AsyncSqliteNamesDriver(rest);
    AsyncSqliteDropsDriver(rest);
    assert '+' !in "sqlite";
    assert '+' !in "sqlite" + rest;
    ReplaceAllAbsentChar("sqlite" + rest, "sqlite+aiosqlite", "sqlite", '+');
  }

  /** Such a URL does not name asyncpg: it holds no 'g'. */
  lemma AsyncSqliteNoAsyncpg(rest: string)
    requires 'g' !in rest
    ensures !Contains("sqlite+aiosqlite" + rest, "asyncpg")
  {
    var url := "sqlite+aiosqlite" + rest;
    assert 'g' !in "sqlite+aiosqlite";
    assert 'g' !in url;
    ContainsAbsentChar(url, "asyncpg", 'g');
  }

  /** Such a URL names aiosqlite. */
  lemma AsyncSqliteNamesDriver(rest: string)
    ensures Contains("sqlite+aiosqlite" + rest, "aiosqlite")
  {
    assert "sqlite+aiosqlite" + rest == "sqlite+" + "aiosqlite" + rest;
    ContainsInfix("sqlite+", "aiosqlite", rest);
  }

  /** The first replacement removes the one "+aiosqlite" after "sqlite". */
  lemma AsyncSqliteDropsDriver(rest: string)
    requires '+' !in rest
    ensures ReplaceAll("sqlite+aiosqlite" + rest, "+aiosqlite", "") == "sqlite" + rest
  {
    ContainsAbsentChar(rest, "+aiosqlite", '+');
    ReplaceAllOnceIn("sqlite+aiosqlite" + rest, "sqlite", "+aiosqlite", rest, "", "sqlite" + rest);
  }
}
