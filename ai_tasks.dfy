/** The worker side (app/tasks/ai_tasks.py): the synchronous database URL the
    worker derives from the configured settings, and the weekly job that
    gives every user one mock suggestion. */
module AiTasks {
  import opened Wrappers
  import opened Strings
  import opened Models
  import opened SyncUrl
  import Config

  // ---------------------------------------------------------------------
  // SYNC_DATABASE_URL
  // ---------------------------------------------------------------------

  /** A PostgreSQL URL whose path names the SQLite driver. */
  function MixedUrl(host: string): string
  {
    "postgresql+asyncpg://" + (host + "/aiosqlite")
  }

  lemma MixedUrlNamesBoth(host: string)
    ensures Contains(MixedUrl(host), "asyncpg") && Contains(MixedUrl(host), "aiosqlite")
  {
    var rest := host + "/aiosqlite";
    ContainsInfix("postgresql+", "asyncpg", "://" + rest);
    assert MixedUrl(host) == "postgresql+" + "asyncpg" + ("://" + rest);
    ContainsInfix("postgresql+asyncpg://" + host + "/", "aiosqlite", "");
    assert MixedUrl(host) == "postgresql+asyncpg://" + host + "/" + "aiosqlite" + "";
  }

  /** The asyncpg branch wins: a URL naming both drivers is treated as a
      PostgreSQL URL, and its "aiosqlite" is left where it is. */
  lemma AsyncpgTakesPrecedence(host: string)
    requires '+' !in host
    ensures Contains(MixedUrl(host), "asyncpg") && Contains(MixedUrl(host), "aiosqlite")
    ensures SyncDatabaseUrl(MixedUrl(host)) == "postgresql://" + (host + "/aiosqlite")
  {
    MixedUrlNamesBoth(host);
    var rest := host + "/aiosqlite";
    assert '+' !in "/aiosqlite";
    assert '+' !in rest;
    ContainsAbsentChar(rest, "+asyncpg", '+');
    SyncOfAsyncPostgres(rest);
  }

  /** A Heroku-style "postgres://" URL, which the settings rewrite to
      asyncpg, reaches the worker as a plain "postgresql://" URL. */
  lemma SyncOfHerokuUrl(rest: string, vercel: Option<string>)
    requires !Contains(rest, "+asyncpg")
    ensures SyncDatabaseUrl(Config.DatabaseUrl(Some("postgres://" + rest), vercel)) == "postgresql://" + rest
  {
    var url := "postgres://" + rest;
    assert url[..11] == "postgres://";
    assert url[11..] == rest;
    SyncOfAsyncPostgres(rest);
  }

  // ---------------------------------------------------------------------
  // weekly_ai_insights
  // ---------------------------------------------------------------------

  datatype Suggestion = Suggestion(insightType: string, title: string, content: string)

  const SUGGESTIONS := [
    Suggestion("posting_time", "Post at 6PM", "Your audience is most active around 6 PM. Try scheduling posts then."),
    Suggestion("engagement", "Your engagement is dropping", "Consider asking a question in the first 30 seconds to boost comments."),
    Suggestion("titles", "Try shorter titles", "Videos with titles under 50 characters tend to get more clicks."),
    Suggestion("thumbnail", "Update thumbnails", "A/B test thumbnails with faces vs. text to see what performs better."),
    Suggestion("consistency", "Post consistently", "Channels that post at least once a week grow 2x faster."),
    Suggestion("trending", "Use trending topics", "Check trending topics in your niche and create related content.")
  ]

  const PRIORITIES := ["low", "medium", "high"]

  /** The two `random.choice` results for one user: an index into
      SUGGESTIONS and one into PRIORITIES. */
  datatype InsightDraw = InsightDraw(suggestion: nat, priority: nat)

  predicate ValidDraw(d: InsightDraw)
  {
    d.suggestion < |SUGGESTIONS| && d.priority < |PRIORITIES|
  }

  /** Where the run can raise: reading the user ids, or committing. */
  datatype Fault = NoFault | QueryFails | CommitFails

  /** What the task returns: `{"status": "ok", "created": n}`, or the
      exception it re-raises. */
  datatype JobResult = Done(status: string, created: nat) | Raised

  /** The insight a draw makes for one user; the table assigns `id` and
      stamps `created_at` at insert time. */
  function NewInsight(userId: int, d: InsightDraw, id: int, now: int): AIInsight
    requires ValidDraw(d)
  {
    var s := SUGGESTIONS[d.suggestion];
    AIInsight(id, userId, s.insightType, s.title, s.content, PRIORITIES[d.priority], false, now)
  }

  /** The insights one successful run adds, the i-th for the i-th user id. */
  function WeeklyInsights(users: seq<User>, draws: seq<InsightDraw>, firstId: int, now: int): (r: seq<AIInsight>)
    requires |draws| == |users| && forall i :: 0 <= i < |draws| ==> ValidDraw(draws[i])
    ensures |r| == |users|
  {
    seq(|users|, i requires 0 <= i < |users| => NewInsight(users[i].id, draws[i], firstId + i, now))
  }

  /** One insight per user: the i-th goes to the i-th user, and with
      distinct user ids no user receives two. */
  lemma WeeklyInsightsOnePerUser(users: seq<User>, draws: seq<InsightDraw>, firstId: int, now: int)
    requires |draws| == |users| && forall i :: 0 <= i < |draws| ==> ValidDraw(draws[i])
    requires UniqueUserIds(users)
    ensures var r := WeeklyInsights(users, draws, firstId, now);
      && (forall i :: 0 <= i < |r| ==> r[i].userId == users[i].id)
      && (forall i, j :: 0 <= i < j < |r| ==> r[i].userId != r[j].userId)
      && (forall u :: u in users ==> exists i :: 0 <= i < |r| && r[i].userId == u.id)
  {
    var r := WeeklyInsights(users, draws, firstId, now);
    forall u | u in users ensures exists i :: 0 <= i < |r| && r[i].userId == u.id {
      var i :| 0 <= i < |users| && users[i] == u;
      assert r[i].userId == u.id;
    }
  }

  /** Every new insight carries one of the six suggestions, a priority of
      low, medium or high, and starts unread. */
  lemma WeeklyInsightsContent(users: seq<User>, draws: seq<InsightDraw>, firstId: int, now: int)
    requires |draws| == |users| && forall i :: 0 <= i < |draws| ==> ValidDraw(draws[i])
    ensures var r := WeeklyInsights(users, draws, firstId, now);
      forall i :: 0 <= i < |r| ==>
        && Suggestion(r[i].insightType, r[i].title, r[i].content) in SUGGESTIONS
        && r[i].priority in {"low", "medium", "high"}
        && !r[i].isRead
        && r[i].createdAt == now
  {
    var r := WeeklyInsights(users, draws, firstId, now);
    forall i | 0 <= i < |r|
      ensures Suggestion(r[i].insightType, r[i].title, r[i].content) in SUGGESTIONS
      ensures r[i].priority in {"low", "medium", "high"}
    {
      var s := SUGGESTIONS[draws[i].suggestion];
      assert Suggestion(r[i].insightType, r[i].title, r[i].content) == s;
      assert r[i].priority == PRIORITIES[draws[i].priority];
    }
  }

  /** `weekly_ai_insights`: read every user id, stage one insight per user,
      then commit. When the query or the commit raises, the session is
      rolled back and nothing of the run persists. */
  method WeeklyAiInsights(db: Database, draws: seq<InsightDraw>, now: int, fault: Fault) returns (r: JobResult)
    requires db.Valid()
    requires |draws| == |db.users| && forall i :: 0 <= i < |draws| ==> ValidDraw(draws[i])
    modifies db`insights, db`nextInsightId
    ensures db.Valid()
    ensures fault != NoFault ==> r == Raised && db.insights == old(db.insights) && db.nextInsightId == old(db.nextInsightId)
    ensures fault == NoFault ==>
      && r == Done("ok", |db.users|)
      && db.insights == old(db.insights) + WeeklyInsights(db.users, draws, old(db.nextInsightId), now)
      && db.nextInsightId == old(db.nextInsightId) + |db.users|
  {
    if fault == QueryFails {
      return Raised;
    }
    var userIds := seq(|db.users|, i requires 0 <= i < |db.users| reads db => db.users[i].id);
    var pending: seq<AIInsight> := [];
    var created: nat := 0;
    for i := 0 to |userIds|
      invariant created == i == |pending|
      invariant pending == WeeklyInsights(db.users[..i], draws[..i], db.nextInsightId, now)
    {
      pending := pending + [NewInsight(userIds[i], draws[i], db.nextInsightId + i, now)];
      created := created + 1;
    }
    if fault == CommitFails {
      return Raised;
    }
    assert db.users[..|db.users|] == db.users && draws[..|draws|] == draws;
    db.insights := db.insights + pending;
    db.nextInsightId := db.nextInsightId + created;
    r := Done("ok", created);
  }
}
