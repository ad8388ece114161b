/** First-run seeding (app/services/seed_data.py): make sure the demo login
    exists, and when the user table was empty give the demo user a mock
    channel and six insights. */
module SeedData {
  import opened Wrappers
  import opened Models
  import opened YouTubeMock

  const DEMO_EMAIL := "demo@example.com"
  const DEMO_PASSWORD := "demo123"
  const DEMO_NAME := "Demo User"
  const DEMO_CHANNEL_NAME := "Demo Creator Channel"

  datatype SeedInsight = SeedInsight(insightType: string, title: string, content: string, priority: string)

  const AI_INSIGHTS_DATA := [
    SeedInsight("posting_time", "Post at 6PM", "Your audience is most active around 6 PM. Try scheduling posts then.", "high"),
    SeedInsight("engagement", "Your engagement is dropping", "Consider asking a question in the first 30 seconds to boost comments.", "medium"),
    SeedInsight("titles", "Try shorter titles", "Videos with titles under 50 characters tend to get more clicks.", "medium"),
    SeedInsight("thumbnail", "Update thumbnails", "A/B test thumbnails with faces vs. text to see what performs better.", "low"),
    SeedInsight("consistency", "Post consistently", "Channels that post at least once a week grow 2x faster.", "high"),
    SeedInsight("trending", "Use trending topics", "Check trending topics in your niche and create related content.", "medium")
  ]

  /** The demo account, its password stored only as `hash` of it. */
  function DemoUser(id: int, hash: string -> string, now: int): User
  {
    User(id, DEMO_EMAIL, hash(DEMO_PASSWORD), Some(DEMO_NAME), now)
  }

  /** The insight the i-th entry of AI_INSIGHTS_DATA becomes. */
  function SeedInsightRow(userId: int, i: nat, id: int, now: int): AIInsight
    requires i < |AI_INSIGHTS_DATA|
  {
    var d := AI_INSIGHTS_DATA[i];
    AIInsight(id, userId, d.insightType, d.title, d.content, d.priority, false, now)
  }

  /** The six seeded insights, in the order of AI_INSIGHTS_DATA. */
  function SeedInsights(userId: int, firstId: int, now: int): seq<AIInsight>
  {
    seq(|AI_INSIGHTS_DATA|, i requires 0 <= i < |AI_INSIGHTS_DATA| => SeedInsightRow(userId, i, firstId + i, now))
  }

  /** Exactly six insights, all for the demo user, each carrying its entry's
      type, title, content and priority, unread, with consecutive ids. */
  lemma SeedInsightsFacts(userId: int, firstId: int, now: int)
    ensures var r := SeedInsights(userId, firstId, now);
      && |r| == 6
      && (forall i :: 0 <= i < |r| ==>
            && r[i].userId == userId
            && r[i].id == firstId + i
            && SeedInsight(r[i].insightType, r[i].title, r[i].content, r[i].priority) == AI_INSIGHTS_DATA[i]
            && !r[i].isRead)
      && [r[0].priority, r[1].priority, r[2].priority, r[3].priority, r[4].priority, r[5].priority]
         == ["high", "medium", "medium", "low", "high", "medium"]
  {
  }

  /** `had_users` is read before the demo user is added, so a demo user
      that was already there always means the table was not empty. */
  lemma DemoPresentMeansHadUsers(users: seq<User>)
    ensures FindUserByEmail(users, DEMO_EMAIL).Some? ==> |users| > 0
  {
  }

  /** `seed_if_empty`. The demo user is added when no user has its email;
      when the table already held users that is all; when it was empty, the
      demo user also gets "Demo Creator Channel" with its videos and
      snapshots, then the six insights, and the whole is committed. */
  method SeedIfEmpty(db: Database, hash: string -> string, draws: MockDraws, now: int)
    requires db.Valid() && ValidDraws(draws)
    modifies db
    ensures db.Valid()
    ensures FindUserByEmail(db.users, DEMO_EMAIL).Some?
    ensures old(FindUserByEmail(db.users, DEMO_EMAIL)).Some? ==>
      db.users == old(db.users) && db.nextUserId == old(db.nextUserId)
    ensures old(FindUserByEmail(db.users, DEMO_EMAIL)).None? ==>
      db.users == old(db.users) + [DemoUser(old(db.nextUserId), hash, now)] && db.nextUserId == old(db.nextUserId) + 1
    ensures old(|db.users|) > 0 ==>
      && db.accounts == old(db.accounts) && db.videos == old(db.videos)
      && db.snapshots == old(db.snapshots) && db.insights == old(db.insights)
      && db.nextAccountId == old(db.nextAccountId) && db.nextVideoId == old(db.nextVideoId)
      && db.nextSnapshotId == old(db.nextSnapshotId) && db.nextInsightId == old(db.nextInsightId)
    ensures old(|db.users|) == 0 ==>
      var demoId := old(db.nextUserId);
      var acc := MockAccount(old(db.nextAccountId), demoId, Some(DEMO_CHANNEL_NAME), draws.channelNumber, now);
      && db.accounts == old(db.accounts) + [acc]
      && db.videos == old(db.videos) + MockVideos(acc.id, old(db.nextVideoId), draws, now)
      && db.snapshots == old(db.snapshots) + MockSnapshots(acc.id, old(db.nextSnapshotId), draws, now)
      && db.insights == old(db.insights) + SeedInsights(demoId, old(db.nextInsightId), now)
  {
    var hadUsers := |db.users| > 0;
    var demoUser := EnsureDemoUser(db, hash, now);
    if hadUsers {
      return;
    }
    var acc := CreateMockChannel(db, demoUser.id, Some(DEMO_CHANNEL_NAME), draws, now);
    AddSeedInsights(db, demoUser.id, now);
  }

  /** The first step of `seed_if_empty`: look the demo email up and add the
      demo user when it is missing; either way return the demo user. */
  method EnsureDemoUser(db: Database, hash: string -> string, now: int) returns (demoUser: User)
    requires db.Valid()
    modifies db`users, db`nextUserId
    ensures db.Valid()
    ensures FindUserByEmail(db.users, DEMO_EMAIL).Some?
    ensures old(FindUserByEmail(db.users, DEMO_EMAIL)).Some? ==>
      demoUser == old(FindUserByEmail(db.users, DEMO_EMAIL)).value
      && db.users == old(db.users) && db.nextUserId == old(db.nextUserId)
    ensures old(FindUserByEmail(db.users, DEMO_EMAIL)).None? ==>
      demoUser == DemoUser(old(db.nextUserId), hash, now)
      && db.users == old(db.users) + [demoUser] && db.nextUserId == old(db.nextUserId) + 1
  {
    var demo := FindUserByEmail(db.users, DEMO_EMAIL);
    if demo.None? {
      demoUser := DemoUser(db.nextUserId, hash, now);
      db.users := db.users + [demoUser];
      db.nextUserId := db.nextUserId + 1;
      assert FindUserByEmail(db.users, DEMO_EMAIL).Some? by {
        assert db.users[|db.users| - 1].email == DEMO_EMAIL;
      }
    } else {
      demoUser := demo.value;
    }
  }

  /** A second run is a no-op: once the demo user exists, `had_users` holds
      and nothing is added to any table. */
  method SeedAgainChangesNothing(db: Database, hash: string -> string, draws: MockDraws, now: int)
    requires db.Valid() && ValidDraws(draws)
    requires FindUserByEmail(db.users, DEMO_EMAIL).Some?
    modifies db
    ensures db.users == old(db.users) && db.nextUserId == old(db.nextUserId)
    ensures db.accounts == old(db.accounts) && db.videos == old(db.videos)
    ensures db.snapshots == old(db.snapshots) && db.insights == old(db.insights)
    ensures db.nextAccountId == old(db.nextAccountId) && db.nextVideoId == old(db.nextVideoId)
    ensures db.nextSnapshotId == old(db.nextSnapshotId) && db.nextInsightId == old(db.nextInsightId)
  {
    DemoPresentMeansHadUsers(db.users);
    SeedIfEmpty(db, hash, draws, now);
  }

  /** The loop over AI_INSIGHTS_DATA, adding one insight per entry. */
  method AddSeedInsights(db: Database, userId: int, now: int)
    requires db.Valid()
    modifies db`insights, db`nextInsightId
    ensures db.Valid()
    ensures db.insights == old(db.insights) + SeedInsights(userId, old(db.nextInsightId), now)
    ensures db.nextInsightId == old(db.nextInsightId) + |AI_INSIGHTS_DATA|
  {
    ghost var all := SeedInsights(userId, db.nextInsightId, now);
    for i := 0 to |AI_INSIGHTS_DATA|
      invariant db.insights == old(db.insights) + all[..i]
      invariant db.nextInsightId == old(db.nextInsightId) + i
      invariant db.Valid()
    {
      var d := AI_INSIGHTS_DATA[i];
      var insight := AIInsight(db.nextInsightId, userId, d.insightType, d.title, d.content, d.priority, false, now);
      assert all[i] == SeedInsightRow(userId, i, db.nextInsightId, now);
      db.insights := db.insights + [insight];
      db.nextInsightId := db.nextInsightId + 1;
      assert all[..i + 1] == all[..i] + [insight];
    }
    assert all[..|AI_INSIGHTS_DATA|] == all;
  }
}
