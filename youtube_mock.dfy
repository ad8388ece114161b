/** The mock YouTube service (app/services/youtube_mock.py): a connected
    channel with five videos and thirty daily snapshots made up from random
    draws, and the lookup of a user's connected channel. The random draws are
    parameters; `ValidDraws` states the range of each `random.randint`. */
module YouTubeMock {
  import opened Wrappers
  import opened Strings
  import opened Models

  const PLATFORM := "youtube"
  const DEFAULT_CHANNEL_NAME := "My Channel"
  const DAILY := "daily"

  const TITLES: seq<string> := [
    "How to Get Started with Content Creation",
    "My Best Video Yet - Tips and Tricks",
    "Behind the Scenes: A Day in My Life",
    "Tutorial: Editing Like a Pro",
    "Q&A: Answering Your Questions",
    "Collaboration with Friends",
    "Weekly Vlog #1",
    "Top 10 Tips for Growth"
  ]

  /** Only the first five titles are used. */
  const VIDEO_COUNT := 5
  /** One snapshot per day for the last thirty days. */
  const SNAPSHOT_DAYS := 30

  // ---------------------------------------------------------------------
  // Ranges of the random draws
  // ---------------------------------------------------------------------

  /** `_random_views()` */
  predicate ViewsInRange(v: int) { 100 <= v <= 50000 }

  /** `_random_likes(views)`: between 1% and 5% of the views, floored. */
  predicate LikesInRange(views: int, likes: int) { views / 100 <= likes <= views / 20 }

  /** `_random_comments(views)`: between 0.2% and 1% of the views, floored. */
  predicate CommentsInRange(views: int, comments: int) { views / 500 <= comments <= views / 100 }

  /** Both derived ranges are non-empty for every non-negative view count, so
      `random.randint` never fails on them. */
  lemma DerivedRangesNonEmpty(views: int)
    requires views >= 0
    ensures views / 100 <= views / 20 && views / 500 <= views / 100
  {
  }

  /** The draws for one video: days since publication, views, likes, comments
      and duration in seconds. */
  datatype VideoDraw = VideoDraw(daysAgo: int, views: int, likes: int, comments: int, duration: int)

  /** The draws for one day's snapshot: the view noise and subscriber noise. */
  datatype DayDraw = DayDraw(delta: int, noise: int)

  datatype MockDraws = MockDraws(
    channelNumber: int,
    videos: seq<VideoDraw>,
    baseViews: int,
    baseSubs: int,
    days: seq<DayDraw>)

  predicate ValidVideoDraw(v: VideoDraw)
  {
    && 7 <= v.daysAgo <= 90
    && ViewsInRange(v.views)
    && LikesInRange(v.views, v.likes)
    && CommentsInRange(v.views, v.comments)
    && 180 <= v.duration <= 1200
  }

  predicate ValidDayDraw(d: DayDraw)
  {
    -500 <= d.delta <= 1500 && -2 <= d.noise <= 10
  }

  /** Every draw within the range the source asks `random.randint` for, and
      one draw per loop iteration. */
  predicate ValidDraws(d: MockDraws)
  {
    && 1000 <= d.channelNumber <= 9999
    && |d.videos| == VIDEO_COUNT
    && (forall i :: 0 <= i < |d.videos| ==> ValidVideoDraw(d.videos[i]))
    && 5000 <= d.baseViews <= 20000
    && 100 <= d.baseSubs <= 5000
    && |d.days| == SNAPSHOT_DAYS
    && (forall i :: 0 <= i < |d.days| ==> ValidDayDraw(d.days[i]))
  }

  // ---------------------------------------------------------------------
  // The records create_mock_channel builds
  // ---------------------------------------------------------------------

  /** Python's `max(0, x)`. */
  function Max0(x: int): (r: int)
    ensures r >= 0 && r >= x && (r == x || r == 0)
  {
    if x > 0 then x else 0
  }

  /** `channel_name or "My Channel"`. */
  function ChannelName(channelName: Option<string>): (r: string)
    ensures channelName.Some? && channelName.value != "" ==> r == channelName.value
    ensures channelName.None? || channelName.value == "" ==> r == DEFAULT_CHANNEL_NAME
  {
    if channelName.Some? && channelName.value != "" then channelName.value else DEFAULT_CHANNEL_NAME
  }

  function MockChannelId(userId: int, channelNumber: int): string
  {
    "UC_mock_" + IntToString(userId) + "_" + IntToString(channelNumber)
  }

  function MockAccount(id: int, userId: int, channelName: Option<string>, channelNumber: int, now: int): ConnectedAccount
  {
    ConnectedAccount(id, userId, PLATFORM, Some(MockChannelId(userId, channelNumber)), Some(ChannelName(channelName)), now)
  }

  function ExternalId(accountId: int, i: int): string
  {
    "vid_" + IntToString(accountId) + "_" + IntToString(i)
  }

  /** The `i`-th mock video of account `accountId`, stored under row id `id`. */
  function MockVideo(accountId: int, id: int, i: nat, draw: VideoDraw, now: int): Video
    requires i < |TITLES|
  {
    Video(id, accountId, ExternalId(accountId, i), Some(TITLES[i]), Some(now - draw.daysAgo * DAY),
          draw.views, draw.likes, draw.comments, Some(draw.duration), None)
  }

  /** The five videos, their row ids counting up from `firstId`. */
  function MockVideos(accountId: int, firstId: int, draws: MockDraws, now: int): (vs: seq<Video>)
    requires ValidDraws(draws)
  {
    seq(VIDEO_COUNT, i requires 0 <= i < VIDEO_COUNT => MockVideo(accountId, firstId + i, i, draws.videos[i], now))
  }

  /** The snapshot of `d` days ago. */
  function MockSnapshot(accountId: int, id: int, d: nat, baseViews: int, baseSubs: int, draw: DayDraw, now: int): AnalyticsSnapshot
  {
    var views := Max0(baseViews + d * 200 + draw.delta * 10);
    AnalyticsSnapshot(id, accountId, now - d * DAY, DAILY, views, views / 30, views / 100,
                      Max0(baseSubs + d * 5 + draw.noise))
  }

  /** The thirty daily snapshots, for d = 0 (today) to 29, row ids counting up
      from `firstId`. */
  function MockSnapshots(accountId: int, firstId: int, draws: MockDraws, now: int): (ss: seq<AnalyticsSnapshot>)
    requires ValidDraws(draws)
  {
    seq(SNAPSHOT_DAYS, d requires 0 <= d < SNAPSHOT_DAYS =>
      MockSnapshot(accountId, firstId + d, d, draws.baseViews, draws.baseSubs, draws.days[d], now))
  }

  // ---------------------------------------------------------------------
  // What the generated records satisfy
  // ---------------------------------------------------------------------

  /** The channel: the requested name or "My Channel", platform "youtube",
      and a channel id `UC_mock_{user_id}_{n}` with a four-digit `n`. */
  lemma MockAccountFacts(id: int, userId: int, channelName: Option<string>, draws: MockDraws, now: int)
    requires ValidDraws(draws)
    ensures var a := MockAccount(id, userId, channelName, draws.channelNumber, now);
      && a.id == id && a.userId == userId && a.platform == PLATFORM
      && a.channelName == Some(if channelName.Some? && channelName.value != "" then channelName.value else "My Channel")
      && a.channelId == Some("UC_mock_" + IntToString(userId) + "_" + IntToString(draws.channelNumber))
      && 1000 <= draws.channelNumber <= 9999
      && StartsWith(a.channelId.value, "UC_mock_" + IntToString(userId) + "_")
      && |a.channelId.value| == |"UC_mock_" + IntToString(userId) + "_"| + 4
      && AllDigits(a.channelId.value[|"UC_mock_" + IntToString(userId) + "_"|..])
      && DigitsValue(a.channelId.value[|"UC_mock_" + IntToString(userId) + "_"|..]) == draws.channelNumber
  {
    var prefix := "UC_mock_" + IntToString(userId) + "_";
    var id := prefix + IntToString(draws.channelNumber);
    FourDigits(draws.channelNumber);
    assert id[|prefix|..] == IntToString(draws.channelNumber);
    DigitsValueOfNatToString(draws.channelNumber);
  }

  lemma FourDigits(n: nat)
    requires 1000 <= n <= 9999
    ensures |IntToString(n)| == 4
  {
    assert NatToString(n) == NatToString(n / 10) + [DigitChar(n % 10)];
    assert NatToString(n / 10) == NatToString(n / 100) + [DigitChar(n / 10 % 10)];
    assert NatToString(n / 100) == NatToString(n / 1000) + [DigitChar(n / 100 % 10)];
    assert n / 10 / 10 == n / 100 && n / 100 / 10 == n / 1000;
  }

  /** Five videos, owned by the new account, titled with the first five
      titles in order, published 7 to 90 days ago, lasting 180 to 1200
      seconds, with counters in the ranges of the draws. */
  lemma MockVideosFacts(accountId: int, firstId: int, draws: MockDraws, now: int)
    requires ValidDraws(draws)
    ensures var vs := MockVideos(accountId, firstId, draws, now);
      && |vs| == 5
      && forall i :: 0 <= i < |vs| ==>
        && vs[i].accountId == accountId
        && vs[i].id == firstId + i
        && vs[i].title == Some(TITLES[i])
        && vs[i].externalId == "vid_" + IntToString(accountId) + "_" + IntToString(i)
        && vs[i].publishedAt.Some?
        && now - 90 * DAY <= vs[i].publishedAt.value <= now - 7 * DAY
        && vs[i].durationSeconds.Some? && 180 <= vs[i].durationSeconds.value <= 1200
        && ViewsInRange(vs[i].viewCount)
        && LikesInRange(vs[i].viewCount, vs[i].likeCount)
        && CommentsInRange(vs[i].viewCount, vs[i].commentCount)
        && vs[i].likeCount >= 0 && vs[i].commentCount >= 0
  {
    var vs := MockVideos(accountId, firstId, draws, now);
    forall i | 0 <= i < |vs|
      ensures now - 90 * DAY <= vs[i].publishedAt.value <= now - 7 * DAY
      ensures vs[i].likeCount >= 0 && vs[i].commentCount >= 0
    {
      var dr := draws.videos[i];
      assert ValidVideoDraw(dr);
      assert 7 * DAY <= dr.daysAgo * DAY <= 90 * DAY;
    }
  }

  /** The five external ids are pairwise distinct. */
  lemma MockVideoExternalIdsDistinct(accountId: int, firstId: int, draws: MockDraws, now: int, i: nat, j: nat)
    requires ValidDraws(draws)
    requires i < j < VIDEO_COUNT
    ensures MockVideos(accountId, firstId, draws, now)[i].externalId
         != MockVideos(accountId, firstId, draws, now)[j].externalId
  {
    var prefix := "vid_" + IntToString(accountId) + "_";
    if ExternalId(accountId, i) == ExternalId(accountId, j) {
      assert (prefix + IntToString(i))[|prefix|..] == IntToString(i);
      assert (prefix + IntToString(j))[|prefix|..] == IntToString(j);
      IntToStringInjective(i, j);
    }
  }

  /** Thirty daily snapshots, the `d`-th dated `d` days before now; views
      and subscribers are never negative, likes are a thirtieth and comments a
      hundredth of the views. */
  lemma MockSnapshotsFacts(accountId: int, firstId: int, draws: MockDraws, now: int)
    requires ValidDraws(draws)
    ensures var ss := MockSnapshots(accountId, firstId, draws, now);
      && |ss| == 30
      && forall d :: 0 <= d < |ss| ==>
        && ss[d].accountId == accountId
        && ss[d].id == firstId + d
        && ss[d].snapshotDate == now - d * DAY
        && ss[d].periodType == "daily"
        && ss[d].totalViews == Max0(draws.baseViews + 200 * d + 10 * draws.days[d].delta)
        && ss[d].totalViews >= 0
        && ss[d].totalLikes == ss[d].totalViews / 30
        && ss[d].totalComments == ss[d].totalViews / 100
        && ss[d].subscriberCount == Max0(draws.baseSubs + 5 * d + draws.days[d].noise)
        && ss[d].subscriberCount >= 0
  {
  }

  /** With in-range draws the `max(0, …)` clamps never engage: views are at
      least 5000 - 5000 and subscribers at least 100 - 2. */
  lemma MockSnapshotClampsInactive(accountId: int, firstId: int, draws: MockDraws, now: int, d: nat)
    requires ValidDraws(draws) && d < SNAPSHOT_DAYS
    ensures var s := MockSnapshots(accountId, firstId, draws, now)[d];
      && s.totalViews == draws.baseViews + 200 * d + 10 * draws.days[d].delta
      && s.subscriberCount == draws.baseSubs + 5 * d + draws.days[d].noise
      && s.subscriberCount >= 98
  {
    assert ValidDayDraw(draws.days[d]);
  }

  // ---------------------------------------------------------------------
  // create_mock_channel and get_first_connected_account
  // ---------------------------------------------------------------------

  /** `create_mock_channel`: appends one account (its id from the account
      counter), then its five videos one by one, then its thirty snapshots one
      by one. Nothing else changes. */
  method CreateMockChannel(db: Database, userId: int, channelName: Option<string>, draws: MockDraws, now: int)
    returns (acc: ConnectedAccount)
    requires db.Valid() && ValidDraws(draws)
    modifies db
    ensures db.Valid()
    ensures acc == MockAccount(old(db.nextAccountId), userId, channelName, draws.channelNumber, now)
    ensures db.accounts == old(db.accounts) + [acc]
    ensures db.videos == old(db.videos) + MockVideos(acc.id, old(db.nextVideoId), draws, now)
    ensures db.snapshots == old(db.snapshots) + MockSnapshots(acc.id, old(db.nextSnapshotId), draws, now)
    ensures db.nextAccountId == old(db.nextAccountId) + 1
    ensures db.nextVideoId == old(db.nextVideoId) + VIDEO_COUNT
    ensures db.nextSnapshotId == old(db.nextSnapshotId) + SNAPSHOT_DAYS
    ensures db.users == old(db.users) && db.insights == old(db.insights)
    ensures db.nextUserId == old(db.nextUserId) && db.nextInsightId == old(db.nextInsightId)
  {
    acc := MockAccount(db.nextAccountId, userId, channelName, draws.channelNumber, now);
    db.accounts := db.accounts + [acc];
    db.nextAccountId := db.nextAccountId + 1;
    AddMockVideos(db, acc.id, draws, now);
    AddMockSnapshots(db, acc.id, draws, now);
  }

  /** The loop over the first five titles, adding one video per title. */
  method AddMockVideos(db: Database, accountId: int, draws: MockDraws, now: int)
    requires db.Valid() && ValidDraws(draws)
    modifies db`videos, db`nextVideoId
    ensures db.Valid()
    ensures db.videos == old(db.videos) + MockVideos(accountId, old(db.nextVideoId), draws, now)
    ensures db.nextVideoId == old(db.nextVideoId) + VIDEO_COUNT
  {
    ghost var all := MockVideos(accountId, db.nextVideoId, draws, now);
    for i := 0 to VIDEO_COUNT
      invariant db.videos == old(db.videos) + all[..i]
      invariant db.nextVideoId == old(db.nextVideoId) + i
      invariant db.Valid()
    {
      var v := MockVideo(accountId, db.nextVideoId, i, draws.videos[i], now);
      assert v == all[i] && v.id == db.nextVideoId;
      db.videos := db.videos + [v];
      db.nextVideoId := db.nextVideoId + 1;
      assert all[..i + 1] == all[..i] + [v];
    }
    assert all[..VIDEO_COUNT] == all;
  }

  /** The loop over the last thirty days, adding one snapshot per day. */
  method AddMockSnapshots(db: Database, accountId: int, draws: MockDraws, now: int)
    requires db.Valid() && ValidDraws(draws)
    modifies db`snapshots, db`nextSnapshotId
    ensures db.Valid()
    ensures db.snapshots == old(db.snapshots) + MockSnapshots(accountId, old(db.nextSnapshotId), draws, now)
    ensures db.nextSnapshotId == old(db.nextSnapshotId) + SNAPSHOT_DAYS
  {
    ghost var all := MockSnapshots(accountId, db.nextSnapshotId, draws, now);
    for d := 0 to SNAPSHOT_DAYS
      invariant db.snapshots == old(db.snapshots) + all[..d]
      invariant db.nextSnapshotId == old(db.nextSnapshotId) + d
      invariant db.Valid()
    {
      var day := draws.days[d];
      var views := Max0(draws.baseViews + d * 200 + day.delta * 10);
      var snap := AnalyticsSnapshot(db.nextSnapshotId, accountId, now - d * DAY, DAILY, views, views / 30, views / 100,
                                    Max0(draws.baseSubs + d * 5 + day.noise));
      assert snap == all[d];
      db.snapshots := db.snapshots + [snap];
      db.nextSnapshotId := db.nextSnapshotId + 1;
      assert all[..d + 1] == all[..d] + [snap];
    }
    assert all[..SNAPSHOT_DAYS] == all;
  }

  /** A connected YouTube account of this user. */
  predicate OwnedYouTube(a: ConnectedAccount, userId: int)
  {
    a.userId == userId && a.platform == PLATFORM
  }

  /** `get_first_connected_account`: the query has no ORDER BY, so the row it
      returns is whichever matching row the engine yields first; the contract
      promises only that it is one of the user's YouTube accounts, and that
      there is none exactly when the result is None. */
  function GetFirstConnectedAccount(accounts: seq<ConnectedAccount>, userId: int): (r: Option<ConnectedAccount>)
    ensures r.None? <==> forall i :: 0 <= i < |accounts| ==> !OwnedYouTube(accounts[i], userId)
    ensures r.Some? ==> r.value in accounts && OwnedYouTube(r.value, userId)
    decreases |accounts|
  {
    if |accounts| == 0 then None
    else if OwnedYouTube(accounts[0], userId) then Some(accounts[0])
    else
      var r := GetFirstConnectedAccount(accounts[1..], userId);
      assert forall i :: 1 <= i < |accounts| ==> accounts[i] == accounts[1..][i - 1];
      r
  }

  /** After `create_mock_channel` the user has a connected account. */
  lemma ConnectedAfterCreate(accounts: seq<ConnectedAccount>, id: int, userId: int, channelName: Option<string>, n: int, now: int)
    ensures GetFirstConnectedAccount(accounts + [MockAccount(id, userId, channelName, n, now)], userId).Some?
  {
    var all := accounts + [MockAccount(id, userId, channelName, n, now)];
    assert OwnedYouTube(all[|accounts|], userId);
  }
}
