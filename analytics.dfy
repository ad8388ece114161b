/** The analytics read path (app/routers/analytics.py): overview totals,
    the paginated video list and the growth series, computed from one of the
    caller's connected accounts. Overview and growth are cache-aside: a hit is
    returned as it is, a miss is recomputed and stored for CACHE_TTL seconds.
    The handlers take the caller's user id from the authentication gate and
    the query parameters as FastAPI received them. */
module Analytics {
  import opened Wrappers
  import opened Strings
  import opened Sorting
  import opened Http
  import opened Models
  import opened RedisCache
  import opened YouTubeMock

  /** Five minutes. */
  const CACHE_TTL := 300

  const DEFAULT_PERIOD_DAYS := 30
  const MAX_PERIOD_DAYS := 90
  const DEFAULT_PAGE := 1
  const DEFAULT_PAGE_SIZE := 10
  const MAX_PAGE_SIZE := 50

  datatype OverviewResponse = OverviewResponse(
    totalViews: int,
    totalLikes: int,
    totalComments: int,
    totalVideos: int,
    subscriberCount: int,
    periodDays: int)

  datatype VideoItem = VideoItem(
    id: int,
    externalId: string,
    title: Option<string>,
    viewCount: int,
    likeCount: int,
    commentCount: int,
    publishedAt: Option<int>,
    thumbnailUrl: Option<string>)

  datatype VideosListResponse = VideosListResponse(items: seq<VideoItem>, total: int, page: int, pageSize: int)

  /** One day of the growth chart; `date` is the snapshot's timestamp (the
      handler prints it as YYYY-MM-DD). */
  datatype GrowthPoint = GrowthPoint(date: int, views: int, likes: int, comments: int, subscribers: int)

  datatype GrowthResponse = GrowthResponse(data: seq<GrowthPoint>, periodDays: int)

  /** What the cache holds: a serialised overview or growth response. */
  datatype CachedValue = CachedOverview(overview: OverviewResponse) | CachedGrowth(growth: GrowthResponse)

  /** The 500 a cached value of the wrong shape would cause when the handler
      rebuilds its response model from it. */
  const MALFORMED_CACHE_ENTRY := HttpError(INTERNAL_ERROR, "Internal Server Error", false)

  // ---------------------------------------------------------------------
  // Cache keys
  // ---------------------------------------------------------------------

  const OVERVIEW_PREFIX := "analytics:overview:"
  const GROWTH_PREFIX := "analytics:growth:"

  function OverviewKey(userId: int, periodDays: int): string
  {
    OVERVIEW_PREFIX + IntToString(userId) + ":" + IntToString(periodDays)
  }

  function GrowthKey(userId: int, periodDays: int): string
  {
    GROWTH_PREFIX + IntToString(userId) + ":" + IntToString(periodDays)
  }

  /** A key `prefix + a + ":" + b` with no colon in `a` determines `a` and `b`. */
  lemma KeySplit(prefix: string, a1: string, b1: string, a2: string, b2: string)
    requires ':' !in a1 && ':' !in a2
    requires prefix + a1 + ":" + b1 == prefix + a2 + ":" + b2
    ensures a1 == a2 && b1 == b2
  {
    var s1, s2 := a1 + [':'] + b1, a2 + [':'] + b2;
    assert prefix + a1 + ":" + b1 == prefix + s1;
    assert prefix + a2 + ":" + b2 == prefix + s2;
    CancelPrefix(prefix, s1, s2);
    SplitAtFirst(a1, b1, a2, b2, ':');
  }

  lemma KeyParts(prefix: string, u1: int, p1: int, u2: int, p2: int)
    requires prefix + IntToString(u1) + ":" + IntToString(p1) == prefix + IntToString(u2) + ":" + IntToString(p2)
    ensures u1 == u2 && p1 == p2
  {
    NoColonInIntToString(u1);
    NoColonInIntToString(u2);
    KeySplit(prefix, IntToString(u1), IntToString(p1), IntToString(u2), IntToString(p2));
    IntToStringInjective(u1, u2);
    IntToStringInjective(p1, p2);
  }

  /** Two overview requests share a cache entry only when they have the same
      user and the same period. */
  lemma OverviewKeyInjective(u1: int, p1: int, u2: int, p2: int)
    requires OverviewKey(u1, p1) == OverviewKey(u2, p2)
    ensures u1 == u2 && p1 == p2
  {
    KeyParts(OVERVIEW_PREFIX, u1, p1, u2, p2);
  }

  lemma GrowthKeyInjective(u1: int, p1: int, u2: int, p2: int)
    requires GrowthKey(u1, p1) == GrowthKey(u2, p2)
    ensures u1 == u2 && p1 == p2
  {
    KeyParts(GROWTH_PREFIX, u1, p1, u2, p2);
  }

  /** Overview keys and growth keys live in different namespaces. */
  lemma KeyNamespaces(u: int, p: int)
    ensures StartsWith(OverviewKey(u, p), OVERVIEW_PREFIX) && !StartsWith(OverviewKey(u, p), GROWTH_PREFIX)
    ensures StartsWith(GrowthKey(u, p), GROWTH_PREFIX) && !StartsWith(GrowthKey(u, p), OVERVIEW_PREFIX)
  {
    var o, g := OverviewKey(u, p), GrowthKey(u, p);
    assert o[..|OVERVIEW_PREFIX|] == OVERVIEW_PREFIX;
    assert g[..|GROWTH_PREFIX|] == GROWTH_PREFIX;
    assert o[10] == 'o' && g[10] == 'g';
    assert o[..|GROWTH_PREFIX|][10] == 'o';
    assert g[..|OVERVIEW_PREFIX|][10] == 'g';
  }

  /** Every key in the overview namespace holds an overview and every key in
      the growth namespace holds a growth series. */
  ghost predicate WellKeyed(entries: map<string, Entry<CachedValue>>)
  {
    forall k :: k in entries ==>
      (StartsWith(k, OVERVIEW_PREFIX) ==> entries[k].value.CachedOverview?)
      && (StartsWith(k, GROWTH_PREFIX) ==> entries[k].value.CachedGrowth?)
  }

  /** Storing an overview under an overview key keeps the cache well keyed. */
  lemma StoreOverviewKeepsWellKeyed(entries: map<string, Entry<CachedValue>>, u: int, p: int, o: OverviewResponse, t: int)
    ensures WellKeyed(entries) ==> WellKeyed(entries[OverviewKey(u, p) := Entry(CachedOverview(o), t)])
  {
    KeyNamespaces(u, p);
  }

  lemma StoreGrowthKeepsWellKeyed(entries: map<string, Entry<CachedValue>>, u: int, p: int, g: GrowthResponse, t: int)
    ensures WellKeyed(entries) ==> WellKeyed(entries[GrowthKey(u, p) := Entry(CachedGrowth(g), t)])
  {
    KeyNamespaces(u, p);
  }

  /** In a well-keyed cache a hit on an overview key is an overview, and a
      hit on a growth key is a growth series. */
  lemma WellKeyedHits(entries: map<string, Entry<CachedValue>>, u: int, p: int, now: int)
    requires WellKeyed(entries)
    ensures Lookup(entries, OverviewKey(u, p), now).Some? ==> Lookup(entries, OverviewKey(u, p), now).value.CachedOverview?
    ensures Lookup(entries, GrowthKey(u, p), now).Some? ==> Lookup(entries, GrowthKey(u, p), now).value.CachedGrowth?
  {
    KeyNamespaces(u, p);
  }

  // ---------------------------------------------------------------------
  // Overview
  // ---------------------------------------------------------------------

  /** The videos of one account, in table order. */
  function AccountVideos(videos: seq<Video>, accountId: int): (r: seq<Video>)
    ensures |r| <= |videos|
    ensures forall v :: v in r <==> v in videos && v.accountId == accountId
    decreases |videos|
  {
    if |videos| == 0 then []
    else
      var rest := AccountVideos(videos[1..], accountId);
      assert videos == [videos[0]] + videos[1..];
      if videos[0].accountId == accountId then [videos[0]] + rest else rest
  }

  /** WHERE keeps duplicates: every video of the account appears in the
      filtered rows exactly as often as it is stored, any other not at all. */
  lemma {:induction false} AccountVideosCount(videos: seq<Video>, accountId: int, v: Video)
    ensures multiset(AccountVideos(videos, accountId))[v]
         == if v.accountId == accountId then multiset(videos)[v] else 0
    decreases |videos|
  {
    if |videos| > 0 {
      assert videos == [videos[0]] + videos[1..];
      AccountVideosCount(videos[1..], accountId, v);
    }
  }

  lemma {:induction false} AccountVideosAppend(videos: seq<Video>, v: Video, accountId: int)
    ensures AccountVideos(videos + [v], accountId)
         == AccountVideos(videos, accountId) + (if v.accountId == accountId then [v] else [])
    decreases |videos|
  {
    if |videos| > 0 {
      assert (videos + [v])[1..] == videos[1..] + [v];
      AccountVideosAppend(videos[1..], v, accountId);
    } else {
      assert videos + [v] == [v];
    }
  }

  /** `SUM(column)` over rows, 0 when there are none (the COALESCE). */
  function Sum(vs: seq<Video>, column: Video -> int): int
    decreases |vs|
  {
    if |vs| == 0 then 0 else column(vs[0]) + Sum(vs[1..], column)
  }

  lemma {:induction false} SumAppend(vs: seq<Video>, v: Video, column: Video -> int)
    ensures Sum(vs + [v], column) == Sum(vs, column) + column(v)
    decreases |vs|
  {
    if |vs| > 0 {
      assert (vs + [v])[1..] == vs[1..] + [v];
      SumAppend(vs[1..], v, column);
    } else {
      assert vs + [v] == [v];
    }
  }

  /** A sum of non-negative counters is non-negative. */
  lemma {:induction false} SumNonNegative(vs: seq<Video>, column: Video -> int)
    requires forall i :: 0 <= i < |vs| ==> column(vs[i]) >= 0
    ensures Sum(vs, column) >= 0
    decreases |vs|
  {
    if |vs| > 0 {
      SumNonNegative(vs[1..], column);
    }
  }

  function Views(v: Video): int { v.viewCount }
  function Likes(v: Video): int { v.likeCount }
  function Comments(v: Video): int { v.commentCount }

  /** An account's snapshot dated no later than `now`, of either period type. */
  predicate Elapsed(s: AnalyticsSnapshot, accountId: int, now: int)
  {
    s.accountId == accountId && s.snapshotDate <= now
  }

  /** The account's latest snapshot dated no later than `now` (ORDER BY
      snapshot_date DESC LIMIT 1); None when there is none. Among snapshots
      sharing the latest date the query may return any; this picks one. */
  function LatestSnapshot(snapshots: seq<AnalyticsSnapshot>, accountId: int, now: int): (r: Option<AnalyticsSnapshot>)
    ensures r.None? <==> forall i :: 0 <= i < |snapshots| ==> !Elapsed(snapshots[i], accountId, now)
    ensures r.Some? ==> r.value in snapshots && Elapsed(r.value, accountId, now)
    ensures r.Some? ==> forall i :: 0 <= i < |snapshots| && Elapsed(snapshots[i], accountId, now) ==>
      snapshots[i].snapshotDate <= r.value.snapshotDate
    decreases |snapshots|
  {
    if |snapshots| == 0 then None
    else
      var s := snapshots[0];
      var rest := LatestSnapshot(snapshots[1..], accountId, now);
      assert forall i :: 1 <= i < |snapshots| ==> snapshots[i] == snapshots[1..][i - 1];
      if !Elapsed(s, accountId, now) then rest
      else if rest.None? || rest.value.snapshotDate < s.snapshotDate then Some(s)
      else rest
  }

  function SubscriberCount(snapshots: seq<AnalyticsSnapshot>, accountId: int, now: int): int
  {
    match LatestSnapshot(snapshots, accountId, now)
    case None => 0
    case Some(s) => s.subscriberCount
  }

  /** The overview a cache miss computes. The period is echoed but filters
      nothing: the window start the handler computes is never used. */
  function Overview(accounts: seq<ConnectedAccount>, videos: seq<Video>, snapshots: seq<AnalyticsSnapshot>,
                    userId: int, periodDays: int, now: int): OverviewResponse
  {
    match GetFirstConnectedAccount(accounts, userId)
    case None => OverviewResponse(0, 0, 0, 0, 0, periodDays)
    case Some(acc) =>
      var vs := AccountVideos(videos, acc.id);
      OverviewResponse(Sum(vs, Views), Sum(vs, Likes), Sum(vs, Comments), |vs|,
                       SubscriberCount(snapshots, acc.id, now), periodDays)
  }

  /** With no connected account every counter is 0 and the period is echoed. */
  lemma OverviewWithoutAccount(accounts: seq<ConnectedAccount>, videos: seq<Video>, snapshots: seq<AnalyticsSnapshot>,
                               userId: int, periodDays: int, now: int)
    requires forall i :: 0 <= i < |accounts| ==> !OwnedYouTube(accounts[i], userId)
    ensures Overview(accounts, videos, snapshots, userId, periodDays, now) == OverviewResponse(0, 0, 0, 0, 0, periodDays)
  {
  }

  /** The totals count every video of the chosen account and no other: a new
      video of that account adds its counters and one to the count, a new
      video of any other account changes nothing. */
  lemma OverviewTotalsAddVideo(accounts: seq<ConnectedAccount>, videos: seq<Video>, snapshots: seq<AnalyticsSnapshot>,
                               userId: int, periodDays: int, now: int, v: Video)
    requires GetFirstConnectedAccount(accounts, userId).Some?
    ensures var acc := GetFirstConnectedAccount(accounts, userId).value;
      var before := Overview(accounts, videos, snapshots, userId, periodDays, now);
      var after := Overview(accounts, videos + [v], snapshots, userId, periodDays, now);
      && (v.accountId == acc.id ==>
            && after.totalViews == before.totalViews + v.viewCount
            && after.totalLikes == before.totalLikes + v.likeCount
            && after.totalComments == before.totalComments + v.commentCount
            && after.totalVideos == before.totalVideos + 1)
      && (v.accountId != acc.id ==> after == before)
  {
    var acc := GetFirstConnectedAccount(accounts, userId).value;
    var vs := AccountVideos(videos, acc.id);
    AccountVideosAppend(videos, v, acc.id);
    if v.accountId == acc.id {
      SumAppend(vs, v, Views);
      SumAppend(vs, v, Likes);
      SumAppend(vs, v, Comments);
    } else {
      assert vs + [] == vs;
    }
  }

  /** An account without videos has zero totals and a zero count, the base
      from which `OverviewTotalsAddVideo` builds every other total. */
  lemma OverviewTotalsWithoutVideos(accounts: seq<ConnectedAccount>, videos: seq<Video>, snapshots: seq<AnalyticsSnapshot>,
                                    userId: int, periodDays: int, now: int)
    requires GetFirstConnectedAccount(accounts, userId).Some?
    requires forall i :: 0 <= i < |videos| ==> videos[i].accountId != GetFirstConnectedAccount(accounts, userId).value.id
    ensures var r := Overview(accounts, videos, snapshots, userId, periodDays, now);
      r.totalViews == 0 && r.totalLikes == 0 && r.totalComments == 0 && r.totalVideos == 0
  {
  }

  /** The totals do not depend on the period: two periods give the same
      overview up to the echoed `period_days`. */
  lemma OverviewIgnoresPeriod(accounts: seq<ConnectedAccount>, videos: seq<Video>, snapshots: seq<AnalyticsSnapshot>,
                              userId: int, p1: int, p2: int, now: int)
    ensures Overview(accounts, videos, snapshots, userId, p1, now).(periodDays := p2)
         == Overview(accounts, videos, snapshots, userId, p2, now)
  {
  }

  /** The subscriber count is that of the latest elapsed snapshot of the
      account, whatever its period type, or 0 without one. */
  lemma OverviewSubscribers(accounts: seq<ConnectedAccount>, videos: seq<Video>, snapshots: seq<AnalyticsSnapshot>,
                            userId: int, periodDays: int, now: int)
    requires GetFirstConnectedAccount(accounts, userId).Some?
    ensures var acc := GetFirstConnectedAccount(accounts, userId).value;
      var n := Overview(accounts, videos, snapshots, userId, periodDays, now).subscriberCount;
      && ((forall i :: 0 <= i < |snapshots| ==> !Elapsed(snapshots[i], acc.id, now)) ==> n == 0)
      && (forall i :: 0 <= i < |snapshots| && Elapsed(snapshots[i], acc.id, now) ==>
            exists j :: 0 <= j < |snapshots| && Elapsed(snapshots[j], acc.id, now)
              && snapshots[j].snapshotDate >= snapshots[i].snapshotDate && n == snapshots[j].subscriberCount)
  {
    var acc := GetFirstConnectedAccount(accounts, userId).value;
    var latest := LatestSnapshot(snapshots, acc.id, now);
    if latest.Some? {
      var j :| 0 <= j < |snapshots| && snapshots[j] == latest.value;
    }
  }

  // ---------------------------------------------------------------------
  // Videos
  // ---------------------------------------------------------------------

  /** ORDER BY published_at DESC NULLS LAST: `a` may come before `b`. */
  predicate NewerOrUndated(a: Video, b: Video)
  {
    b.publishedAt.None? || (a.publishedAt.Some? && a.publishedAt.value >= b.publishedAt.value)
  }

  lemma NewerOrUndatedIsPreorder()
    ensures TotalPreorder(NewerOrUndated)
  {
  }

  function ToItem(v: Video): VideoItem
  {
    VideoItem(v.id, v.externalId, v.title, v.viewCount, v.likeCount, v.commentCount, v.publishedAt, v.thumbnailUrl)
  }

  function VideoItems(vs: seq<Video>): (r: seq<VideoItem>)
    ensures |r| == |vs| && forall i :: 0 <= i < |vs| ==> r[i] == ToItem(vs[i])
  {
    seq(|vs|, i requires 0 <= i < |vs| => ToItem(vs[i]))
  }

  /** The account's videos in the order the query sorts them. */
  function SortedVideos(videos: seq<Video>, accountId: int): seq<Video>
  {
    SortBy(AccountVideos(videos, accountId), NewerOrUndated)
  }

  /** OFFSET of page `page` (from 1) of `pageSize` rows. */
  function Offset(page: int, pageSize: int): nat
    requires page >= 1 && pageSize >= 1
  {
    ProductNonNegative(page - 1, pageSize);
    (page - 1) * pageSize
  }

  lemma ProductNonNegative(a: int, b: int)
    requires a >= 0 && b >= 0
    ensures a * b >= 0
  {
  }

  /** The page `page` (from 1) of `pageSize` videos: OFFSET (page-1)*pageSize
      LIMIT pageSize. */
  function PageOf(sorted: seq<Video>, page: int, pageSize: int): (r: seq<Video>)
    requires page >= 1 && pageSize >= 1
    ensures var offset := Offset(page, pageSize);
      && |r| == (if offset >= |sorted| then 0 else if offset + pageSize <= |sorted| then pageSize else |sorted| - offset)
      && forall i :: 0 <= i < |r| ==> r[i] == sorted[offset + i]
  {
    Window(sorted, Offset(page, pageSize), pageSize)
  }

  /** The list a validated request returns. */
  function VideosPage(accounts: seq<ConnectedAccount>, videos: seq<Video>, userId: int, page: int, pageSize: int)
    : VideosListResponse
    requires page >= 1 && pageSize >= 1
  {
    match GetFirstConnectedAccount(accounts, userId)
    case None => VideosListResponse([], 0, page, pageSize)
    case Some(acc) =>
      VideosListResponse(VideoItems(PageOf(SortedVideos(videos, acc.id), page, pageSize)),
                         |AccountVideos(videos, acc.id)|, page, pageSize)
  }

  /** `analytics_videos`: the range checks on `page` and `page_size`, then
      the page. It never touches the cache. */
  function AnalyticsVideos(accounts: seq<ConnectedAccount>, videos: seq<Video>, userId: int,
                           page: Option<int>, pageSize: Option<int>): (r: Result<VideosListResponse, HttpError>)
    ensures r.Ok? <==> QueryInt(page, DEFAULT_PAGE, 1, None).Ok? && QueryInt(pageSize, DEFAULT_PAGE_SIZE, 1, Some(MAX_PAGE_SIZE)).Ok?
    ensures r.Ok? ==> (r.value.page == QueryInt(page, DEFAULT_PAGE, 1, None).value
      && r.value.pageSize == QueryInt(pageSize, DEFAULT_PAGE_SIZE, 1, Some(MAX_PAGE_SIZE)).value)
    ensures r.Ok? ==> r.value == VideosPage(accounts, videos, userId, r.value.page, r.value.pageSize)
    ensures r.Err? ==> r.error == VALIDATION_ERROR
  {
    match QueryInt(page, DEFAULT_PAGE, 1, None)
    case Err(e) => Err(e)
    case Ok(p) =>
      match QueryInt(pageSize, DEFAULT_PAGE_SIZE, 1, Some(MAX_PAGE_SIZE))
      case Err(e) => Err(e)
      case Ok(n) => Ok(VideosPage(accounts, videos, userId, p, n))
  }

  /** The page and page size are echoed; without an account the list is
      empty and the total is 0. */
  lemma VideosPageEcho(accounts: seq<ConnectedAccount>, videos: seq<Video>, userId: int, page: int, pageSize: int)
    requires page >= 1 && pageSize >= 1
    ensures var r := VideosPage(accounts, videos, userId, page, pageSize);
      && r.page == page && r.pageSize == pageSize
      && (GetFirstConnectedAccount(accounts, userId).None? ==> r.items == [] && r.total == 0)
  {
  }

  /** The order pages are cut from: all the account's videos, each once,
      newest first with undated ones last. */
  lemma SortedVideosSpec(videos: seq<Video>, accountId: int)
    ensures multiset(SortedVideos(videos, accountId)) == multiset(AccountVideos(videos, accountId))
    ensures SortedBy(SortedVideos(videos, accountId), NewerOrUndated)
    ensures forall v :: v in SortedVideos(videos, accountId) <==> v in videos && v.accountId == accountId
  {
    var all := AccountVideos(videos, accountId);
    NewerOrUndatedIsPreorder();
    SortBySorted(all, NewerOrUndated);
    var sorted := SortedVideos(videos, accountId);
    forall v ensures v in sorted <==> v in all {
      calc {
        v in sorted;
        v in multiset(sorted);
        v in multiset(all);
        v in all;
      }
    }
  }

  /** `total` counts all the account's videos, whatever the page. */
  lemma VideosPageTotal(accounts: seq<ConnectedAccount>, videos: seq<Video>, userId: int, page: int, pageSize: int,
                        acc: ConnectedAccount)
    requires page >= 1 && pageSize >= 1
    requires GetFirstConnectedAccount(accounts, userId) == Some(acc)
    ensures VideosPage(accounts, videos, userId, page, pageSize).total
         == |AccountVideos(videos, acc.id)| == |SortedVideos(videos, acc.id)|
  {
  }

  /** A page holds page_size videos, fewer on the last page, none past it. */
  lemma VideosPageLength(accounts: seq<ConnectedAccount>, videos: seq<Video>, userId: int, page: int, pageSize: int,
                         acc: ConnectedAccount)
    requires page >= 1 && pageSize >= 1
    requires GetFirstConnectedAccount(accounts, userId) == Some(acc)
    ensures var r := VideosPage(accounts, videos, userId, page, pageSize);
      var total, offset := |SortedVideos(videos, acc.id)|, Offset(page, pageSize);
      |r.items| == (if offset >= total then 0 else if offset + pageSize <= total then pageSize else total - offset)
  {
  }

  /** The items are the sorted videos from position (page-1)*page_size on. */
  lemma VideosPageItems(accounts: seq<ConnectedAccount>, videos: seq<Video>, userId: int, page: int, pageSize: int,
                        acc: ConnectedAccount)
    requires page >= 1 && pageSize >= 1
    requires GetFirstConnectedAccount(accounts, userId) == Some(acc)
    ensures var r := VideosPage(accounts, videos, userId, page, pageSize);
      var sorted, offset := SortedVideos(videos, acc.id), Offset(page, pageSize);
      forall i :: 0 <= i < |r.items| ==> offset + i < |sorted| && r.items[i] == ToItem(sorted[offset + i])
  {
    var sorted := SortedVideos(videos, acc.id);
    var items := VideosPage(accounts, videos, userId, page, pageSize).items;
    assert items == VideoItems(PageOf(sorted, page, pageSize));
    var offset := Offset(page, pageSize);
    forall i | 0 <= i < |items| ensures offset + i < |sorted| && items[i] == ToItem(sorted[offset + i]) {
      PageItem(sorted, page, pageSize, i);
    }
  }

  lemma PageItem(sorted: seq<Video>, page: int, pageSize: int, i: int)
    requires page >= 1 && pageSize >= 1
    requires 0 <= i < |PageOf(sorted, page, pageSize)|
    ensures Offset(page, pageSize) + i < |sorted|
    ensures VideoItems(PageOf(sorted, page, pageSize))[i] == ToItem(sorted[Offset(page, pageSize) + i])
  {
  }

  /** Pages 1 to k, concatenated. */
  function Pages(sorted: seq<Video>, pageSize: int, k: nat): seq<Video>
    requires pageSize >= 1
  {
    if k == 0 then [] else Pages(sorted, pageSize, k - 1) + PageOf(sorted, k, pageSize)
  }

  /** Reading pages 1, 2, …, k in turn gives the first k*page_size videos
      exactly once each, in order: no video is skipped or repeated. */
  lemma {:induction false} PagesArePrefix(sorted: seq<Video>, pageSize: int, k: nat)
    requires pageSize >= 1
    ensures Pages(sorted, pageSize, k) == Take(sorted, k * pageSize)
  {
    if k > 0 {
      PagesArePrefix(sorted, pageSize, k - 1);
      var a, b := Take(sorted, (k - 1) * pageSize), PageOf(sorted, k, pageSize);
      var c := Take(sorted, k * pageSize);
      assert |a + b| == |c|;
      forall i | 0 <= i < |c| ensures (a + b)[i] == c[i] {
        if i >= |a| { assert (a + b)[i] == b[i - |a|]; }
      }
    }
  }

  /** Once k*page_size reaches the total, pages 1..k hold every video of the
      account exactly once. */
  lemma PagesCoverAll(videos: seq<Video>, accountId: int, pageSize: int, k: nat)
    requires pageSize >= 1 && k * pageSize >= |AccountVideos(videos, accountId)|
    ensures multiset(Pages(SortedVideos(videos, accountId), pageSize, k)) == multiset(AccountVideos(videos, accountId))
  {
    PagesArePrefix(SortedVideos(videos, accountId), pageSize, k);
  }

  // ---------------------------------------------------------------------
  // Growth
  // ---------------------------------------------------------------------

  /** A daily snapshot of the account dated on or after `since`. */
  predicate InGrowthWindow(s: AnalyticsSnapshot, accountId: int, since: int)
  {
    s.accountId == accountId && s.snapshotDate >= since && s.periodType == DAILY
  }

  /** The account's daily snapshots from `since` on, in table order. */
  function WindowSnapshots(snapshots: seq<AnalyticsSnapshot>, accountId: int, since: int): (r: seq<AnalyticsSnapshot>)
    ensures |r| <= |snapshots|
    ensures forall s :: s in r <==> s in snapshots && InGrowthWindow(s, accountId, since)
    decreases |snapshots|
  {
    if |snapshots| == 0 then []
    else
      var rest := WindowSnapshots(snapshots[1..], accountId, since);
      assert snapshots == [snapshots[0]] + snapshots[1..];
      if InGrowthWindow(snapshots[0], accountId, since) then [snapshots[0]] + rest else rest
  }

  /** Every snapshot in the window appears exactly as often as it is
      stored, any other not at all. */
  lemma {:induction false} WindowSnapshotsCount(snapshots: seq<AnalyticsSnapshot>, accountId: int, since: int,
                                                s: AnalyticsSnapshot)
    ensures multiset(WindowSnapshots(snapshots, accountId, since))[s]
         == if InGrowthWindow(s, accountId, since) then multiset(snapshots)[s] else 0
    decreases |snapshots|
  {
    if |snapshots| > 0 {
      assert snapshots == [snapshots[0]] + snapshots[1..];
      WindowSnapshotsCount(snapshots[1..], accountId, since, s);
    }
  }

  /** ORDER BY snapshot_date ASC: `a` may come before `b`. */
  predicate NotLater(a: AnalyticsSnapshot, b: AnalyticsSnapshot)
  {
    a.snapshotDate <= b.snapshotDate
  }

  lemma NotLaterIsPreorder()
    ensures TotalPreorder(NotLater)
  {
  }

  function ToPoint(s: AnalyticsSnapshot): GrowthPoint
  {
    GrowthPoint(s.snapshotDate, s.totalViews, s.totalLikes, s.totalComments, s.subscriberCount)
  }

  function ToPoints(ss: seq<AnalyticsSnapshot>): (r: seq<GrowthPoint>)
    ensures |r| == |ss| && forall i :: 0 <= i < |ss| ==> r[i] == ToPoint(ss[i])
  {
    seq(|ss|, i requires 0 <= i < |ss| => ToPoint(ss[i]))
  }

  /** The first day of a `periodDays` window ending at `now`. */
  function WindowStart(now: int, periodDays: int): int
  {
    now - periodDays * DAY
  }

  /** The snapshots behind the growth series, in the order returned. */
  function GrowthSnapshots(snapshots: seq<AnalyticsSnapshot>, accountId: int, periodDays: int, now: int): seq<AnalyticsSnapshot>
  {
    SortBy(WindowSnapshots(snapshots, accountId, WindowStart(now, periodDays)), NotLater)
  }

  /** The growth series a cache miss computes. */
  function Growth(accounts: seq<ConnectedAccount>, snapshots: seq<AnalyticsSnapshot>,
                  userId: int, periodDays: int, now: int): GrowthResponse
  {
    match GetFirstConnectedAccount(accounts, userId)
    case None => GrowthResponse([], periodDays)
    case Some(acc) => GrowthResponse(ToPoints(GrowthSnapshots(snapshots, acc.id, periodDays, now)), periodDays)
  }

  /** The series holds exactly the account's daily snapshots dated on or
      after now - period_days days, each once, in ascending date order, each
      point copying its snapshot's counters. */
  lemma GrowthSpec(accounts: seq<ConnectedAccount>, snapshots: seq<AnalyticsSnapshot>,
                   userId: int, periodDays: int, now: int)
    ensures var r := Growth(accounts, snapshots, userId, periodDays, now);
      && r.periodDays == periodDays
      && (GetFirstConnectedAccount(accounts, userId).None? ==> r.data == [])
      && (GetFirstConnectedAccount(accounts, userId).Some? ==>
            var acc := GetFirstConnectedAccount(accounts, userId).value;
            var since := WindowStart(now, periodDays);
            var ss := GrowthSnapshots(snapshots, acc.id, periodDays, now);
            && multiset(ss) == multiset(WindowSnapshots(snapshots, acc.id, since))
            && |r.data| == |ss|
            && (forall i :: 0 <= i < |ss| ==> r.data[i] == ToPoint(ss[i]))
            && (forall i :: 0 <= i < |ss| ==> ss[i] in snapshots && InGrowthWindow(ss[i], acc.id, since))
            && (forall i, j :: 0 <= i < j < |r.data| ==> r.data[i].date <= r.data[j].date))
  {
    if GetFirstConnectedAccount(accounts, userId).Some? {
      var acc := GetFirstConnectedAccount(accounts, userId).value;
      var since := WindowStart(now, periodDays);
      var w := WindowSnapshots(snapshots, acc.id, since);
      var ss := GrowthSnapshots(snapshots, acc.id, periodDays, now);
      NotLaterIsPreorder();
      SortBySorted(w, NotLater);
      forall i | 0 <= i < |ss| ensures ss[i] in snapshots && InGrowthWindow(ss[i], acc.id, since) {
        SortByElements(w, NotLater, i);
      }
    }
  }

  // ---------------------------------------------------------------------
  // The cache-aside handlers
  // ---------------------------------------------------------------------
  // ---------------------------------------------------------------------

  /** What one request does: its response and the cache afterwards. */
  datatype Outcome<T> = Outcome(response: Result<T, HttpError>, entries: map<string, Entry<CachedValue>>)

  type CacheMap = map<string, Entry<CachedValue>>

  /** The period a request asks for, after FastAPI's range check. */
  function Period(periodDays: Option<int>): Result<int, HttpError>
  {
    QueryInt(periodDays, DEFAULT_PERIOD_DAYS, 1, Some(MAX_PERIOD_DAYS))
  }

  /** What the cache read returns for `key`. */
  function Read(entries: CacheMap, key: string, now: int, readFails: bool): Option<CachedValue>
  {
    if readFails then None else Lookup(entries, key, now)
  }

  /** `analytics_overview` as a function of the cache and the tables. A
      valid period is looked up under its key: a hit is returned as stored
      without consulting the tables (a stored growth series fails the
      response model: 500); a miss computes the overview and, when the user
      has an account, stores it for CACHE_TTL seconds, unless the write
      fails, which is ignored. */
  function OverviewRequest(entries: CacheMap, accounts: seq<ConnectedAccount>, videos: seq<Video>,
                           snapshots: seq<AnalyticsSnapshot>, userId: int, periodDays: Option<int>,
                           now: int, readFails: bool, writeFails: bool): (o: Outcome<OverviewResponse>)
    ensures Period(periodDays).Err? ==> o == Outcome(Err(VALIDATION_ERROR), entries)
    ensures Period(periodDays).Ok? ==>
      var p := Period(periodDays).value;
      var hit := Read(entries, OverviewKey(userId, p), now, readFails);
      && (hit.Some? ==> o.entries == entries)
      && (hit.Some? && hit.value.CachedOverview? ==> o.response == Ok(hit.value.overview))
      && (hit.Some? && hit.value.CachedGrowth? ==> o.response == Err(MALFORMED_CACHE_ENTRY))
      && (hit.None? ==> o.response == Ok(Overview(accounts, videos, snapshots, userId, p, now)))
      && (hit.None? && (GetFirstConnectedAccount(accounts, userId).None? || writeFails) ==> o.entries == entries)
      && (hit.None? && GetFirstConnectedAccount(accounts, userId).Some? && !writeFails ==>
            o.entries == entries[OverviewKey(userId, p) :=
                                 Entry(CachedOverview(Overview(accounts, videos, snapshots, userId, p, now)), now + CACHE_TTL)])
  {
    match Period(periodDays)
    case Err(e) => Outcome(Err(e), entries)
    case Ok(p) =>
      var key := OverviewKey(userId, p);
      match Read(entries, key, now, readFails)
      case Some(CachedOverview(o)) => Outcome(Ok(o), entries)
      case Some(CachedGrowth(_)) => Outcome(Err(MALFORMED_CACHE_ENTRY), entries)
      case None =>
        if GetFirstConnectedAccount(accounts, userId).None? then
          Outcome(Ok(OverviewResponse(0, 0, 0, 0, 0, p)), entries)
        else
          var resp := Overview(accounts, videos, snapshots, userId, p, now);
          Outcome(Ok(resp), if writeFails then entries else entries[key := Entry(CachedOverview(resp), now + CACHE_TTL)])
  }

  /** `analytics_growth` as a function of the cache and the tables: the same
      cache-aside shape over the growth series. */
  function GrowthRequest(entries: CacheMap, accounts: seq<ConnectedAccount>, snapshots: seq<AnalyticsSnapshot>,
                         userId: int, periodDays: Option<int>,
                         now: int, readFails: bool, writeFails: bool): (o: Outcome<GrowthResponse>)
    ensures Period(periodDays).Err? ==> o == Outcome(Err(VALIDATION_ERROR), entries)
    ensures Period(periodDays).Ok? ==>
      var p := Period(periodDays).value;
      var hit := Read(entries, GrowthKey(userId, p), now, readFails);
      && (hit.Some? ==> o.entries == entries)
      && (hit.Some? && hit.value.CachedGrowth? ==> o.response == Ok(hit.value.growth))
      && (hit.Some? && hit.value.CachedOverview? ==> o.response == Err(MALFORMED_CACHE_ENTRY))
      && (hit.None? ==> o.response == Ok(Growth(accounts, snapshots, userId, p, now)))
      && (hit.None? && (GetFirstConnectedAccount(accounts, userId).None? || writeFails) ==> o.entries == entries)
      && (hit.None? && GetFirstConnectedAccount(accounts, userId).Some? && !writeFails ==>
            o.entries == entries[GrowthKey(userId, p) :=
                                 Entry(CachedGrowth(Growth(accounts, snapshots, userId, p, now)), now + CACHE_TTL)])
  {
    match Period(periodDays)
    case Err(e) => Outcome(Err(e), entries)
    case Ok(p) =>
      var key := GrowthKey(userId, p);
      match Read(entries, key, now, readFails)
      case Some(CachedGrowth(g)) => Outcome(Ok(g), entries)
      case Some(CachedOverview(_)) => Outcome(Err(MALFORMED_CACHE_ENTRY), entries)
      case None =>
        if GetFirstConnectedAccount(accounts, userId).None? then
          Outcome(Ok(GrowthResponse([], p)), entries)
        else
          var resp := Growth(accounts, snapshots, userId, p, now);
          Outcome(Ok(resp), if writeFails then entries else entries[key := Entry(CachedGrowth(resp), now + CACHE_TTL)])
  }

  /** Both handlers keep the cache well keyed, and on a well-keyed cache a
      valid request never fails: the 500 path needs an entry of the wrong
      kind under the request's key. */
  lemma RequestsKeepWellKeyed(entries: CacheMap, accounts: seq<ConnectedAccount>, videos: seq<Video>,
                              snapshots: seq<AnalyticsSnapshot>, userId: int, periodDays: Option<int>,
                              now: int, readFails: bool, writeFails: bool)
    requires WellKeyed(entries)
    ensures var o := OverviewRequest(entries, accounts, videos, snapshots, userId, periodDays, now, readFails, writeFails);
      WellKeyed(o.entries) && (Period(periodDays).Ok? ==> o.response.Ok?)
    ensures var g := GrowthRequest(entries, accounts, snapshots, userId, periodDays, now, readFails, writeFails);
      WellKeyed(g.entries) && (Period(periodDays).Ok? ==> g.response.Ok?)
  {
    if Period(periodDays).Ok? {
      var p := Period(periodDays).value;
      WellKeyedHits(entries, userId, p, now);
      StoreOverviewKeepsWellKeyed(entries, userId, p, Overview(accounts, videos, snapshots, userId, p, now), now + CACHE_TTL);
      StoreGrowthKeepsWellKeyed(entries, userId, p, Growth(accounts, snapshots, userId, p, now), now + CACHE_TTL);
    }
  }

  /** A stored overview is served for the next CACHE_TTL seconds: a second
      request for the same user and period within that time, whose read
      succeeds, returns the first response even if the tables changed. */
  lemma OverviewServedFromCache(entries: CacheMap, accounts: seq<ConnectedAccount>, videos: seq<Video>,
                                snapshots: seq<AnalyticsSnapshot>, accounts': seq<ConnectedAccount>,
                                videos': seq<Video>, snapshots': seq<AnalyticsSnapshot>,
                                userId: int, periodDays: Option<int>, now: int, later: int)
    requires now <= later < now + CACHE_TTL
    requires Period(periodDays).Ok?
    requires Read(entries, OverviewKey(userId, Period(periodDays).value), now, false).None?
    requires GetFirstConnectedAccount(accounts, userId).Some?
    ensures var first := OverviewRequest(entries, accounts, videos, snapshots, userId, periodDays, now, false, false);
      var second := OverviewRequest(first.entries, accounts', videos', snapshots', userId, periodDays, later, false, false);
      second == first
  {
    var p := Period(periodDays).value;
    var first := OverviewRequest(entries, accounts, videos, snapshots, userId, periodDays, now, false, false);
    LookupAfterStore(entries, OverviewKey(userId, p), CachedOverview(Overview(accounts, videos, snapshots, userId, p, now)),
                     CACHE_TTL, now, later, OverviewKey(userId, p));
  }

  /** `analytics_overview` over the cache object and the database. */
  method AnalyticsOverview(cache: Cache<CachedValue>, db: Database, userId: int, periodDays: Option<int>,
                           now: int, readFails: bool, writeFails: bool)
    returns (r: Result<OverviewResponse, HttpError>)
    modifies cache
    ensures Outcome(r, cache.entries)
         == OverviewRequest(old(cache.entries), db.accounts, db.videos, db.snapshots, userId, periodDays, now, readFails, writeFails)
  {
    var valid := Period(periodDays);
    if valid.Err? {
      return Err(valid.error);
    }
    var p := valid.value;
    var key := OverviewKey(userId, p);
    var cached := cache.Get(key, now, readFails);
    if cached.Some? {
      match cached.value
      case CachedOverview(o) => return Ok(o);
      case CachedGrowth(_) => return Err(MALFORMED_CACHE_ENTRY);
    }
    var acc := GetFirstConnectedAccount(db.accounts, userId);
    if acc.None? {
      return Ok(OverviewResponse(0, 0, 0, 0, 0, p));
    }
    var resp := Overview(db.accounts, db.videos, db.snapshots, userId, p, now);
    cache.Set(key, CachedOverview(resp), CACHE_TTL, now, writeFails);
    r := Ok(resp);
  }

  /** `analytics_growth` over the cache object and the database. */
  method AnalyticsGrowth(cache: Cache<CachedValue>, db: Database, userId: int, periodDays: Option<int>,
                         now: int, readFails: bool, writeFails: bool)
    returns (r: Result<GrowthResponse, HttpError>)
    modifies cache
    ensures Outcome(r, cache.entries)
         == GrowthRequest(old(cache.entries), db.accounts, db.snapshots, userId, periodDays, now, readFails, writeFails)
  {
    var valid := Period(periodDays);
    if valid.Err? {
      return Err(valid.error);
    }
    var p := valid.value;
    var key := GrowthKey(userId, p);
    var cached := cache.Get(key, now, readFails);
    if cached.Some? {
      match cached.value
      case CachedGrowth(g) => return Ok(g);
      case CachedOverview(_) => return Err(MALFORMED_CACHE_ENTRY);
    }
    var acc := GetFirstConnectedAccount(db.accounts, userId);
    if acc.None? {
      return Ok(GrowthResponse([], p));
    }
    var resp := Growth(db.accounts, db.snapshots, userId, p, now);
    cache.Set(key, CachedGrowth(resp), CACHE_TTL, now, writeFails);
    r := Ok(resp);
  }
}
