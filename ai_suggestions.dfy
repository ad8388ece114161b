/** `GET /ai/suggestions` (app/routers/ai_suggestions.py): the caller's
    insights, newest first, at most `limit` of them, with the total number
    the caller has. */
module AiSuggestions {
  import opened Wrappers
  import opened Sorting
  import opened Http
  import opened Models

  const DEFAULT_LIMIT := 20
  const MAX_LIMIT := 50

  datatype SuggestionItem = SuggestionItem(
    id: int,
    insightType: string,
    title: string,
    content: string,
    priority: string,
    isRead: bool,
    createdAt: int)

  datatype SuggestionsResponse = SuggestionsResponse(items: seq<SuggestionItem>, total: int)

  /** The rows WHERE user_id = userId, in table order. */
  function UserInsights(insights: seq<AIInsight>, userId: int): (r: seq<AIInsight>)
    ensures |r| <= |insights|
    ensures forall x :: x in r <==> x in insights && x.userId == userId
    decreases |insights|
  {
    if |insights| == 0 then []
    else
      var rest := UserInsights(insights[1..], userId);
      assert insights == [insights[0]] + insights[1..];
      if insights[0].userId == userId then [insights[0]] + rest else rest
  }

  /** Every insight of the user appears exactly as often as it is stored,
      any other not at all. */
  lemma {:induction false} UserInsightsCount(insights: seq<AIInsight>, userId: int, x: AIInsight)
    ensures multiset(UserInsights(insights, userId))[x]
         == if x.userId == userId then multiset(insights)[x] else 0
    decreases |insights|
  {
    if |insights| > 0 {
      assert insights == [insights[0]] + insights[1..];
      UserInsightsCount(insights[1..], userId, x);
    }
  }

  /** ORDER BY created_at DESC: `a` may come before `b`. */
  predicate NewerOrSame(a: AIInsight, b: AIInsight)
  {
    a.createdAt >= b.createdAt
  }

  lemma NewerOrSameIsPreorder()
    ensures TotalPreorder(NewerOrSame)
  {
  }

  function ToItem(x: AIInsight): SuggestionItem
  {
    SuggestionItem(x.id, x.insightType, x.title, x.content, x.priority, x.isRead, x.createdAt)
  }

  function InsightItems(xs: seq<AIInsight>): (r: seq<SuggestionItem>)
    ensures |r| == |xs| && forall i :: 0 <= i < |xs| ==> r[i] == ToItem(xs[i])
  {
    seq(|xs|, i requires 0 <= i < |xs| => ToItem(xs[i]))
  }

  /** The user's insights, newest first. */
  function Newest(insights: seq<AIInsight>, userId: int): seq<AIInsight>
  {
    SortBy(UserInsights(insights, userId), NewerOrSame)
  }

  /** The response to a request whose limit passed validation. */
  function Suggestions(insights: seq<AIInsight>, userId: int, limit: nat): SuggestionsResponse
  {
    SuggestionsResponse(InsightItems(Take(Newest(insights, userId), limit)), |UserInsights(insights, userId)|)
  }

  /** `get_suggestions`: `limit` must lie in 1..50 (default 20). */
  function GetSuggestions(insights: seq<AIInsight>, userId: int, limit: Option<int>): (r: Result<SuggestionsResponse, HttpError>)
    ensures r.Err? <==> QueryInt(limit, DEFAULT_LIMIT, 1, Some(MAX_LIMIT)).Err?
    ensures r.Err? ==> r.error == VALIDATION_ERROR
    ensures r.Ok? ==> |r.value.items| <= QueryInt(limit, DEFAULT_LIMIT, 1, Some(MAX_LIMIT)).value <= MAX_LIMIT
    ensures r.Ok? ==> r.value == Suggestions(insights, userId, QueryInt(limit, DEFAULT_LIMIT, 1, Some(MAX_LIMIT)).value)
  {
    match QueryInt(limit, DEFAULT_LIMIT, 1, Some(MAX_LIMIT))
    case Err(e) => Err(e)
    case Ok(n) => Ok(Suggestions(insights, userId, n))
  }

  /** What a response holds: `total` counts all the user's insights whatever
      the limit; there are min(limit, total) items; they are the newest
      ones, in descending creation time, each one of the user's insights,
      and no insight of the user left out is newer than one returned. */
  lemma SuggestionsSpec(insights: seq<AIInsight>, userId: int, limit: nat)
    ensures var r := Suggestions(insights, userId, limit);
      var all := UserInsights(insights, userId);
      var sorted := Newest(insights, userId);
      && r.total == |all| == |sorted|
      && multiset(sorted) == multiset(all)
      && |r.items| == (if limit < r.total then limit else r.total)
      && (forall i :: 0 <= i < |r.items| ==> r.items[i] == ToItem(sorted[i]))
      && (forall i, j :: 0 <= i < j < |r.items| ==> r.items[i].createdAt >= r.items[j].createdAt)
      && (forall i :: 0 <= i < |r.items| ==> sorted[i] in insights && sorted[i].userId == userId)
      && (forall i, j :: 0 <= i < |r.items| <= j < |sorted| ==> sorted[j].createdAt <= r.items[i].createdAt)
  {
    var all := UserInsights(insights, userId);
    var sorted := Newest(insights, userId);
    NewerOrSameIsPreorder();
    SortBySorted(all, NewerOrSame);
    forall i | 0 <= i < |sorted| ensures sorted[i] in insights && sorted[i].userId == userId {
      SortByElements(all, NewerOrSame, i);
    }
  }

  /** Without a limit in the way every one of the user's insights is
      returned, each as often as it is stored. */
  lemma SuggestionsAllWhenLimitLarge(insights: seq<AIInsight>, userId: int, limit: nat)
    requires limit >= |UserInsights(insights, userId)|
    ensures Suggestions(insights, userId, limit).items == InsightItems(Newest(insights, userId))
    ensures multiset(Newest(insights, userId)) == multiset(UserInsights(insights, userId))
  {
  }

  /** Another user's insights never appear and never change the answer. */
  lemma OtherUsersIgnored(insights: seq<AIInsight>, userId: int, limit: nat, x: AIInsight)
    requires x.userId != userId
    ensures Suggestions(insights + [x], userId, limit) == Suggestions(insights, userId, limit)
  {
    UserInsightsAppend(insights, x, userId);
    assert UserInsights(insights, userId) + [] == UserInsights(insights, userId);
  }

  lemma {:induction false} UserInsightsAppend(insights: seq<AIInsight>, x: AIInsight, userId: int)
    ensures UserInsights(insights + [x], userId)
         == UserInsights(insights, userId) + (if x.userId == userId then [x] else [])
    decreases |insights|
  {
    if |insights| > 0 {
      assert (insights + [x])[1..] == insights[1..] + [x];
      UserInsightsAppend(insights[1..], x, userId);
    } else {
      assert insights + [x] == [x];
    }
  }
}
