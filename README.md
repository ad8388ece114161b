# Creator Analytics backend, modelled in Dafny

This project models the core of the Creator Analytics backend, a FastAPI
service that shows YouTube creators their channel statistics and AI
suggestions. It covers:

- **The analytics read path.** The overview totals, the paginated video list
  and the growth series are each computed from one of the caller's connected
  accounts. Overview and growth sit behind a cache-aside step on an expiring
  key/value cache.
- **The suggestions list.** The caller's insights, newest first, capped by
  `limit`, with the total count.
- **The authentication gate.** The ordered checks of `get_current_user_id`,
  token issue with its `exp` claim (section 4.1.4 of RFC 7519), and
  `decode_token`'s error-to-None contract.
- **Registration and login** over a user table whose emails are unique.
- **The mock YouTube service.** `create_mock_channel` adds one account, five
  videos and thirty daily snapshots. `get_first_connected_account` is the
  account lookup.
- **First-run seeding** (`seed_if_empty`) and **the weekly insight job**
  (`weekly_ai_insights`), with its commit/rollback.
- **Configuration.** The `DATABASE_URL` prefix rewriting and defaults, the
  `CORS_ORIGINS` split, the `DEBUG` flag, and the worker's synchronous
  database URL.

Each database table is a sequence of records inside a `Models.Database`
object. That object also holds each table's autoincrement counter. Steps
that insert rows are methods that modify it. A loop that adds rows one at a
time is a `for` loop whose invariant says the table equals its old contents
plus a prefix of the rows a specification function lists. The cache is a
`RedisCache.Cache` object holding a map from key to value and expiry time.
The two cached handlers are methods, and each is proved equal to a pure
function of the old cache and the tables. The lemmas are stated about those
functions.

Some inputs are parameters:

- The clock is an integer `now` in seconds.
- Random draws are values constrained to the ranges the code draws from.
- Cache read and write failures, and database faults, are booleans or a
  `Fault` value.
- bcrypt's `hash`/`verify` and jose's `encode`/`decode` are function
  parameters. Login and the gate lemmas assume only that `verify(p, hash(p))`
  holds and that decoding gives back what was signed.

Files, one module each:

| File | Module |
|---|---|
| `wrappers.dfy` | `Wrappers` |
| `strings.dfy` | `Strings` (Python's `str`, `int()`, `strip`, `split`, `replace`, `lower` on ASCII) |
| `sorting.dfy` | `Sorting` (ORDER BY as a stable sort, LIMIT/OFFSET) |
| `http.dfy` | `Http` (errors and FastAPI's `Query` range checks) |
| `models.dfy` | `Models` |
| `config.dfy` | `Config` |
| `jwt.dfy` | `Jwt` |
| `auth_routes.dfy` | `AuthRoutes` |
| `youtube_mock.dfy` | `YouTubeMock` |
| `cache.dfy` | `RedisCache` |
| `analytics.dfy` | `Analytics` |
| `ai_suggestions.dfy` | `AiSuggestions` |
| `sync_url.dfy` | `SyncUrl` |
| `ai_tasks.dfy` | `AiTasks` |
| `seed_data.dfy` | `SeedData` |

## Model

| member | source | states |
|---|---|---|
| Http.QueryInt | app/routers/analytics.py:30 | A query integer is accepted exactly when its value, or the default when absent, lies in [lo, hi]; the accepted value is that value; every refusal is the 422 validation error |
| Models.FindUserByEmail | app/routers/auth.py:20-21 | `select(User).where(email == …).first()`: None exactly when no user has the email; otherwise a stored user with that email |
| Models.FindUserByEmailUnique | app/models/user.py:15 | With the unique index on email, the lookup returns the one user holding that email |
| Models.Database.constructor | app/models/user.py:14-15 | A new schema: every table empty and every autoincrement key starting at 1 |
| Config.TokenLifetime | app/core/config.py:42 | The token lifetime is 60·24·7 = 10080 minutes |
| Config.Debug | app/core/config.py:21 | DEBUG is true exactly when the variable is set and reads "true" in any letter case; unset means false |
| Config.DatabaseUrl | app/core/config.py:24-34 | A set URL with `postgres://` or `postgresql://` gets the `postgresql+asyncpg://` scheme with the rest kept; any other set URL is used unchanged; an unset or empty one gives the local SQLite file, or the /tmp one when VERCEL is set |
| Config.CorsOrigins | app/core/config.py:46-47 | Unset or empty gives ["*"]; otherwise one entry per comma-separated piece (commas + 1 of them), entry k being the k-th piece stripped, so comma-free with no whitespace at either end |
| Config.StripAll | app/core/config.py:47 | The comprehension keeps one entry per piece, each the stripped piece |
| Config.CorsOriginsOfList | app/core/config.py:46-47 | Writing a list of clean origins comma-separated into CORS_ORIGINS reads that list back |
| Strings.ParseIntOfIntToString | app/auth/jwt.py:56 | `int(str(i)) == i`, so the gate reads back the subject that register and login write |
| Strings.ParseInt | app/auth/jwt.py:56 | Models `int(sub)`: a value only when the stripped text is non-empty; specified by Strings.ParseIntOfDigits, Strings.ParseIntOfSigned, Strings.ParseIntOfPlus, Strings.ParseIntIgnoresOuterSpace, Strings.ParseIntRefusesBadStart, Strings.ParseIntRefusesInnerNonDigit and Strings.ParseIntOfIntToString |
| Strings.ParseIntOfDigits | app/auth/jwt.py:56 | A run of decimal digits reads as its value |
| Strings.ParseIntOfSigned | app/auth/jwt.py:56 | A minus sign before a run of digits worth n reads as -n |
| Strings.ParseIntOfPlus | app/auth/jwt.py:56 | A plus sign before a run of digits reads as their value |
| Strings.ParseIntIgnoresOuterSpace | app/auth/jwt.py:56 | Whitespace around the text changes nothing: `int(" " + s + " ") == int(s)`, value or refusal alike |
| Strings.ParseIntRefusesBadStart | app/auth/jwt.py:55-58 | Text whose stripped form starts with neither a digit nor a sign is refused (the "Invalid user id" case) |
| Strings.ParseIntRefusesInnerNonDigit | app/auth/jwt.py:55-58 | Text whose stripped form has a non-digit after its first character is refused |
| Strings.Lower | app/core/config.py:21 | Models `.lower()`: same length, each ASCII capital lower-cased and every other character kept; Config.Debug states its use |
| Strings.SplitCount | app/core/config.py:47 | `split(",")` gives one more piece than there are commas |
| Strings.JoinSplit | app/core/config.py:47 | Joining the pieces of a split with the separator gives back the string |
| Strings.SplitJoin | app/core/config.py:47 | Splitting the join of separator-free pieces gives back the pieces |
| Jwt.AccessClaims | app/auth/jwt.py:14-19 | The signed claims are the caller's claims with `exp` set to now + 7 days (any `exp` supplied is replaced); no other claim is added or changed |
| Jwt.CreateAccessToken | app/auth/jwt.py:14-19 | Models `create_access_token`; specified by Jwt.AccessClaims and Jwt.GateAcceptsIssuedToken |
| Jwt.DecodeToken | app/auth/jwt.py:22-29 | A decoding failure becomes None and never propagates; otherwise the decoded payload is returned |
| Jwt.GetCurrentUserId | app/auth/jwt.py:32-58 | The four checks in order, each as an if-and-only-if: no credential gives 401 "Not authenticated" with the Bearer challenge; a failed decode or an empty payload gives 401 "Invalid or expired token" with the challenge; no `sub` gives 401 "Invalid token payload"; a `sub` that `int()` refuses gives 401 "Invalid user id"; success exactly when all pass, with `int(sub)` |
| Jwt.ClaimToInt | app/auth/jwt.py:56 | Models `int(user_id)` on a decoded claim: a string goes through Strings.ParseInt, an integer is kept, a boolean becomes 1 or 0, null and arrays or objects are refused; its refusals are the "Invalid user id" case of Jwt.GetCurrentUserId |
| Jwt.MissingCredentialsIgnoreDecoder | app/auth/jwt.py:39-44 | Without credentials the answer is "Not authenticated" whatever the decoder would say |
| Jwt.GateAcceptsIssuedToken | app/auth/jwt.py:14-19 | A token issued with `sub = str(id)` passes the gate as user `id` |
| AuthRoutes.Register | app/routers/auth.py:17-35 | A taken email gives 400 "Email already registered" with the table unchanged; otherwise exactly one user is appended with the email, full name and hash(password), and the response carries a token with `sub = str(new id)`; no other table changes |
| AuthRoutes.Login | app/routers/auth.py:38-52 | Success exactly when the user found by email verifies the password; an unknown email and a wrong password give the same 401; success returns a token for a user with that email |
| AuthRoutes.LoginAfterRegister | app/routers/auth.py:23-31 | A registered user logging in with their password gets a token for their own id |
| AuthRoutes.RegisterKeepsEmailsUnique | app/routers/auth.py:20-29 | Appending a user whose email was not found keeps emails unique |
| YouTubeMock.DerivedRangesNonEmpty | app/services/youtube_mock.py:15-24 | For views ≥ 0 the like range [v//100, v//20] and the comment range [v//500, v//100] are non-empty |
| YouTubeMock.Max0 | app/services/youtube_mock.py:72 | `max(0, x)`: never negative, and x itself when x ≥ 0 |
| YouTubeMock.MockAccountFacts | app/services/youtube_mock.py:29-36 | The account has the given id and user, platform "youtube", the requested name or "My Channel", and channel id exactly `UC_mock_{user_id}_{n}` for the drawn n in 1000..9999, whose four-digit suffix reads back as n |
| YouTubeMock.MockAccount | app/services/youtube_mock.py:29-36 | Models the account row; specified by YouTubeMock.MockAccountFacts |
| YouTubeMock.MockVideosFacts | app/services/youtube_mock.py:41-64 | Exactly five videos of the new account, with consecutive ids and the first five titles in order, external id `vid_{acc.id}_{i}`, published 7 to 90 days ago, lasting 180 to 1200 s, and counters in the drawn ranges |
| YouTubeMock.MockVideo | app/services/youtube_mock.py:52-63 | Models one video row; specified by YouTubeMock.MockVideosFacts and YouTubeMock.MockVideoExternalIdsDistinct |
| YouTubeMock.MockVideos | app/services/youtube_mock.py:51-64 | Models the five video rows in loop order; specified by YouTubeMock.MockVideosFacts |
| YouTubeMock.MockVideoExternalIdsDistinct | app/services/youtube_mock.py:56 | The five external ids are pairwise distinct |
| YouTubeMock.MockSnapshotsFacts | app/services/youtube_mock.py:66-85 | Exactly thirty "daily" snapshots, the d-th dated d days ago; views are max(0, base + 200·d + 10·delta), likes views//30, comments views//100, subscribers max(0, base + 5·d + noise); none negative |
| YouTubeMock.MockSnapshot | app/services/youtube_mock.py:70-84 | Models one daily snapshot row; specified by YouTubeMock.MockSnapshotsFacts and YouTubeMock.MockSnapshotClampsInactive |
| YouTubeMock.MockSnapshots | app/services/youtube_mock.py:69-85 | Models the thirty snapshot rows in loop order; specified by YouTubeMock.MockSnapshotsFacts |
| YouTubeMock.MockSnapshotClampsInactive | app/services/youtube_mock.py:72-75 | With in-range draws the `max(0, …)` clamps never engage and subscribers stay at least 98 |
| YouTubeMock.CreateMockChannel | app/services/youtube_mock.py:27-88 | Appends exactly the account, then its five videos, then its thirty snapshots, advancing each counter by that many; users and insights are unchanged |
| YouTubeMock.AddMockVideos | app/services/youtube_mock.py:51-64 | The video loop appends exactly `MockVideos` |
| YouTubeMock.AddMockSnapshots | app/services/youtube_mock.py:69-85 | The snapshot loop appends exactly `MockSnapshots` |
| YouTubeMock.GetFirstConnectedAccount | app/services/youtube_mock.py:91-99 | None exactly when the user has no "youtube" account; otherwise one of the user's "youtube" accounts (no order promised) |
| YouTubeMock.ConnectedAfterCreate | app/services/youtube_mock.py:27-37 | After the channel is created, the user has a connected account |
| RedisCache.Lookup | app/utils/redis_client.py:22-32 | A read finds a value exactly when the key is stored and not yet expired, and then the stored value |
| RedisCache.LookupAfterStore | app/utils/redis_client.py:35-39 | A value stored with a TTL reads back unchanged until it expires, and other keys read as before |
| RedisCache.Cache.constructor | app/utils/redis_client.py:14-19 | A new cache is empty |
| RedisCache.Cache.Get | app/utils/redis_client.py:22-32 | A miss, an expired entry and a failed read all give None; a hit gives the stored value |
| RedisCache.Cache.Set | app/utils/redis_client.py:35-41 | Stores the value until now + ttl, or changes nothing when the write fails |
| Analytics.OverviewKeyInjective | app/routers/analytics.py:35 | Two overview requests share a cache key only when user and period are both equal |
| Analytics.GrowthKeyInjective | app/routers/analytics.py:119 | The same for growth keys |
| Analytics.KeyNamespaces | app/routers/analytics.py:35-119 | Overview keys and growth keys never coincide: each lies in its own prefix |
| Analytics.StoreOverviewKeepsWellKeyed | app/routers/analytics.py:79 | Storing an overview under an overview key keeps every overview key holding an overview and every growth key a growth series |
| Analytics.StoreGrowthKeepsWellKeyed | app/routers/analytics.py:150 | The same for storing a growth series |
| Analytics.WellKeyedHits | app/routers/analytics.py:36-122 | In a well-keyed cache a hit under an overview key is an overview, and under a growth key a growth series |
| Analytics.AccountVideos | app/routers/analytics.py:55 | The rows `WHERE connected_account_id = acc.id`: a video is among them exactly when it is stored and belongs to the account, and there are no more rows than stored |
| Analytics.AccountVideosCount | app/routers/analytics.py:55 | Each of the account's videos appears in the filtered rows exactly as often as it is stored, any other video never |
| Analytics.AccountVideosAppend | app/routers/analytics.py:55 | A new video joins the filter exactly when it belongs to the account |
| Analytics.SumAppend | app/routers/analytics.py:51-53 | A new row adds its counter to the SUM |
| Analytics.SumNonNegative | app/routers/analytics.py:51-53 | A SUM of non-negative counters is non-negative |
| Analytics.LatestSnapshot | app/routers/analytics.py:59-68 | None exactly when the account has no snapshot dated no later than now; otherwise such a snapshot, of any period type, whose date is the greatest among them |
| Analytics.OverviewWithoutAccount | app/routers/analytics.py:40-45 | With no connected account every counter is 0 and the period is echoed |
| Analytics.OverviewTotalsAddVideo | app/routers/analytics.py:47-76 | The totals are sums over all the account's videos and the count of them: a new video of the account adds its counters and 1, a video of another account changes nothing |
| Analytics.OverviewTotalsWithoutVideos | app/routers/analytics.py:47-57 | An account without videos has zero totals and a zero count; with Analytics.OverviewTotalsAddVideo this fixes every total as the sum over the account's videos |
| Analytics.OverviewIgnoresPeriod | app/routers/analytics.py:47 | The period filters nothing: two periods give the same overview up to the echoed `period_days` |
| Analytics.OverviewSubscribers | app/routers/analytics.py:59-69 | The subscriber count is that of a latest snapshot dated no later than now, or 0 when there is none |
| Analytics.Overview | app/routers/analytics.py:40-78 | Models the overview computed on a miss; specified by Analytics.OverviewWithoutAccount, Analytics.OverviewTotalsWithoutVideos, Analytics.OverviewTotalsAddVideo, Analytics.OverviewIgnoresPeriod and Analytics.OverviewSubscribers |
| Analytics.NewerOrUndatedIsPreorder | app/routers/analytics.py:103 | `published_at DESC NULLS LAST` is a total preorder |
| Analytics.PageOf | app/routers/analytics.py:99-105 | OFFSET (page-1)·page_size LIMIT page_size: page_size rows, fewer on the last page, none past it, each the row at offset + i |
| Analytics.AnalyticsVideos | app/routers/analytics.py:83-109 | Succeeds exactly when page ≥ 1 and 1 ≤ page_size ≤ 50 (defaults 1 and 10); a success is the `VideosPage` of the accepted page and page size; every refusal is the 422 error; it takes no cache |
| Analytics.VideosPageEcho | app/routers/analytics.py:91-93 | Page and page size are echoed; with no account the items are empty and the total is 0 |
| Analytics.SortedVideosSpec | app/routers/analytics.py:100-103 | The list is cut from all the account's videos, each once, ordered newest first with undated ones last |
| Analytics.SortedVideos | app/routers/analytics.py:100-107 | Models the ordered video list before paging; specified by Analytics.SortedVideosSpec |
| Analytics.VideosPage | app/routers/analytics.py:91-109 | Models the videos response; specified by Analytics.VideosPageEcho, Analytics.VideosPageTotal, Analytics.VideosPageLength, Analytics.VideosPageItems, Analytics.PagesArePrefix and Analytics.PagesCoverAll |
| Analytics.VideosPageTotal | app/routers/analytics.py:95-98 | `total` is the number of the account's videos, whatever the page |
| Analytics.VideosPageLength | app/routers/analytics.py:99-107 | A page holds page_size items, fewer on the last page, none past it |
| Analytics.VideosPageItems | app/routers/analytics.py:99-108 | Item i is the sorted video at position (page-1)·page_size + i |
| Analytics.PageItem | app/routers/analytics.py:99-108 | One item of a page is the sorted video at its offset |
| Analytics.PagesArePrefix | app/routers/analytics.py:99-105 | Pages 1..k cut from one sorted list together are its first k·page_size videos in order, none skipped or repeated |
| Analytics.PagesCoverAll | app/routers/analytics.py:95-105 | Once k·page_size reaches the total, pages 1..k cut from one sorted list hold every video of the account exactly once |
| Analytics.WindowSnapshots | app/routers/analytics.py:129-135 | A snapshot is among the rows exactly when it is stored, is the account's, is "daily" and is dated on or after `since`; no more rows than stored |
| Analytics.WindowSnapshotsCount | app/routers/analytics.py:129-135 | Each snapshot in the window appears exactly as often as it is stored, any other never |
| Analytics.NotLaterIsPreorder | app/routers/analytics.py:136 | `snapshot_date ASC` is a total preorder |
| Analytics.GrowthSpec | app/routers/analytics.py:124-149 | With no account the data is empty; otherwise exactly the account's daily snapshots dated on or after now − period_days days, each once, ascending by date, each point copying its snapshot; the period is echoed |
| Analytics.Growth | app/routers/analytics.py:124-149 | Models the growth series computed on a miss; specified by Analytics.GrowthSpec |
| Analytics.OverviewRequest | app/routers/analytics.py:28-80 | An out-of-range period gives 422 and touches nothing; a hit is returned as stored without reading the tables and the cache is left alone (a stored growth series gives 500); a miss returns the computed overview and stores it for 300 s only when the user has an account and the write succeeds |
| Analytics.GrowthRequest | app/routers/analytics.py:112-151 | The same cache-aside shape for the growth series; no account gives empty data, not cached |
| Analytics.RequestsKeepWellKeyed | app/routers/analytics.py:35-150 | Both handlers keep the cache well keyed, and on a well-keyed cache a valid request always succeeds |
| Analytics.OverviewServedFromCache | app/routers/analytics.py:25-80 | A second request for the same user and period within 300 s returns the first response, even if the tables have changed since |
| Analytics.AnalyticsOverview | app/routers/analytics.py:28-80 | The handler's response and the cache afterwards are those `OverviewRequest` gives on the cache before |
| Analytics.AnalyticsGrowth | app/routers/analytics.py:112-151 | The same with `GrowthRequest` |
| AiSuggestions.UserInsights | app/routers/ai_suggestions.py:23 | An insight is among the rows exactly when it is stored and is the caller's; no more rows than stored |
| AiSuggestions.UserInsightsCount | app/routers/ai_suggestions.py:23 | Each of the caller's insights appears exactly as often as it is stored, another user's never |
| AiSuggestions.UserInsightsAppend | app/routers/ai_suggestions.py:23 | A new insight joins the filter exactly when it is the caller's |
| AiSuggestions.NewerOrSameIsPreorder | app/routers/ai_suggestions.py:24 | `created_at DESC` is a total preorder |
| AiSuggestions.GetSuggestions | app/routers/ai_suggestions.py:14-31 | Refused with 422 exactly when the limit (default 20) is outside 1..50; otherwise the response is `Suggestions` for the accepted limit, so at most `limit` ≤ 50 items |
| AiSuggestions.SuggestionsSpec | app/routers/ai_suggestions.py:21-29 | `total` counts all the caller's insights whatever the limit; there are min(limit, total) items; they are newest first, each the caller's, and no omitted insight is newer than a returned one |
| AiSuggestions.Suggestions | app/routers/ai_suggestions.py:21-31 | Models the suggestions response; specified by AiSuggestions.SuggestionsSpec, AiSuggestions.SuggestionsAllWhenLimitLarge and AiSuggestions.OtherUsersIgnored |
| AiSuggestions.SuggestionsAllWhenLimitLarge | app/routers/ai_suggestions.py:21-27 | With a limit at least the total, every one of the caller's insights is returned |
| AiSuggestions.OtherUsersIgnored | app/routers/ai_suggestions.py:21-29 | Another user's insight neither appears nor changes the response |
| SyncUrl.SyncKeepsPlainUrl | app/tasks/ai_tasks.py:21-22 | A URL naming neither asyncpg nor aiosqlite is used unchanged |
| SyncUrl.SyncKeepsUrlWithoutPlus | app/tasks/ai_tasks.py:17-22 | A URL without '+' is unchanged too, even when it names a driver, since every removed pattern holds a '+' |
| SyncUrl.SyncDatabaseUrl | app/tasks/ai_tasks.py:16-22 | Models how the module constant `SYNC_DATABASE_URL` is computed from DATABASE_URL; specified by SyncUrl.SyncKeepsPlainUrl, SyncUrl.SyncKeepsUrlWithoutPlus, SyncUrl.SyncOfAsyncPostgres, SyncUrl.SyncOfAsyncSqlite and AiTasks.AsyncpgTakesPrecedence |
| SyncUrl.SyncOfAsyncPostgres | app/tasks/ai_tasks.py:17-18 | `postgresql+asyncpg://rest` becomes `postgresql://rest` whenever rest holds no "+asyncpg" of its own; a '+' in a password or "asyncpg" in a host name is kept |
| SyncUrl.SyncOfAsyncSqlite | app/tasks/ai_tasks.py:19-20 | `sqlite+aiosqlite…` becomes `sqlite…` when the path has no '+' and no 'g' |
| AiTasks.MixedUrlNamesBoth | app/tasks/ai_tasks.py:17-19 | The example URL contains both "asyncpg" and "aiosqlite" |
| AiTasks.AsyncpgTakesPrecedence | app/tasks/ai_tasks.py:17-20 | A URL naming both drivers takes the asyncpg branch: "+asyncpg" goes and "aiosqlite" stays |
| AiTasks.SyncOfHerokuUrl | app/tasks/ai_tasks.py:16-18 | A `postgres://` DATABASE_URL reaches the worker as `postgresql://` with the rest kept, whenever the rest holds no "+asyncpg" |
| AiTasks.WeeklyInsights | app/tasks/ai_tasks.py:51-60 | One staged insight per user id |
| AiTasks.WeeklyInsightsOnePerUser | app/tasks/ai_tasks.py:48-61 | The i-th insight goes to the i-th user id, every user gets one, and with distinct ids no user gets two |
| AiTasks.WeeklyInsightsContent | app/tasks/ai_tasks.py:30-58 | Each insight's type, title and content are an entry of SUGGESTIONS; its priority is low, medium or high; it starts unread |
| AiTasks.WeeklyAiInsights | app/tasks/ai_tasks.py:40-70 | A failing query or commit re-raises with no insight of the run kept; otherwise exactly `WeeklyInsights` is appended and the result is status "ok" with `created` equal to the number of users |
| SeedData.SeedInsightsFacts | app/services/seed_data.py:19-69 | Exactly six insights for the demo user, one per AI_INSIGHTS_DATA entry with its type, title, content and priority, unread |
| SeedData.SeedInsights | app/services/seed_data.py:61-69 | Models the six insight rows; specified by SeedData.SeedInsightsFacts |
| SeedData.DemoPresentMeansHadUsers | app/services/seed_data.py:33-38 | `had_users` is read before the insert, so a present demo user means the table was not empty |
| SeedData.SeedIfEmpty | app/services/seed_data.py:29-72 | Afterwards the demo user exists, added only when absent; with users already present nothing else changes; on an empty table "Demo Creator Channel" with its videos and snapshots and the six insights are added for the demo user |
| SeedData.EnsureDemoUser | app/services/seed_data.py:33-48 | When no user has the demo email, exactly one demo user with that email and the hash of the demo password is appended and returned; otherwise the stored demo user is returned and the table is unchanged; either way the demo user is then found and emails stay unique |
| SeedData.SeedAgainChangesNothing | app/services/seed_data.py:33-54 | Once the demo user exists a further run changes no table |
| SeedData.AddSeedInsights | app/services/seed_data.py:61-69 | The insight loop appends exactly `SeedInsights` |
| Sorting.SortBy | app/routers/ai_suggestions.py:24 | ORDER BY keeps the rows: same length and the same multiset |
| Sorting.SortBySorted | app/routers/analytics.py:103 | Under a total preorder the sorted rows are in order |
| Sorting.SortByElements | app/routers/analytics.py:136 | Every sorted row comes from the input |
| Sorting.Take | app/routers/ai_suggestions.py:25 | LIMIT n: the first min(n, length) rows |
| Sorting.Window | app/routers/analytics.py:104-105 | OFFSET off LIMIT n: the rows from `off` on, at most n |
| Sorting.AdjacentWindows | app/routers/analytics.py:104-105 | Two adjacent pages of size n together are the page of size 2n |

## Left out

- The Redis connection, its lazy global client and the JSON round trip of cached values are not modelled. The cache stores response values directly, and a read or write error is a boolean parameter.
- The `if cached:` test treats an empty cached object as a miss. The model treats any stored value as a hit, because a stored response is never empty.
- bcrypt (app/auth/password.py) and jose's signing, verification and expiry check are not modelled. They are function parameters. An expired token is just a decoder that fails.
- How HTTPBearer parses the `Authorization` header is not modelled. The credential arrives as present or absent.
- Email format validation (Pydantic `EmailStr`) is not modelled. The 422 detail body is reduced to one fixed `VALIDATION_ERROR`.
- Strings.ParseInt: Python's `int()` also accepts underscores between digits and non-ASCII digits. These are not modelled. A float `sub` claim (which `int()` truncates) falls under `Jwt.Claim.Other`.
- Strings.Lower: only ASCII letters are lower-cased. Other characters are kept.
- GrowthPoint's `date` is the snapshot's timestamp, not the `strftime("%Y-%m-%d")` text.
- One `now` stands for every `utcnow()` read inside one handler call.
- Analytics.PagesArePrefix: states pages cut from one sorted list. Each page is a separate request. Across requests the database may order videos with equal or missing publish dates differently, and `get_first_connected_account` (no ORDER BY) may pick a different account. So the property holds for the program only when every page request sees the same account and the same tie order.
- Analytics.PagesCoverAll: the same limit. "Every video exactly once" across several page requests assumes one account and one order among equal publish dates for all of them.
- Sorting.SortBy: the database leaves the order of rows with equal sort keys unspecified. The model picks one. Sorting.SortBySorted and the spec lemmas promise only the order the query states; the two paging lemmas above rely on that one choice.
- YouTubeMock.GetFirstConnectedAccount: the model returns the first match in table order. The contract promises only some matching account, as the query does.
- AiTasks.WeeklyAiInsights: the users are taken in table order. `select(User.id)` has no ORDER BY.
- Integers are unbounded. 64-bit overflow of the SUMs is not modelled.
- Nullable view and like counters (NULL inside SUM) are not modelled. The records hold integers.
- Autoincrement ids consumed by a rolled-back transaction are not modelled. A fault leaves every counter as it was.
- Closing the session is not modelled. Neither is a seed run failing halfway, which would roll back the whole transaction.
- The `REDIS_URL`, `SECRET_KEY` and `CELERY_BROKER_URL` defaults are constants only. Nothing is proved about them.
- SyncUrl.SyncOfAsyncSqlite: proved for every path with no '+' and no 'g'. This covers both SQLite defaults, but no separate lemma states them.
- Concurrency is not modelled: requests and the weekly job each run alone.
- The user and youtube routers, the daily sync task, app startup and the Celery configuration are not part of this model.
