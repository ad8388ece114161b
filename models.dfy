/** The database tables: one record type per ORM model and a `Database`
    object holding each table as a sequence of rows, in insertion order,
    together with the autoincrement counter of each primary key. */
module Models {
  import opened Wrappers

  /** Seconds in one day: `timedelta(days=1)`. Timestamps are whole seconds. */
  const DAY: int := 86400

  datatype User = User(
    id: int,
    email: string,
    hashedPassword: string,
    fullName: Option<string>,
    createdAt: int)

  datatype ConnectedAccount = ConnectedAccount(
    id: int,
    userId: int,
    platform: string,
    channelId: Option<string>,
    channelName: Option<string>,
    createdAt: int)

  datatype Video = Video(
    id: int,
    accountId: int,
    externalId: string,
    title: Option<string>,
    publishedAt: Option<int>,
    viewCount: int,
    likeCount: int,
    commentCount: int,
    durationSeconds: Option<int>,
    thumbnailUrl: Option<string>)

  datatype AnalyticsSnapshot = AnalyticsSnapshot(
    id: int,
    accountId: int,
    snapshotDate: int,
    periodType: string,
    totalViews: int,
    totalLikes: int,
    totalComments: int,
    subscriberCount: int)

  datatype AIInsight = AIInsight(
    id: int,
    userId: int,
    insightType: string,
    title: string,
    content: string,
    priority: string,
    isRead: bool,
    createdAt: int)

  /** No two users share an email (the unique index on `users.email`). */
  predicate UniqueEmails(users: seq<User>)
  {
    forall i, j :: 0 <= i < j < |users| ==> users[i].email != users[j].email
  }

  /** No two users share an id (the primary key). */
  predicate UniqueUserIds(users: seq<User>)
  {
    forall i, j :: 0 <= i < j < |users| ==> users[i].id != users[j].id
  }

  /** `select(User).where(User.email == email)` then `.first()`. */
  function FindUserByEmail(users: seq<User>, email: string): (r: Option<User>)
    ensures r.None? <==> forall i :: 0 <= i < |users| ==> users[i].email != email
    ensures r.Some? ==> r.value in users && r.value.email == email
    decreases |users|
  {
    if |users| == 0 then None
    else if users[0].email == email then Some(users[0])
    else FindUserByEmail(users[1..], email)
  }

  /** With unique emails the lookup returns THE user with that email. */
  lemma {:induction false} FindUserByEmailUnique(users: seq<User>, k: nat)
    requires UniqueEmails(users) && k < |users|
    ensures FindUserByEmail(users, users[k].email) == Some(users[k])
    decreases |users|
  {
    if k > 0 && users[0].email != users[k].email {
      assert users[1..][k - 1] == users[k];
      FindUserByEmailUnique(users[1..], k - 1);
    }
  }

  /** The tables of one database, with the next value of each autoincrement
      primary key. */
  class Database {
    var users: seq<User>
    var accounts: seq<ConnectedAccount>
    var videos: seq<Video>
    var snapshots: seq<AnalyticsSnapshot>
    var insights: seq<AIInsight>
    var nextUserId: int
    var nextAccountId: int
    var nextVideoId: int
    var nextSnapshotId: int
    var nextInsightId: int

    /** Emails and user ids are unique, and every id already handed out is
        below its table's counter, so the next one is fresh. */
    ghost predicate Valid()
      reads this
    {
      && UniqueEmails(users)
      && UniqueUserIds(users)
      && (forall i :: 0 <= i < |users| ==> users[i].id < nextUserId)
      && (forall i :: 0 <= i < |accounts| ==> accounts[i].id < nextAccountId)
      && (forall i :: 0 <= i < |videos| ==> videos[i].id < nextVideoId)
      && (forall i :: 0 <= i < |snapshots| ==> snapshots[i].id < nextSnapshotId)
      && (forall i :: 0 <= i < |insights| ==> insights[i].id < nextInsightId)
    }

    /** A freshly created schema: every table empty, every key starting at 1. */
    constructor ()
      ensures Valid()
      ensures users == [] && accounts == [] && videos == [] && snapshots == [] && insights == []
      ensures nextUserId == 1 && nextAccountId == 1 && nextVideoId == 1
      ensures nextSnapshotId == 1 && nextInsightId == 1
    {
      users, accounts, videos, snapshots, insights := [], [], [], [], [];
      nextUserId, nextAccountId, nextVideoId, nextSnapshotId, nextInsightId := 1, 1, 1, 1, 1;
    }
  }
}
