/**
 * `NotificationsService`: stored notifications with a per-recipient read map,
 * the registry of push tokens keyed by (user, device), and push delivery in
 * batches of at most 100 tokens. Each push request the service would POST is
 * appended to a log; the clock, new ids and delivery failures are parameters.
 */
module Notifications {
  import opened Common
  import opened Documents
  import opened Sorting

  /**
   * The notification kinds. `MarkerCompleted` is referenced by the help-point
   * and marker services but is not a member of the declared enum.
   */
  datatype NotificationType = MarkerApplication | MarkerStatusUpdate | ChatMessage | System | MarkerCompleted

  /** The action kinds; the marker service passes 'marker', outside the declared 'helpPoint' | 'chat'. */
  datatype ActionKind = HelpPointAction | ChatAction | MarkerAction

  function ActionText(k: ActionKind): string {
    match k
    case HelpPointAction => "helpPoint"
    case ChatAction => "chat"
    case MarkerAction => "marker"
  }

  datatype Action = Action(kind: ActionKind, id: string)

  /** The argument of `addNotification`. */
  datatype NotificationRequest = NotificationRequest(
    userIds: seq<string>, title: string, message: string, ntype: NotificationType, action: Option<Action>)

  datatype Notification = Notification(
    userIds: seq<string>, title: string, message: string, ntype: NotificationType, action: Option<Action>,
    readBy: map<string, bool>, createdAt: int)

  datatype DeviceToken = DeviceToken(userId: string, token: string, deviceId: string, lastUsed: int)

  /** The `data` of a push message: the action kind ('general' when none), its id and the notification id. */
  datatype PushData = PushData(kind: string, id: string, notificationId: string)

  /** One POST to the push endpoint: a message per token with the same title, body and data. */
  datatype PushRequest = PushRequest(tokens: seq<string>, title: string, body: string, data: PushData)

  const BatchSize: nat := 100
  const NotificationPageSize: nat := 50

  // ---------------------------------------------------------------------------
  // Batching
  // ---------------------------------------------------------------------------

  function Min(a: int, b: int): int {
    if a <= b then a else b
  }

  /** `tokens.slice(k * 100, k * 100 + 100)`. */
  function ChunkAt<T>(t: seq<T>, k: nat): seq<T>
    requires k * BatchSize <= |t|
  {
    t[k * BatchSize..Min(k * BatchSize + BatchSize, |t|)]
  }

  /** The number of loop iterations: the least k with 100 * k >= len. */
  function ChunkCount(len: nat): (c: nat)
    ensures c * BatchSize >= len && (c == 0 || (c - 1) * BatchSize < len)
  {
    (len + BatchSize - 1) / BatchSize
  }

  /** The batches the loop of `sendMulticastNotification` forms. */
  function Chunks<T>(t: seq<T>): (r: seq<seq<T>>)
    ensures |r| == ChunkCount(|t|)
    ensures forall k :: 0 <= k < |r| ==> 0 < |r[k]| <= BatchSize
  {
    var c := ChunkCount(|t|);
    seq(c, k requires 0 <= k < c => ChunkAt(t, k))
  }

  function Flatten<T>(s: seq<seq<T>>): seq<T>
    decreases |s|
  {
    if s == [] then [] else Flatten(s[..|s| - 1]) + s[|s| - 1]
  }

  lemma {:induction false} FlattenPrefix<T>(t: seq<T>, k: nat)
    requires k <= ChunkCount(|t|)
    ensures Flatten(Chunks(t)[..k]) == t[..Min(k * BatchSize, |t|)]
    decreases k
  {
    if k > 0 {
      var c := Chunks(t);
      assert c[..k][..k - 1] == c[..k - 1];
      FlattenPrefix(t, k - 1);
      var lo := (k - 1) * BatchSize;
      assert lo < |t|;
      assert c[k - 1] == t[lo..Min(lo + BatchSize, |t|)];
      assert t[..Min(lo, |t|)] + t[lo..Min(lo + BatchSize, |t|)] == t[..Min(k * BatchSize, |t|)];
    }
  }

  /** The batches, joined back together, are exactly the token list. */
  lemma ChunksCover<T>(t: seq<T>)
    ensures Flatten(Chunks(t)) == t
  {
    var c := Chunks(t);
    FlattenPrefix(t, |c|);
    assert c[..|c|] == c;
  }

  // ---------------------------------------------------------------------------
  // Queries
  // ---------------------------------------------------------------------------

  predicate NewerFirst(a: Notification, b: Notification) {
    a.createdAt >= b.createdAt
  }

  predicate RecentlyUsedFirst(a: DeviceToken, b: DeviceToken) {
    a.lastUsed >= b.lastUsed
  }

  /** `find({ userIds: userId })`, in collection order. */
  function AddressedTo(s: seq<Notification>, userId: string): (r: seq<Notification>)
    ensures forall x :: x in r <==> x in s && userId in x.userIds
  {
    if s == [] then []
    else (if userId in s[0].userIds then [s[0]] else []) + AddressedTo(s[1..], userId)
  }

  /** `find({ userId: { $in: userIds } })`, in collection order. */
  function DevicesOf(s: seq<DeviceToken>, userIds: seq<string>): (r: seq<DeviceToken>)
    ensures forall x :: x in r <==> x in s && x.userId in userIds
  {
    if s == [] then []
    else (if s[0].userId in userIds then [s[0]] else []) + DevicesOf(s[1..], userIds)
  }

  function Tokens(s: seq<DeviceToken>): (r: seq<string>)
    ensures |r| == |s| && forall i :: 0 <= i < |s| ==> r[i] == s[i].token
  {
    seq(|s|, i requires 0 <= i < |s| => s[i].token)
  }

  /** `getUsersExpoPushTokens`: the recipients' tokens, most recently used first. */
  function PushTokens(s: seq<DeviceToken>, userIds: seq<string>): (r: seq<string>)
    ensures forall t :: t in r <==> exists d :: d in s && d.userId in userIds && d.token == t
    ensures |r| == |DevicesOf(s, userIds)|
    ensures exists devices :: (r == Tokens(devices) && Sorted(devices, RecentlyUsedFirst)
                               && multiset(devices) == multiset(DevicesOf(s, userIds)))
  {
    assert TotalPreorder(RecentlyUsedFirst);
    var sorted := SortBy(DevicesOf(s, userIds), RecentlyUsedFirst);
    forall t ensures t in Tokens(sorted) <==> exists d :: d in s && d.userId in userIds && d.token == t {
      if t in Tokens(sorted) {
        var i :| 0 <= i < |sorted| && Tokens(sorted)[i] == t;
        SortedMembers(DevicesOf(s, userIds), RecentlyUsedFirst, sorted[i]);
      }
      if d :| d in s && d.userId in userIds && d.token == t {
        SortedMembers(DevicesOf(s, userIds), RecentlyUsedFirst, d);
        var i :| 0 <= i < |sorted| && sorted[i] == d;
        assert Tokens(sorted)[i] == t;
      }
    }
    Tokens(sorted)
  }

  /** The pair (user, device) has at most one record. */
  predicate UniquePairs(s: seq<DeviceToken>) {
    forall i, j :: 0 <= i < j < |s| ==> (s[i].userId, s[i].deviceId) != (s[j].userId, s[j].deviceId)
  }

  function PairIndex(s: seq<DeviceToken>, userId: string, deviceId: string): (r: Option<nat>)
    ensures r.Some? ==> r.value < |s| && s[r.value].userId == userId && s[r.value].deviceId == deviceId
    ensures r.None? ==> forall i :: 0 <= i < |s| ==> s[i].userId != userId || s[i].deviceId != deviceId
    decreases |s|
  {
    if s == [] then None
    else if s[0].userId == userId && s[0].deviceId == deviceId then Some(0)
    else
      match PairIndex(s[1..], userId, deviceId)
      case None =>
        assert forall i :: 1 <= i < |s| ==> s[i] == s[1..][i - 1];
        None
      case Some(k) => Some(k + 1)
  }

  /** `registerDeviceToken`: refresh the record of the pair, or add one at the end. */
  function Registered(s: seq<DeviceToken>, userId: string, token: string, deviceId: string, now: int): (r: seq<DeviceToken>)
    ensures UniquePairs(s) ==> UniquePairs(r)
    ensures exists i :: 0 <= i < |r| && r[i] == DeviceToken(userId, token, deviceId, now)
    ensures forall d :: d in s && (d.userId, d.deviceId) != (userId, deviceId) ==> d in r
    ensures forall d :: d in r && (d.userId, d.deviceId) != (userId, deviceId) ==> d in s
  {
    match PairIndex(s, userId, deviceId)
    case Some(i) =>
      var r := s[i := DeviceToken(userId, token, deviceId, now)];
      assert r[i] == DeviceToken(userId, token, deviceId, now);
      forall d | d in s && (d.userId, d.deviceId) != (userId, deviceId) ensures d in r {
        var k :| 0 <= k < |s| && s[k] == d;
        assert r[k] == d;
      }
      r
    case None =>
      var r := s + [DeviceToken(userId, token, deviceId, now)];
      assert r[|s|] == DeviceToken(userId, token, deviceId, now);
      r
  }

  /** `removeDeviceToken`: `deleteOne` of the pair's record. */
  function Unregistered(s: seq<DeviceToken>, userId: string, deviceId: string): (r: seq<DeviceToken>)
    ensures UniquePairs(s) ==> UniquePairs(r) && PairIndex(r, userId, deviceId).None?
    ensures forall d :: d in s && (d.userId, d.deviceId) != (userId, deviceId) ==> d in r
    ensures forall d :: d in r ==> d in s
  {
    match PairIndex(s, userId, deviceId)
    case None => s
    case Some(i) =>
      var r := s[..i] + s[i + 1..];
      assert forall j :: 0 <= j < |r| ==> r[j] == (if j < i then s[j] else s[j + 1]);
      forall d | d in s && (d.userId, d.deviceId) != (userId, deviceId) ensures d in r {
        var k :| 0 <= k < |s| && s[k] == d;
        if k < i { assert r[k] == d; } else { assert r[k - 1] == d; }
      }
      r
  }

  /** A second registration of the same device leaves one record, with the newer token. */
  lemma ReRegisterReplaces(s: seq<DeviceToken>, userId: string, deviceId: string, t1: string, t2: string, now1: int, now2: int)
    requires UniquePairs(s)
    ensures var r := Registered(Registered(s, userId, t1, deviceId, now1), userId, t2, deviceId, now2);
      UniquePairs(r) && |r| == |Registered(s, userId, t1, deviceId, now1)|
      && exists i :: 0 <= i < |r| && r[i] == DeviceToken(userId, t2, deviceId, now2)
  {
    var r1 := Registered(s, userId, t1, deviceId, now1);
    assert PairIndex(r1, userId, deviceId).Some?;
  }

  /** The batch the loop takes when it starts at `k * 100`. */
  lemma BatchAt<T>(t: seq<T>, k: nat)
    requires k * BatchSize < |t|
    ensures k < |Chunks(t)| && Chunks(t)[k] == t[k * BatchSize..Min(k * BatchSize + BatchSize, |t|)]
  {
  }

  /** The loop ends after exactly one round per batch. */
  lemma LastBatch(len: nat, k: nat)
    requires k * BatchSize >= len && (k == 0 || (k - 1) * BatchSize < len)
    ensures k == ChunkCount(len)
  {
  }

  /** The requests for the first `k` batches, in order. */
  function Requests(batches: seq<seq<string>>, k: nat, title: string, body: string, data: PushData): (r: seq<PushRequest>)
    requires k <= |batches|
    ensures |r| == k && forall j :: 0 <= j < k ==> r[j] == PushRequest(batches[j], title, body, data)
  {
    if k == 0 then [] else Requests(batches, k - 1, title, body, data) + [PushRequest(batches[k - 1], title, body, data)]
  }

  /**
   * The loop of `sendMulticastNotification`: nothing without tokens;
   * otherwise one request per batch of 100, in order, until the batch
   * `failsAt` is rejected.
   */
  method BatchRequests(tokens: seq<string>, title: string, body: string, data: PushData, failsAt: Option<nat>)
    returns (sent: seq<PushRequest>)
    ensures var batches := Chunks(tokens);
      var n := if failsAt.Some? && failsAt.value < |batches| then failsAt.value else |batches|;
      sent == Requests(batches, n, title, body, data)
  {
    ghost var batches := Chunks(tokens);
    sent := [];
    if |tokens| == 0 {
      return;
    }
    var i := 0;
    var k := 0;
    while i < |tokens|
      invariant k <= |batches| && i == k * BatchSize
      invariant k == 0 || (k - 1) * BatchSize < |tokens|
      invariant failsAt.Some? ==> k <= failsAt.value
      invariant sent == Requests(batches, k, title, body, data)
      decreases |tokens| - i
    {
      if failsAt == Some(k) {
        return;
      }
      BatchAt(tokens, k);
      var batch := tokens[i..Min(i + BatchSize, |tokens|)];
      sent := sent + [PushRequest(batch, title, body, data)];
      i := i + BatchSize;
      k := k + 1;
    }
    LastBatch(|tokens|, k);
  }

  // ---------------------------------------------------------------------------
  // The service
  // ---------------------------------------------------------------------------

  class NotificationCenter {
    var notifications: seq<Doc<Notification>>
    var devices: seq<DeviceToken>
    /** Every push request sent, oldest first. */
    var pushLog: seq<PushRequest>

    ghost predicate Valid()
      reads this
    {
      UniqueIds(notifications) && UniquePairs(devices)
    }

    constructor()
      ensures Valid() && notifications == [] && devices == [] && pushLog == []
    {
      notifications := [];
      devices := [];
      pushLog := [];
    }

    /** The `forEach` that marks every recipient unread. */
    static method InitialReadBy(userIds: seq<string>) returns (readBy: map<string, bool>)
      ensures readBy.Keys == set u | u in userIds
      ensures forall u :: u in readBy ==> !readBy[u]
    {
      readBy := map[];
      var i := 0;
      while i < |userIds|
        invariant 0 <= i <= |userIds|
        invariant readBy.Keys == set u | u in userIds[..i]
        invariant forall u :: u in readBy ==> !readBy[u]
      {
        readBy := readBy[userIds[i] := false];
        assert userIds[..i + 1] == userIds[..i] + [userIds[i]];
        i := i + 1;
      }
      assert userIds[..i] == userIds;
    }

    /**
     * `sendMulticastNotification`: nothing without tokens; otherwise one request
     * per batch of 100, in order. `failsAt` is the batch whose request is
     * rejected, which ends the loop (the error is caught and logged).
     */
    method SendMulticastNotification(userIds: seq<string>, title: string, body: string, data: PushData, failsAt: Option<nat>)
      modifies this
      ensures notifications == old(notifications) && devices == old(devices)
      ensures var batches := Chunks(PushTokens(devices, userIds));
        var sent := if failsAt.Some? && failsAt.value < |batches| then failsAt.value else |batches|;
        pushLog == old(pushLog) + Requests(batches, sent, title, body, data)
    {
      var tokens := PushTokens(devices, userIds);
      var sent := BatchRequests(tokens, title, body, data, failsAt);
      pushLog := pushLog + sent;
    }

    /**
     * `addNotification`: stores the notification with every recipient unread,
     * then pushes it; a failed push is swallowed and the stored notification
     * is returned all the same.
     */
    method AddNotification(req: NotificationRequest, newId: string, now: int, failsAt: Option<nat>) returns (n: Notification)
      requires Valid() && !HasId(notifications, newId)
      modifies this
      ensures Valid()
      ensures n.userIds == req.userIds && n.title == req.title && n.message == req.message
      ensures n.ntype == req.ntype && n.action == req.action && n.createdAt == now
      ensures n.readBy.Keys == (set u | u in req.userIds) && forall u :: u in n.readBy ==> !n.readBy[u]
      ensures notifications == old(notifications) + [Doc(newId, n)]
      ensures devices == old(devices)
    {
      var readBy := InitialReadBy(req.userIds);
      n := Notification(req.userIds, req.title, req.message, req.ntype, req.action, readBy, now);
      notifications := notifications + [Doc(newId, n)];
      var data := PushData(
        if req.action.Some? then ActionText(req.action.value.kind) else "general",
        if req.action.Some? then req.action.value.id else "",
        newId);
      SendMulticastNotification(req.userIds, req.title, req.message, data, failsAt);
    }

    /** `getNotifications`: the user's 50 newest notifications, newest first. */
    function GetNotifications(userId: string): (r: seq<Notification>)
      reads this
      ensures |r| <= NotificationPageSize
      ensures forall x :: x in r ==> userId in x.userIds && x in Bodies(notifications)
      ensures Sorted(r, NewerFirst)
      ensures multiset(r) <= multiset(AddressedTo(Bodies(notifications), userId))
      ensures var n := |AddressedTo(Bodies(notifications), userId)|;
        |r| == if n <= NotificationPageSize then n else NotificationPageSize
      ensures forall x :: x in Bodies(notifications) && userId in x.userIds && x !in r ==>
        |r| == NotificationPageSize && x.createdAt <= r[|r| - 1].createdAt
    {
      assert TotalPreorder(NewerFirst);
      Page(AddressedTo(Bodies(notifications), userId), NotificationPageSize, NewerFirst)
    }

    /**
     * `markNotificationAsRead`: sets `readBy[userId]`, whether or not the user
     * is a recipient, and returns the updated notification; an unknown id
     * returns nothing.
     */
    method MarkNotificationAsRead(notificationId: string, userId: string) returns (r: Outcome<Option<Notification>>)
      requires Valid()
      modifies this
      ensures Valid() && devices == old(devices) && pushLog == old(pushLog)
      ensures !IsObjectId(notificationId) ==> r == Err(InvalidId) && notifications == old(notifications)
      ensures IsObjectId(notificationId) && !HasId(old(notifications), notificationId) ==>
        r == Ok(None) && notifications == old(notifications)
      ensures IsObjectId(notificationId) && HasId(old(notifications), notificationId) ==>
        var n := Get(old(notifications), notificationId).value;
        r == Ok(Some(n.(readBy := n.readBy[userId := true]))) && notifications == SetBody(old(notifications), notificationId, r.value.value)
    {
      if !IsObjectId(notificationId) {
        return Err(InvalidId);
      }
      match Get(notifications, notificationId)
      case None =>
        r := Ok(None);
      case Some(n) =>
        var updated := n.(readBy := n.readBy[userId := true]);
        notifications := SetBody(notifications, notificationId, updated);
        r := Ok(Some(updated));
    }

    method RegisterDeviceToken(userId: string, token: string, deviceId: string, now: int) returns (d: DeviceToken)
      requires Valid()
      modifies this
      ensures Valid() && notifications == old(notifications) && pushLog == old(pushLog)
      ensures d == DeviceToken(userId, token, deviceId, now)
      ensures devices == Registered(old(devices), userId, token, deviceId, now)
    {
      devices := Registered(devices, userId, token, deviceId, now);
      d := DeviceToken(userId, token, deviceId, now);
    }

    method RemoveDeviceToken(userId: string, deviceId: string)
      requires Valid()
      modifies this
      ensures Valid() && notifications == old(notifications) && pushLog == old(pushLog)
      ensures devices == Unregistered(old(devices), userId, deviceId)
    {
      devices := Unregistered(devices, userId, deviceId);
    }
  }

  /** Marking as read changes only that user's flag. */
  lemma MarkReadChangesOneFlag(n: Notification, userId: string, other: string)
    requires other != userId && other in n.readBy
    ensures var m := n.(readBy := n.readBy[userId := true]);
      m.readBy[userId] && other in m.readBy && m.readBy[other] == n.readBy[other]
  {
  }
}
