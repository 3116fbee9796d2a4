/**
  The notification list shared by every page (the notification context provider): seeded by
  one load of the unread notifications, grown by pushes from the socket, and acknowledged
  locally first, then on the server by one PATCH whose answer nothing waits on.
*/
module Notifications {
  import opened Wrappers
  import opened JsText
  import Http

  datatype NotificationType = REQUEST | MESSAGE

  datatype Notification = Notification(
    id: JsString,
    kind: NotificationType,
    senderId: JsString,
    senderName: Option<JsString>,
    senderAvatar: Option<JsString>,
    roomId: Option<JsString>,
    message: JsString,
    read: bool,
    createdAt: JsString)

  const UnreadPath: JsString := Literal("/notifications/unread")
  const ReadAllPath: JsString := Literal("/notifications/read-all")

  function ReadPath(id: JsString): JsString
  {
    Literal("/notifications/read/") + id
  }

  /** The PATCH requests `markAsRead` issues for the ids, one each, in order. */
  function ReadRequests(ids: seq<JsString>): seq<Http.Request>
  {
    seq(|ids|, i requires 0 <= i < |ids| => Http.Patch(ReadPath(ids[i])))
  }

  /**
    The local update of `markAsRead(id)`: same length and order, only read flags change, and an
    entry ends up read exactly when it was read already or carries the id.
  */
  function MarkRead(ns: seq<Notification>, id: JsString): (r: seq<Notification>)
    ensures |r| == |ns|
    ensures forall i :: 0 <= i < |ns| ==>
              r[i].read == (ns[i].read || ns[i].id == id) && r[i].(read := ns[i].read) == ns[i]
  {
    seq(|ns|, i requires 0 <= i < |ns| => if ns[i].id == id then ns[i].(read := true) else ns[i])
  }

  /** The local update of `markAllAsRead()`: same length and order, every entry read, nothing else changed. */
  function MarkAllRead(ns: seq<Notification>): (r: seq<Notification>)
    ensures |r| == |ns|
    ensures forall i :: 0 <= i < |ns| ==> r[i].read && r[i].(read := ns[i].read) == ns[i]
  {
    seq(|ns|, i requires 0 <= i < |ns| => ns[i].(read := true))
  }

  /** `markAsRead` applied to each id in turn. */
  function MarkReadEach(ns: seq<Notification>, ids: seq<JsString>): seq<Notification>
  {
    if ids == [] then ns else MarkRead(MarkReadEach(ns, ids[..|ids| - 1]), ids[|ids| - 1])
  }

  lemma MarkReadEachSnoc(ns: seq<Notification>, ids: seq<JsString>, id: JsString)
    ensures MarkReadEach(ns, ids + [id]) == MarkRead(MarkReadEach(ns, ids), id)
  {
    assert (ids + [id])[..|ids|] == ids;
  }

  lemma ReadRequestsSnoc(ids: seq<JsString>, id: JsString)
    ensures ReadRequests(ids + [id]) == ReadRequests(ids) + [Http.Patch(ReadPath(id))]
  {
  }

  function UnreadCount(ns: seq<Notification>): nat
  {
    if ns == [] then 0 else (if ns[0].read then 0 else 1) + UnreadCount(ns[1..])
  }

  /** The number of unread entries that carry the id. */
  function UnreadWithId(ns: seq<Notification>, id: JsString): nat
  {
    if ns == [] then 0 else (if !ns[0].read && ns[0].id == id then 1 else 0) + UnreadWithId(ns[1..], id)
  }

  function Ids(ns: seq<Notification>): (ids: seq<JsString>)
    ensures |ids| == |ns| && forall i :: 0 <= i < |ns| ==> ids[i] == ns[i].id
  {
    seq(|ns|, i requires 0 <= i < |ns| => ns[i].id)
  }

  /** Marking the same id twice leaves the list as marking it once. */
  lemma MarkReadIdempotent(ns: seq<Notification>, id: JsString)
    ensures MarkRead(MarkRead(ns, id), id) == MarkRead(ns, id)
  {
    var once := MarkRead(ns, id);
    var twice := MarkRead(once, id);
    forall i | 0 <= i < |ns| ensures twice[i] == once[i] {
      assert twice[i].(read := once[i].read) == once[i];
    }
  }

  /** Marking one id read removes from the unread count exactly the unread entries with that id. */
  lemma {:induction false} MarkReadUnreadCount(ns: seq<Notification>, id: JsString)
    ensures UnreadWithId(ns, id) <= UnreadCount(ns)
    ensures UnreadCount(MarkRead(ns, id)) == UnreadCount(ns) - UnreadWithId(ns, id)
  {
    if ns != [] {
      var r := MarkRead(ns, id);
      assert r[1..] == MarkRead(ns[1..], id);
      MarkReadUnreadCount(ns[1..], id);
    }
  }

  /** After `markAllAsRead` nothing is unread, and a second call changes nothing locally. */
  lemma {:induction false} MarkAllReadLeavesNoneUnread(ns: seq<Notification>)
    ensures UnreadCount(MarkAllRead(ns)) == 0
    ensures MarkAllRead(MarkAllRead(ns)) == MarkAllRead(ns)
  {
    if ns != [] {
      assert MarkAllRead(ns)[1..] == MarkAllRead(ns[1..]);
      MarkAllReadLeavesNoneUnread(ns[1..]);
    }
    var once := MarkAllRead(ns);
    forall i | 0 <= i < |ns| ensures MarkAllRead(once)[i] == once[i] {
      assert MarkAllRead(once)[i].(read := once[i].read) == once[i];
    }
  }

  /**
    Marking a list of ids one by one flips exactly the entries whose id is in the list, and
    nothing but their read flags.
  */
  lemma {:induction false} MarkReadEachSpec(ns: seq<Notification>, ids: seq<JsString>)
    ensures |MarkReadEach(ns, ids)| == |ns|
    ensures forall k :: 0 <= k < |ns| ==>
              MarkReadEach(ns, ids)[k].read == (ns[k].read || ns[k].id in ids)
              && MarkReadEach(ns, ids)[k].(read := ns[k].read) == ns[k]
  {
    if ids != [] {
      var front := ids[..|ids| - 1];
      MarkReadEachSpec(ns, front);
      assert ids == front + [ids[|ids| - 1]];
      var before := MarkReadEach(ns, front);
      var after := MarkRead(before, ids[|ids| - 1]);
      forall k | 0 <= k < |ns|
        ensures after[k].read == (ns[k].read || ns[k].id in ids)
        ensures after[k].(read := ns[k].read) == ns[k]
      {
        assert before[k].(read := ns[k].read) == ns[k];
        assert after[k].(read := before[k].read) == before[k];
        assert ns[k].id in ids <==> ns[k].id in front || ns[k].id == ids[|ids| - 1];
      }
    }
  }

  /**
    `markAllAsRead` has the local effect of marking every known id one by one, with one bulk
    request instead of one request per entry.
  */
  lemma MarkAllIsMarkEach(ns: seq<Notification>)
    ensures MarkReadEach(ns, Ids(ns)) == MarkAllRead(ns)
  {
    var each := MarkReadEach(ns, Ids(ns));
    MarkReadEachSpec(ns, Ids(ns));
    forall k | 0 <= k < |ns| ensures each[k] == MarkAllRead(ns)[k] {
      assert Ids(ns)[k] == ns[k].id;
      assert each[k].(read := ns[k].read) == ns[k];
      assert MarkAllRead(ns)[k].(read := ns[k].read) == ns[k];
    }
  }

  class NotificationCenter {
    var notifications: seq<Notification>
    var requests: seq<Http.Request>

    /** The provider mounts with an empty list and issues the load of the unread notifications. */
    constructor ()
      ensures notifications == [] && requests == [Http.Get(UnreadPath)]
    {
      notifications := [];
      requests := [Http.Get(UnreadPath)];
    }

    /**
      The answer to the unread load: a list replaces the current one wholesale; a failure is
      swallowed and the list stays as it is.
    */
    method LoadUnread(response: Option<seq<Notification>>)
      modifies this`notifications
      ensures notifications == (if response.Some? then response.value else old(notifications))
    {
      if response.Some? {
        notifications := response.value;
      }
    }

    /** A `notification` socket event: the new entry goes first, with no check against known ids. */
    method Push(n: Notification)
      modifies this`notifications
      ensures |notifications| == |old(notifications)| + 1
      ensures notifications[0] == n && notifications[1..] == old(notifications)
    {
      notifications := [n] + notifications;
    }

    /**
      `markAsRead(id)`: the local flip first, then one PATCH. Nothing handles the PATCH's answer,
      so the local state does not depend on it.
    */
    method MarkAsRead(id: JsString)
      modifies this
      ensures notifications == MarkRead(old(notifications), id)
      ensures requests == old(requests) + [Http.Patch(ReadPath(id))]
    {
      notifications := MarkRead(notifications, id);
      requests := requests + [Http.Patch(ReadPath(id))];
    }

    /** `markAllAsRead()`: every entry read locally, then one bulk PATCH. */
    method MarkAllAsRead()
      modifies this
      ensures notifications == MarkAllRead(old(notifications))
      ensures requests == old(requests) + [Http.Patch(ReadAllPath)]
    {
      notifications := MarkAllRead(notifications);
      requests := requests + [Http.Patch(ReadAllPath)];
    }
  }

  const OutsideProviderError: JsString := Literal("useNotifications must be used inside provider")

  /** `useNotifications()`: the provider's value, or an error when called outside a provider. */
  function UseNotifications(context: Option<NotificationCenter>): (r: Result<NotificationCenter, JsString>)
    ensures r.Failure? <==> context.None?
    ensures r.Success? ==> r.value == context.value
    ensures r.Failure? ==> r.error == OutsideProviderError
  {
    match context
    case Some(center) => Success(center)
    case None => Failure(OutsideProviderError)
  }
}
