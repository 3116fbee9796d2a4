/**
  The chat page: a 1:1 room derived from the two user ids, the room's message log fed by the
  history snapshot, live messages and the user's own optimistic sends, the socket events the
  page emits, and the rule that opening a chat acknowledges its message notifications.
*/
module Chat {
  import opened Wrappers
  import opened JsText
  import opened Notifications

  /** `IMessage`; `_id`, `read`, `createdAt` and `updatedAt` may be absent. */
  datatype Message = Message(
    id: Option<JsString>,
    roomId: JsString,
    senderId: JsString,
    receiverId: JsString,
    content: JsString,
    read: Option<bool>,
    createdAt: Option<JsString>,
    updatedAt: Option<JsString>)

  /** What the page emits on the socket. */
  datatype SocketEvent =
    | JoinRoom(roomId: JsString, userId: JsString)
    | LoadMessages(roomId: JsString)
    | SendMessage(message: Message)

  /** `[a, b].sort()`: the two ids in code-unit order; equal ids keep their places. */
  function SortedPair(a: JsString, b: JsString): (p: (JsString, JsString))
    ensures multiset{p.0, p.1} == multiset{a, b}
    ensures !Below(p.1, p.0)
  {
    if Below(b, a) then
      BelowAsymmetric(a, b);
      (b, a)
    else (a, b)
  }

  /** `getRoomId`: `[a, b].sort().join("_")`. */
  function RoomId(a: JsString, b: JsString): JsString
  {
    var p := SortedPair(a, b);
    p.0 + [Underscore] + p.1
  }

  /**
    The room id does not depend on which side computes it, and it is the smaller id, `_`,
    then the larger id.
  */
  lemma RoomIdSymmetric(a: JsString, b: JsString)
    ensures RoomId(a, b) == RoomId(b, a)
    ensures RoomId(a, b) == (if Below(b, a) then b else a) + [Underscore] + (if Below(b, a) then a else b)
    ensures !Below(b, a) ==> !Below(a, b) ==> a == b
  {
    BelowTotal(a, b);
    BelowAsymmetric(a, b);
  }

  /** Some entry of the log has the given `_id` (absent matches absent, as `===` on `undefined`). */
  predicate HasId(log: seq<Message>, id: Option<JsString>)
  {
    exists i :: 0 <= i < |log| && log[i].id == id
  }

  /**
    `handleReceive` for the room `room`: a message for another room is ignored; a message
    whose `_id` some entry already has is dropped; anything else is appended.
  */
  function Receive(log: seq<Message>, room: JsString, msg: Message): (r: seq<Message>)
    ensures |log| <= |r| <= |log| + 1 && r[..|log|] == log
    ensures |r| == |log| + 1 <==> msg.roomId == room && !HasId(log, msg.id)
    ensures |r| == |log| + 1 ==> r[|log|] == msg
  {
    if msg.roomId == room && !HasId(log, msg.id) then log + [msg] else log
  }

  /** No two entries of the log share an `_id` value (absent counting as one value). */
  predicate UniqueIds(log: seq<Message>)
  {
    forall i, j :: 0 <= i < j < |log| ==> log[i].id != log[j].id
  }

  /**
    Delivering the same message again changes nothing, and a log without repeated ids keeps
    that property under live delivery.
  */
  lemma ReceiveIdempotent(log: seq<Message>, room: JsString, msg: Message)
    ensures Receive(Receive(log, room, msg), room, msg) == Receive(log, room, msg)
    ensures UniqueIds(log) ==> UniqueIds(Receive(log, room, msg))
  {
    var once := Receive(log, room, msg);
    if |once| == |log| + 1 {
      assert once[|log|].id == msg.id;
      assert HasId(once, msg.id);
      if UniqueIds(log) {
        forall i, j | 0 <= i < j < |once| ensures once[i].id != once[j].id {
          if j == |log| {
            assert once[i] == log[i];
          } else {
            assert once[i] == log[i] && once[j] == log[j];
          }
        }
      }
    }
  }

  /**
    The optimistic entry is never reconciled with the server's echo: after a send (no `_id`),
    the echo of the same message carrying an `_id` is appended beside it.
  */
  lemma EchoNotReconciled(optimistic: Message, persistedId: JsString)
    requires optimistic.id.None?
    ensures var echo := optimistic.(id := Some(persistedId));
            Receive([optimistic], optimistic.roomId, echo) == [optimistic, echo]
  {
    var echo := optimistic.(id := Some(persistedId));
    assert !HasId([optimistic], echo.id);
  }

  /** The message `handleSend` builds: no `_id`, unread, from the user to the peer, content as typed. */
  function Outgoing(self: JsString, peer: JsString, content: JsString, now: JsString): Message
  {
    Message(None, RoomId(self, peer), self, peer, content, Some(false), Some(now), None)
  }

  /** The notifications the open-chat effect acknowledges: unread `MESSAGE`s from the peer. */
  predicate AutoReadable(n: Notification, peer: JsString)
  {
    n.kind == MESSAGE && n.senderId == peer && !n.read
  }

  /** The ids the open-chat effect passes to `markAsRead`, in list order. */
  function AutoReadIds(ns: seq<Notification>, peer: JsString): seq<JsString>
  {
    if ns == [] then []
    else AutoReadIds(ns[..|ns| - 1], peer) + (if AutoReadable(ns[|ns| - 1], peer) then [ns[|ns| - 1].id] else [])
  }

  lemma {:induction false} AutoReadIdsMembers(ns: seq<Notification>, peer: JsString, id: JsString)
    ensures id in AutoReadIds(ns, peer) <==> exists j :: 0 <= j < |ns| && AutoReadable(ns[j], peer) && ns[j].id == id
  {
    if ns != [] {
      var front := ns[..|ns| - 1];
      AutoReadIdsMembers(front, peer, id);
      if exists j :: 0 <= j < |ns| && AutoReadable(ns[j], peer) && ns[j].id == id {
        var j :| 0 <= j < |ns| && AutoReadable(ns[j], peer) && ns[j].id == id;
        if j < |ns| - 1 { assert front[j] == ns[j]; }
      }
      if exists j :: 0 <= j < |front| && AutoReadable(front[j], peer) && front[j].id == id {
        var j :| 0 <= j < |front| && AutoReadable(front[j], peer) && front[j].id == id;
        assert ns[j] == front[j];
      }
    }
  }

  lemma {:induction false} AutoReadIdsEmpty(ns: seq<Notification>, peer: JsString)
    requires forall k :: 0 <= k < |ns| ==> !AutoReadable(ns[k], peer)
    ensures AutoReadIds(ns, peer) == []
  {
    if ns != [] {
      AutoReadIdsEmpty(ns[..|ns| - 1], peer);
    }
  }

  /** One more entry of the snapshot: its id joins the acknowledged ids when it qualifies. */
  lemma AutoReadStep(ns: seq<Notification>, i: nat, peer: JsString)
    requires i < |ns|
    ensures AutoReadIds(ns[..i + 1], peer)
              == AutoReadIds(ns[..i], peer) + (if AutoReadable(ns[i], peer) then [ns[i].id] else [])
  {
    var prefix := ns[..i + 1];
    assert prefix[..|prefix| - 1] == ns[..i];
    assert prefix[|prefix| - 1] == ns[i];
  }

  /**
    What opening a chat does to the notification list: an entry becomes read exactly when it
    was read or shares its id with an unread `MESSAGE` from the peer; nothing else changes; and
    afterwards nothing is left for the effect to acknowledge, so its re-run is a no-op.
  */
  lemma AutoAcknowledgeSpec(ns: seq<Notification>, peer: JsString)
    ensures var r := MarkReadEach(ns, AutoReadIds(ns, peer));
            && |r| == |ns|
            && (forall k :: 0 <= k < |ns| ==>
                  r[k].(read := ns[k].read) == ns[k]
                  && (r[k].read <==> ns[k].read || exists j :: 0 <= j < |ns| && AutoReadable(ns[j], peer) && ns[j].id == ns[k].id))
            && AutoReadIds(r, peer) == []
  {
    var ids := AutoReadIds(ns, peer);
    var r := MarkReadEach(ns, ids);
    MarkReadEachSpec(ns, ids);
    forall k | 0 <= k < |ns|
      ensures r[k].read <==> ns[k].read || exists j :: 0 <= j < |ns| && AutoReadable(ns[j], peer) && ns[j].id == ns[k].id
    {
      AutoReadIdsMembers(ns, peer, ns[k].id);
    }
    forall k | 0 <= k < |r| ensures !AutoReadable(r[k], peer) {
      AutoReadIdsMembers(ns, peer, ns[k].id);
      assert r[k].(read := ns[k].read) == ns[k];
      if !ns[k].read && ns[k].kind == MESSAGE && ns[k].senderId == peer {
        assert AutoReadable(ns[k], peer);
      }
    }
    AutoReadIdsEmpty(r, peer);
  }

  class ChatPage {
    /** The signed-in user's id, if any. */
    const user: Option<JsString>
    /** The peer of the open chat, if any. */
    var selectedChat: Option<JsString>
    /** The text box. */
    var input: JsString
    /** The log shown for the open room. */
    var messages: seq<Message>
    /** Everything emitted on the socket, in order. */
    var outbox: seq<SocketEvent>

    /** The room whose `chat_history`/`receive_message` handlers are attached, if any. */
    function ActiveRoom(): (room: Option<JsString>)
      reads this
      ensures room.Some? <==> user.Some? && selectedChat.Some?
    {
      if user.Some? && selectedChat.Some? then Some(RoomId(user.value, selectedChat.value)) else None
    }

    constructor (user: Option<JsString>)
      ensures this.user == user && selectedChat == None && input == [] && messages == [] && outbox == []
    {
      this.user := user;
      selectedChat := None;
      input := [];
      messages := [];
      outbox := [];
    }

    /**
      A click on a chat in the list. When the selection changes and a user is signed in, the
      room-switch effect runs: the log is cleared, then `join_room` and `load_messages` are
      emitted for the new room, in that order. Selecting the open chat again changes nothing.
    */
    method SelectChat(peer: JsString)
      modifies this
      ensures selectedChat == Some(peer) && input == old(input)
      ensures old(selectedChat) == Some(peer) || user.None? ==>
                messages == old(messages) && outbox == old(outbox)
      ensures old(selectedChat) != Some(peer) && user.Some? ==>
                var room := RoomId(user.value, peer);
                messages == [] && outbox == old(outbox) + [JoinRoom(room, user.value), LoadMessages(room)]
    {
      if selectedChat == Some(peer) {
        return;
      }
      selectedChat := Some(peer);
      if user.None? {
        return;
      }
      var room := RoomId(user.value, peer);
      messages := [];
      outbox := outbox + [JoinRoom(room, user.value)];
      outbox := outbox + [LoadMessages(room)];
    }

    /** Typing in the text box. */
    method SetInput(text: JsString)
      modifies this`input
      ensures input == text
    {
      input := text;
    }

    /**
      A `chat_history` event: while a room's handlers are attached the log becomes exactly the
      received list, whichever room it was sent for.
    */
    method OnChatHistory(history: seq<Message>)
      modifies this`messages
      ensures messages == (if ActiveRoom().Some? then history else old(messages))
    {
      if ActiveRoom().Some? {
        messages := history;
      }
    }

    /** A `receive_message` event, handled by `Receive` for the attached room. */
    method OnReceiveMessage(msg: Message)
      modifies this`messages
      ensures ActiveRoom().None? ==> messages == old(messages)
      ensures ActiveRoom().Some? ==> messages == Receive(old(messages), ActiveRoom().value, msg)
    {
      var room := ActiveRoom();
      if room.Some? {
        messages := Receive(messages, room.value, msg);
      }
    }

    /**
      `handleSend`, with the clock reading `now`. Blank input, no user or no open chat: nothing
      happens. Otherwise exactly one optimistic message is appended, the input is cleared and
      the same message is emitted once as `send_message`.
    */
    method HandleSend(now: JsString) returns (sent: bool)
      modifies this`messages, this`input, this`outbox
      ensures sent <==> !IsBlank(old(input)) && user.Some? && selectedChat.Some?
      ensures !sent ==> messages == old(messages) && input == old(input) && outbox == old(outbox)
      ensures sent ==>
                var msg := Outgoing(user.value, selectedChat.value, old(input), now);
                && messages == old(messages) + [msg]
                && input == []
                && outbox == old(outbox) + [SendMessage(msg)]
    {
      TrimEmptyIffBlank(input);
      if Trim(input) == [] || user.None? || selectedChat.None? {
        return false;
      }
      var msg := Outgoing(user.value, selectedChat.value, input, now);
      messages := messages + [msg];
      input := [];
      outbox := outbox + [SendMessage(msg)];
      sent := true;
    }

    /**
      The open-chat effect: with a user and an open chat, every unread `MESSAGE` notification
      from the peer is passed to `markAsRead`, one call each, in list order, and no other is.
    */
    method AcknowledgeOpenChat(center: NotificationCenter)
      modifies center
      ensures user.None? || selectedChat.None? ==>
                center.notifications == old(center.notifications) && center.requests == old(center.requests)
      ensures user.Some? && selectedChat.Some? ==>
                var ids := AutoReadIds(old(center.notifications), selectedChat.value);
                && center.notifications == MarkReadEach(old(center.notifications), ids)
                && center.requests == old(center.requests) + ReadRequests(ids)
    {
      if user.None? || selectedChat.None? {
        return;
      }
      var peer := selectedChat.value;
      var snapshot := center.notifications;
      var i := 0;
      while i < |snapshot|
        invariant 0 <= i <= |snapshot|
        invariant center.notifications == MarkReadEach(snapshot, AutoReadIds(snapshot[..i], peer))
        invariant center.requests == old(center.requests) + ReadRequests(AutoReadIds(snapshot[..i], peer))
      {
        ghost var done := AutoReadIds(snapshot[..i], peer);
        AutoReadStep(snapshot, i, peer);
        if AutoReadable(snapshot[i], peer) {
          MarkReadEachSnoc(snapshot, done, snapshot[i].id);
          ReadRequestsSnoc(done, snapshot[i].id);
          center.MarkAsRead(snapshot[i].id);
          assert center.notifications == MarkReadEach(snapshot, done + [snapshot[i].id]);
        } else {
          assert AutoReadIds(snapshot[..i + 1], peer) == done;
        }
        i := i + 1;
      }
      assert snapshot[..i] == snapshot;
    }
  }
}
