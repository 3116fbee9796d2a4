/**
  Another developer's profile page: the user looked up by the route parameter among the four
  mock users, the friend-request status with its single action button, and the like and save
  toggles on the user's posts.
*/
module UserProfile {
  import opened Wrappers
  import opened JsText
  import opened ListSet

  /** The friend status, "none", "pending" or "friends". */
  datatype FriendStatus = NoRelation | Pending | Friends

  /** The parts of a mock user the page's logic uses. */
  datatype Profile = Profile(id: JsString, name: JsString)

  const User1: JsString := Literal("user_1")
  const User2: JsString := Literal("user_2")
  const User3: JsString := Literal("user_3")
  const User4: JsString := Literal("user_4")

  const MockUsers: map<JsString, Profile> := map[
    User1 := Profile(User1, Literal("Sarah Chen")),
    User2 := Profile(User2, Literal("Alex Rodriguez")),
    User3 := Profile(User3, Literal("Maya Patel")),
    User4 := Profile(User4, Literal("James Wilson"))]

  /**
    The property names every plain object inherits from `Object.prototype`, so that indexing
    an object literal with one of them yields a value even though the literal has no such key.
  */
  const ObjectPrototypeKeys: set<JsString> := {
    Literal("constructor"), Literal("hasOwnProperty"), Literal("isPrototypeOf"),
    Literal("propertyIsEnumerable"), Literal("toLocaleString"), Literal("toString"),
    Literal("valueOf"), Literal("__proto__"), Literal("__defineGetter__"),
    Literal("__defineSetter__"), Literal("__lookupGetter__"), Literal("__lookupSetter__")}

  /** The mock data is friends with user_1 and user_3 and with nobody else. */
  function InitialFriendStatus(userId: Option<JsString>): (r: FriendStatus)
    ensures r == Friends <==> userId == Some(User1) || userId == Some(User3)
    ensures r != Pending
  {
    if userId.Some? && (userId.value == User1 || userId.value == User3) then Friends else NoRelation
  }

  /** What `MOCK_USERS[userId]` yields when the page indexes the object literal directly. */
  datatype LookupResult = Missing | OwnEntry(profile: Profile) | InheritedMember(key: JsString)

  /**
    The lookup as the page writes it: an absent or empty id is falsy and gives nothing; any
    other id indexes the literal, which answers for its own keys and for every inherited name.
  */
  function LookupAsWritten(userId: Option<JsString>): (r: LookupResult)
    ensures r.OwnEntry? <==> userId.Some? && userId.value in MockUsers
    ensures r.OwnEntry? ==> r.profile == MockUsers[userId.value]
    ensures r.InheritedMember? <==>
              userId.Some? && userId.value !in MockUsers && userId.value in ObjectPrototypeKeys
  {
    if userId.None? || userId.value == [] then Missing
    else if userId.value in MockUsers then OwnEntry(MockUsers[userId.value])
    else if userId.value in ObjectPrototypeKeys then InheritedMember(userId.value)
    else Missing
  }

  /** The lookup as intended: a mock user for one of the four ids, and the not-found view otherwise. */
  function FindUser(userId: Option<JsString>): (r: Option<Profile>)
    ensures r.Some? <==> userId.Some? && userId.value in MockUsers
    ensures r.Some? ==> r.value == MockUsers[userId.value] && r.value.id == userId.value
  {
    if userId.Some? && userId.value in MockUsers then Some(MockUsers[userId.value]) else None
  }

  /**
    A route parameter such as "constructor" is not a mock user, yet the lookup as written finds
    an inherited member instead of nothing, so the page skips its not-found view.
  */
  lemma InheritedNameSkipsNotFound()
    ensures LookupAsWritten(Some(Literal("constructor"))).InheritedMember?
    ensures FindUser(Some(Literal("constructor"))).None?
  {
    var key := Literal("constructor");
    assert key[0] != User1[0];
    assert key !in MockUsers;
  }

  /** The two lookups agree on every id that is not an inherited name. */
  lemma FindUserAgreesWithLookup(userId: Option<JsString>)
    requires userId.None? || userId.value !in ObjectPrototypeKeys
    ensures FindUser(userId).Some? <==> LookupAsWritten(userId).OwnEntry?
    ensures LookupAsWritten(userId).OwnEntry? ==> FindUser(userId) == Some(LookupAsWritten(userId).profile)
    ensures FindUser(userId).None? <==> LookupAsWritten(userId).Missing?
  {
  }

  /** The one action button each status shows. */
  datatype FriendAction = SendRequest | CancelRequest | Unfriend

  function ButtonFor(s: FriendStatus): FriendAction
  {
    match s
    case NoRelation => SendRequest
    case Pending => CancelRequest
    case Friends => Unfriend
  }

  /** The status each handler sets, whatever the status before. */
  function Apply(a: FriendAction): FriendStatus
  {
    match a
    case SendRequest => Pending
    case CancelRequest => NoRelation
    case Unfriend => NoRelation
  }

  /** Pressing the button on screen. */
  function Press(s: FriendStatus): FriendStatus
  {
    Apply(ButtonFor(s))
  }

  /** Pressing the button on screen n times. */
  function PressN(s: FriendStatus, n: nat): FriendStatus
    decreases n
  {
    if n == 0 then s else PressN(Press(s), n - 1)
  }

  /** The reachable transitions are none to pending, pending to none and friends to none. */
  lemma PressTransitions(s: FriendStatus)
    ensures Press(s) == (if s == NoRelation then Pending else NoRelation)
    ensures Press(s) != Friends
  {
  }

  /**
    Once the first press is made the page never shows "friends" again, and from then on it
    alternates between none and pending.
  */
  lemma {:induction false} PressesNeverRegainFriends(s: FriendStatus, n: nat)
    ensures n >= 1 ==> PressN(s, n) != Friends
    ensures n >= 1 ==> PressN(s, n + 1) == Press(PressN(s, n)) && PressN(s, n + 2) == PressN(s, n)
    decreases n
  {
    if n >= 1 {
      PressesNeverRegainFriends(Press(s), n - 1);
      if n == 1 {
        assert PressN(s, 1) == Press(s);
        assert PressN(s, 2) == Press(Press(s));
        assert PressN(s, 3) == Press(Press(Press(s)));
      }
    }
  }

  const CancelledToast: JsString := Literal("Friend request cancelled.")

  /** The toast each handler shows for the user named `name`. */
  function ToastFor(a: FriendAction, name: JsString): JsString
  {
    match a
    case SendRequest => Literal("Friend request sent to ") + name + Literal("!")
    case CancelRequest => CancelledToast
    case Unfriend => Literal("Removed ") + name + Literal(" from your friends list.")
  }

  class ProfilePage {
    const userId: Option<JsString>
    var friendStatus: FriendStatus
    var likedPosts: seq<int>
    var savedPosts: seq<int>
    var toasts: seq<JsString>

    constructor (userId: Option<JsString>)
      ensures this.userId == userId
      ensures friendStatus == InitialFriendStatus(userId)
      ensures likedPosts == [] && savedPosts == [] && toasts == []
    {
      this.userId := userId;
      friendStatus := InitialFriendStatus(userId);
      likedPosts, savedPosts := [], [];
      toasts := [];
    }

    /** The user the route id names, by the corrected lookup (see `LookupAsWritten`). */
    function User(): Option<Profile>
    {
      FindUser(userId)
    }

    /**
      The not-found view replaces the page exactly when no mock user has the id. This is the
      intended lookup; on every id but the inherited names it is also the lookup as written.
    */
    function ShowsNotFound(): (r: bool)
      reads this
      ensures r <==> userId.None? || userId.value !in MockUsers
      ensures userId.None? || userId.value !in ObjectPrototypeKeys ==> (r <==> LookupAsWritten(userId).Missing?)
    {
      User().None?
    }

    method ToggleLike(postId: int)
      modifies this`likedPosts
      ensures likedPosts == Toggle(old(likedPosts), postId)
    {
      likedPosts := Toggle(likedPosts, postId);
    }

    method ToggleSave(postId: int)
      modifies this`savedPosts
      ensures savedPosts == Toggle(old(savedPosts), postId)
    {
      savedPosts := Toggle(savedPosts, postId);
    }

    /** `handleSendRequest`. The handlers exist only on a found profile, since they name the user. */
    method HandleSendRequest()
      requires User().Some?
      modifies this`friendStatus, this`toasts
      ensures friendStatus == Pending
      ensures toasts == old(toasts) + [Literal("Friend request sent to ") + User().value.name + Literal("!")]
    {
      friendStatus := Pending;
      toasts := toasts + [ToastFor(SendRequest, User().value.name)];
    }

    /** `handleUnfriend`. */
    method HandleUnfriend()
      requires User().Some?
      modifies this`friendStatus, this`toasts
      ensures friendStatus == NoRelation
      ensures toasts == old(toasts) + [Literal("Removed ") + User().value.name + Literal(" from your friends list.")]
    {
      friendStatus := NoRelation;
      toasts := toasts + [ToastFor(Unfriend, User().value.name)];
    }

    /** `handleCancelRequest`. */
    method HandleCancelRequest()
      requires User().Some?
      modifies this`friendStatus, this`toasts
      ensures friendStatus == NoRelation
      ensures toasts == old(toasts) + [CancelledToast]
    {
      friendStatus := NoRelation;
      toasts := toasts + [ToastFor(CancelRequest, User().value.name)];
    }

    /** Pressing the one action button the current status shows, which toasts that button's message. */
    method PressActionButton()
      requires User().Some?
      modifies this`friendStatus, this`toasts
      ensures friendStatus == Press(old(friendStatus))
      ensures toasts == old(toasts) + [ToastFor(ButtonFor(old(friendStatus)), User().value.name)]
    {
      match ButtonFor(friendStatus)
      case SendRequest => HandleSendRequest();
      case CancelRequest => HandleCancelRequest();
      case Unfriend => HandleUnfriend();
    }
  }
}
