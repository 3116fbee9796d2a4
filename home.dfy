/**
  The developer feed: like and save toggles per post, and the hire dialog with its
  pre-filled message, which records the post as hired once the message is sent.
*/
module Home {
  import opened Wrappers
  import opened JsText
  import opened ListSet

  /** The parts of a feed post the handlers use. */
  datatype Post = Post(id: int, authorName: JsString, content: JsString, likes: nat)

  const QuoteLimit: nat := 50

  /** `content.substring(0, 50)`, followed by "..." when the content is longer than 50. */
  function Quote(content: JsString): (r: JsString)
    ensures |content| <= QuoteLimit ==> r == content
    ensures |content| > QuoteLimit ==> r == content[..QuoteLimit] + Ellipsis
    ensures |r| <= QuoteLimit + |Ellipsis|
  {
    if |content| > QuoteLimit then content[..QuoteLimit] + Ellipsis else content
  }

  /** The quote in the message begins with as much of the post's content as fits. */
  lemma QuoteKeepsPrefix(content: JsString)
    ensures var n := if |content| < QuoteLimit then |content| else QuoteLimit;
            Quote(content)[..n] == content[..n]
  {
  }

  const HireGreeting: JsString := Literal("Hi ")
  const HireLead: JsString := Literal(",\n\nI came across your profile on DevTinder and I'm impressed by your work, especially your recent post about \"")
  const HireClosing: JsString := Literal("\".\n\nI have an exciting opportunity that I think would be a great fit for your skills. Would you be interested in discussing a potential collaboration or position?\n\nLooking forward to connecting!\n\nBest regards")

  /** The message the dialog opens with, line breaks included and nothing indented. */
  function DefaultHireMessage(authorName: JsString, content: JsString): JsString
  {
    HireGreeting + authorName + HireLead + Quote(content) + HireClosing
  }

  /** The default message opens with "Hi", so the send button is enabled as soon as the dialog opens. */
  lemma DefaultHireMessageNotBlank(authorName: JsString, content: JsString)
    ensures !IsBlank(DefaultHireMessage(authorName, content))
  {
    var m := DefaultHireMessage(authorName, content);
    assert m[0] == HireGreeting[0];
    assert !IsWhitespace(m[0]);
  }

  function HireToast(authorName: JsString): JsString
  {
    Literal("Hire request sent to ") + authorName + Literal("!")
  }

  class FeedPage {
    var likedPosts: seq<int>
    var savedPosts: seq<int>
    var hiredUsers: seq<int>
    var dialogOpen: bool
    var selected: Option<Post>
    var message: JsString
    var toasts: seq<JsString>

    /**
      What the Hire and Send buttons keep true: a post is hired at most once, and an open
      dialog is always about a post that is not hired yet.
    */
    ghost predicate HireConsistent()
      reads this
    {
      NoDup(hiredUsers) && (dialogOpen ==> selected.Some? && selected.value.id !in hiredUsers)
    }

    constructor ()
      ensures HireConsistent()
      ensures likedPosts == [] && savedPosts == [] && hiredUsers == []
      ensures !dialogOpen && selected.None? && message == [] && toasts == []
    {
      likedPosts, savedPosts, hiredUsers := [], [], [];
      dialogOpen := false;
      selected := None;
      message := [];
      toasts := [];
    }

    /** The Hire button of a post is disabled once the post is hired. */
    function HireDisabled(postId: int): bool
      reads this
    {
      postId in hiredUsers
    }

    /** The send button is disabled exactly when the message is empty after trimming. */
    function SendDisabled(): (r: bool)
      reads this
      ensures r <==> IsBlank(message)
    {
      TrimEmptyIffBlank(message);
      Trim(message) == []
    }

    /** `toggleLike`; the count shown under the post is `Posts.DisplayedLikes` of the new list. */
    method ToggleLike(postId: int)
      modifies this`likedPosts
      ensures likedPosts == Toggle(old(likedPosts), postId)
    {
      likedPosts := Toggle(likedPosts, postId);
    }

    method ToggleSave(postId: int)
      modifies this`savedPosts
      ensures savedPosts == Toggle(old(savedPosts), postId)
    {
      savedPosts := Toggle(savedPosts, postId);
    }

    /** `openHireDialog(post)`: select the post, pre-fill the message, open the dialog. */
    method OpenHireDialog(post: Post)
      modifies this`selected, this`message, this`dialogOpen
      ensures selected == Some(post) && dialogOpen
      ensures message == DefaultHireMessage(post.authorName, post.content)
      ensures !SendDisabled()
    {
      selected := Some(post);
      message := DefaultHireMessage(post.authorName, post.content);
      dialogOpen := true;
      DefaultHireMessageNotBlank(post.authorName, post.content);
    }

    /** Typing in the message box. */
    method EditMessage(text: JsString)
      modifies this`message
      ensures message == text
    {
      message := text;
    }

    /** Cancel, or dismissing the dialog: it closes; the selection and the message stay. */
    method CloseDialog()
      modifies this`dialogOpen
      ensures !dialogOpen
    {
      dialogOpen := false;
    }

    /**
      `sendHireMessage()`: with a selected post, record it as hired, close the dialog, confirm
      with a toast and clear the selection and the message; with none, nothing.
    */
    method SendHireMessage()
      modifies this`hiredUsers, this`dialogOpen, this`toasts, this`selected, this`message
      ensures old(selected).None? ==>
                hiredUsers == old(hiredUsers) && dialogOpen == old(dialogOpen) && toasts == old(toasts)
                && selected.None? && message == old(message)
      ensures old(selected).Some? ==>
                hiredUsers == old(hiredUsers) + [old(selected).value.id] && !dialogOpen
                && toasts == old(toasts) + [HireToast(old(selected).value.authorName)]
                && selected.None? && message == []
    {
      if selected.Some? {
        hiredUsers := hiredUsers + [selected.value.id];
        dialogOpen := false;
        toasts := toasts + [HireToast(selected.value.authorName)];
        selected := None;
        message := [];
      }
    }

    /** Pressing a post's Hire button, which does nothing while it is disabled. */
    method PressHire(post: Post)
      requires HireConsistent()
      modifies this`selected, this`message, this`dialogOpen
      ensures HireConsistent()
      ensures old(HireDisabled(post.id)) ==>
                selected == old(selected) && message == old(message) && dialogOpen == old(dialogOpen)
      ensures !old(HireDisabled(post.id)) ==>
                selected == Some(post) && dialogOpen && message == DefaultHireMessage(post.authorName, post.content)
    {
      if post.id !in hiredUsers {
        OpenHireDialog(post);
      }
    }

    /**
      Pressing the dialog's send button, which is only on screen while the dialog is open and
      does nothing while the message is blank. A send hires the selected post, which was not
      hired before, so no post is ever hired twice.
    */
    method PressSend()
      requires HireConsistent()
      modifies this`hiredUsers, this`dialogOpen, this`toasts, this`selected, this`message
      ensures HireConsistent()
      ensures !old(dialogOpen) || old(IsBlank(message)) ==>
                hiredUsers == old(hiredUsers) && dialogOpen == old(dialogOpen) && selected == old(selected)
                && message == old(message) && toasts == old(toasts)
      ensures old(dialogOpen) && !old(IsBlank(message)) ==>
                old(selected).Some? && old(selected).value.id !in old(hiredUsers)
                && hiredUsers == old(hiredUsers) + [old(selected).value.id]
                && toasts == old(toasts) + [HireToast(old(selected).value.authorName)]
                && !dialogOpen && selected.None? && message == []
    {
      if dialogOpen && !SendDisabled() {
        ghost var before := hiredUsers;
        ghost var id := selected.value.id;
        SendHireMessage();
        NoDupAppend(before, id);
      }
    }
  }
}
