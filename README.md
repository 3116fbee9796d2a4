# DevTinder front end: a verified model of its client-side state

DevTinder is a React single-page app where developers find each other, like and hire, and chat.
This project models the logic that decides what each page holds and what it sends. The page
markup is not modelled.

- **Chat page.** The room id both sides derive from the two user ids. The message log of the open
  room, fed by the history snapshot, by live messages (deduplicated by `_id`) and by the user's own
  optimistic sends. The socket events the page emits. The rule that opening a chat marks the
  peer's unread message notifications read.
- **Notification list.** The list shared by every page: seeded once from the server, with pushes
  prepended, and acknowledged locally before one fire-and-forget PATCH per call.
- **Small state machines.**
  - The three-step onboarding wizard and its toggle-in/toggle-out chip lists.
  - The swipe deck: a card index, the liked and passed ids, and a re-entry guard around the
    swipe request.
  - The friend-request status on a profile: none, pending, friends.
  - Like, save and hire on the feed and on a profile.

JavaScript strings are modelled as sequences of UTF-16 code units (`JsText.JsString`). So the
default `sort`, `length`, `substring` and `trim` mean exactly what they mean in JavaScript.
Socket emits, HTTP calls, alerts and toasts are appended to outbox fields. A server answer comes in
as a parameter of the method that handles it. An `async` handler is split at its `await` into two
methods (`Match.SwipeDeck.StartSwipe` and `CompleteSwipe`).

Modules:
- `Wrappers`: Option and Result.
- `JsText`: code units, trim, string order, `includes`, decimal rendering.
- `ListSet`: the toggle used by every list-as-set.
- `Http`: the request outbox.
- `Posts`: the like counter.
- The pages: `Notifications`, `Chat`, `Onboarding`, `Match`, `Home`, `UserProfile`.

Where the code differs from the behaviour one might expect, the model follows the code:
- The optimistic message a user sends is never reconciled with the server's echo.
- `chat_history` is accepted without a room check.
- Notification pushes are not deduplicated.
- The open-chat effect picks notifications by type `MESSAGE`, by sender and by unread flag; it
  does not look at `roomId`.
- `_id` comparison treats two absent ids as equal, so a live message without `_id` is dropped
  whenever the log already holds one without `_id`.

## Model

| member | source | states |
|---|---|---|
| `JsText.TrimStart` | src/components/ChatPage.tsx:197 | The result is a suffix of the input, everything removed before it is whitespace, and it starts with a non-whitespace code unit when non-empty. |
| `JsText.TrimEnd` | src/components/ChatPage.tsx:197 | The result is a prefix of the input, everything removed after it is whitespace, and it ends with a non-whitespace code unit when non-empty. |
| `JsText.TrimStartEmptyIffBlank` | src/components/ChatPage.tsx:197 | Trimming the start leaves nothing exactly when every code unit is whitespace. |
| `JsText.TrimEndEmptyOnlyIfBlank` | src/components/ChatPage.tsx:197 | Trimming the end leaves nothing only when every code unit is whitespace. |
| `JsText.TrimEmptyIffBlank` | src/components/ChatPage.tsx:197 | `s.trim()` is empty exactly when `s` is made only of ECMAScript whitespace, which is what `!message.trim()` and `!customMessage.trim()` test. |
| `JsText.BelowIrreflexive` | src/components/ChatPage.tsx:137 | The string order `sort()` uses never puts a string before itself. |
| `JsText.BelowAsymmetric` | src/components/ChatPage.tsx:137 | Two strings are never each before the other. |
| `JsText.BelowTotal` | src/components/ChatPage.tsx:137 | Two different strings are always ordered one way or the other, so sorting a pair is determined. |
| `JsText.IncludesIffOccurs` | src/components/MatchPage.tsx:91 | `s.includes(sub)` holds exactly when `sub` occurs at some position of `s`. |
| `JsText.Decimal` | src/components/MatchPage.tsx:101-104 | The rendering of a status number is a non-empty run of decimal digits without a leading zero. |
| `JsText.DecimalRoundTrip` | src/components/MatchPage.tsx:101-104 | Reading the rendered digits back gives the number. |
| `ListSet.Remove` | src/components/OnboardingPage.tsx:82 | `filter(i => i !== item)` removes every occurrence of the item, keeps every other element with its multiplicity, and keeps their order. |
| `ListSet.ToggleSpec` | src/components/OnboardingPage.tsx:76-86 | Toggling flips the item's membership and leaves every other element's membership alone. An absent item is appended at the end with the list before it untouched. A present item is filtered out, keeping the order of the rest. |
| `ListSet.ToggleKeepsNoDup` | src/components/OnboardingPage.tsx:76-86 | Toggling keeps a list free of duplicates. |
| `ListSet.ToggleTwice` | src/components/OnboardingPage.tsx:76-86 | Toggling twice restores the list's contents when it has no duplicates, and restores the list exactly when the item was absent. |
| `ListSet.RemoveAbsent` | src/components/OnboardingPage.tsx:82 | Filtering out an absent item returns the list unchanged. |
| `ListSet.RemoveAppend` | src/components/OnboardingPage.tsx:82 | Filtering distributes over concatenation. |
| `ListSet.NoDupAppend` | src/components/HomePage.tsx:149 | Appending an id that is not yet present keeps the list free of duplicates. |
| `Posts.ToggleLikeMovesCounter` | src/components/HomePage.tsx:333-338 | The counter reads `likes + 1` exactly when the post is liked. Toggling a like moves that post's counter by one in the right direction and no other post's counter (the same expression is at src/components/UserProfilePage.tsx:676-681). |
| `Notifications.MarkRead` | src/context/NotificationContext.tsx:130-132 | Length and order are kept. An entry ends up read exactly when it was read or carries the id. Nothing but read flags changes. |
| `Notifications.MarkAllRead` | src/context/NotificationContext.tsx:139 | Length and order are kept, every entry is read, and nothing but read flags changes. |
| `Notifications.MarkReadIdempotent` | src/context/NotificationContext.tsx:130-132 | Marking the same id twice equals marking it once. |
| `Notifications.MarkReadUnreadCount` | src/context/NotificationContext.tsx:130-132 | Marking an id lowers the unread count by exactly the number of unread entries with that id. |
| `Notifications.MarkAllReadLeavesNoneUnread` | src/context/NotificationContext.tsx:139 | After marking all, nothing is unread, and marking all again changes nothing. |
| `Notifications.MarkReadEachSpec` | src/context/NotificationContext.tsx:129-135 | Marking a list of ids one by one flips exactly the entries whose id is in the list, and only their read flags. |
| `Notifications.MarkAllIsMarkEach` | src/context/NotificationContext.tsx:138-142 | Marking all has the same local effect as marking every known id one by one. |
| `Notifications.NotificationCenter.constructor` | src/context/NotificationContext.tsx:107-114 | The provider starts with an empty list and issues one GET of `/notifications/unread`. |
| `Notifications.NotificationCenter.LoadUnread` | src/context/NotificationContext.tsx:110-114 | A successful load replaces the list wholesale. A failed one is swallowed and leaves the list as it was. |
| `Notifications.NotificationCenter.Push` | src/context/NotificationContext.tsx:117-121 | A pushed notification becomes element 0, the old list follows unchanged, and the length grows by one, even when its `_id` is already present. |
| `Notifications.NotificationCenter.MarkAsRead` | src/context/NotificationContext.tsx:129-135 | The list becomes `MarkRead` of the old list, and exactly one PATCH to `/notifications/read/{id}` is issued. Nothing depends on the PATCH's answer, so nothing is rolled back. |
| `Notifications.NotificationCenter.MarkAllAsRead` | src/context/NotificationContext.tsx:138-142 | The list becomes `MarkAllRead` of the old list, and exactly one PATCH to `/notifications/read-all` is issued. |
| `Notifications.UseNotifications` | src/context/NotificationContext.tsx:153-157 | The hook fails with "useNotifications must be used inside provider" exactly when there is no provider, and otherwise returns the provider's value. |
| `Chat.SortedPair` | src/components/ChatPage.tsx:137 | `[a, b].sort()` holds the same two ids, the first not after the second. |
| `Chat.RoomIdSymmetric` | src/components/ChatPage.tsx:136-138 | `getRoomId(a, b) == getRoomId(b, a)`. It is the smaller id, `_`, then the larger id. |
| `Chat.Receive` | src/components/ChatPage.tsx:176-181 | The log keeps its prefix and grows by at most one. It grows exactly when the message is for the room and no entry has its `_id` (absent equal to absent). The new last entry is the message. |
| `Chat.ReceiveIdempotent` | src/components/ChatPage.tsx:178 | Delivering the same message twice equals delivering it once, and a log without repeated `_id`s keeps that property. |
| `Chat.EchoNotReconciled` | src/components/ChatPage.tsx:178 | The server's echo of an optimistic message, carrying an `_id`, is appended beside the optimistic entry rather than replacing it. |
| `Chat.AutoReadIdsMembers` | src/components/ChatPage.tsx:142-149 | An id is passed to `markAsRead` exactly when some unread `MESSAGE` notification from the peer carries it. |
| `Chat.AutoAcknowledgeSpec` | src/components/ChatPage.tsx:139-150 | After the effect, an entry is read exactly when it was read or shares its id with an unread `MESSAGE` from the peer. Nothing else changes. The effect's re-run, triggered by the changed list, finds nothing to acknowledge. |
| `Chat.ChatPage.ActiveRoom` | src/components/ChatPage.tsx:153-154 | The history and receive handlers are attached exactly when a user is signed in and a chat is open. |
| `Chat.ChatPage.constructor` | src/components/ChatPage.tsx:131-135 | No chat is open, the input and the log are empty, and nothing has been emitted. |
| `Chat.ChatPage.SelectChat` | src/components/ChatPage.tsx:153-168 | Opening a different chat while signed in empties the log, then emits `join_room {roomId, userId}`, then `load_messages {roomId}`. Re-selecting the open chat, or selecting while signed out, leaves the log and the socket alone. |
| `Chat.ChatPage.SetInput` | src/components/ChatPage.tsx:416-417 | The input becomes the typed text. |
| `Chat.ChatPage.OnChatHistory` | src/components/ChatPage.tsx:171-173 | While handlers are attached, the log becomes exactly the received list, with no room check. |
| `Chat.ChatPage.OnReceiveMessage` | src/components/ChatPage.tsx:176-181 | While handlers are attached, the log is updated by `Receive` for the active room. Otherwise it is unchanged. |
| `Chat.ChatPage.HandleSend` | src/components/ChatPage.tsx:196-214 | With whitespace-only input, no user or no open chat, nothing changes and nothing is emitted. Otherwise exactly one message is appended: no `_id`, unread, from the user to the peer, in `getRoomId(user, peer)`, with the untrimmed input. The input is cleared and `send_message` is emitted once. |
| `Chat.ChatPage.AcknowledgeOpenChat` | src/components/ChatPage.tsx:139-150 | With a user and an open chat, the unread `MESSAGE` notifications from the peer are passed to `markAsRead` one by one, in list order, one PATCH each, and no other notification is. Without both, nothing happens. |
| `Onboarding.RunStaysInRange` | src/components/OnboardingPage.tsx:88-100 | Starting within 1..3, the step stays within 1..3 under any sequence of Next and Back. |
| `Onboarding.NextReachesLastStep` | src/components/OnboardingPage.tsx:88-94 | Enough presses of Next reach step 3 from any step, and further presses keep it there. |
| `Onboarding.Wizard.constructor` | src/components/OnboardingPage.tsx:68-71 | The wizard starts at step 1 with three empty selection lists. |
| `Onboarding.Wizard.HandleNext` | src/components/OnboardingPage.tsx:88-94 | Below step 3 the step goes up by one. On step 3 it stays and `/home` is navigated to. The button reads "Get Started" exactly when pressing it navigates. |
| `Onboarding.Wizard.HandleBack` | src/components/OnboardingPage.tsx:96-100 | Above step 1 the step goes down by one. On step 1, where the button is disabled, nothing changes. |
| `Onboarding.Wizard.Skip` | src/components/OnboardingPage.tsx:320-325 | "Skip for now" navigates to `/home` from any step. |
| `Onboarding.Wizard.ToggleSelection` | src/components/OnboardingPage.tsx:76-86 | The chosen list is toggled on the item, and the other two lists are unchanged. |
| `Match.DragDecision` | src/components/MatchPage.tsx:67-78 | A drag of at most 100 pixels either way, or one while a swipe is in progress, does nothing. A longer drag right likes, and a longer drag left passes. |
| `Match.FailureAlert` | src/components/MatchPage.tsx:97-107 | A failed swipe alerts the server's message when it is a non-empty string, else "Request failed (status)" with "undefined" for a missing status. A non-HTTP error alerts "Unknown error occurred". The alert is never empty. |
| `Match.SuccessAlerts` | src/components/MatchPage.tsx:91-93 | A successful swipe raises one alert, "It's a Match!", exactly when it is a like whose answer's message includes "Match". Otherwise it raises none. |
| `Match.TallyStep` | src/components/MatchPage.tsx:95-96 | Deciding the current card as a like or as a pass keeps the tally: every card before the index was decided exactly once. |
| `Match.EndScreenCounts` | src/components/MatchPage.tsx:154-176 | When the deck is exhausted, the Liked and Passed counts add up to the number of cards, and the two lists together hold exactly the deck. |
| `Match.SwipeDeck.constructor` | src/components/MatchPage.tsx:33-52 | The deck is the page's `DEVELOPERS` list, and it starts at card 0 with empty lists and no swipe in progress. |
| `Match.SwipeDeck.CurrentDev` | src/components/MatchPage.tsx:54 | The current developer exists exactly when the index is within the deck, and it is the card at the index. |
| `Match.SwipeDeck.EndScreen` | src/components/MatchPage.tsx:154-176 | The end screen shows exactly when there is no current developer, and it reports the lengths of the two lists. |
| `Match.SwipeDeck.StartSwipe` | src/components/MatchPage.tsx:83-89 | With no current card, or with a swipe in progress, nothing happens. Otherwise the flag is raised and exactly one POST to `/connection/right/{id}` or `/connection/left/{id}` is issued for the current card. The invariant is kept. |
| `Match.SwipeDeck.CompleteSwipe` | src/components/MatchPage.tsx:89-110 | Success appends the card to the list of its direction and advances the index by exactly one. Failure changes no list and no index and raises its alert. The flag is down afterwards either way, and the tally invariant is kept. This is the corrected ordering: the flag drops only once the index has moved. |
| `Match.DoubleSwipeAsWritten` | src/components/MatchPage.tsx:83-148 | With the flag dropped in `finally` before the 250 ms timer moves the index, two likes on a one-card deck record the same card twice and leave the index at 2, so the tally fails. |
| `Match.SwipeDeck.HandleDragEnd` | src/components/MatchPage.tsx:67-78 | A qualifying drag starts the like or the pass for the current card. Any other drag changes nothing. |
| `Home.Quote` | src/components/HomePage.tsx:133-136 | The quote is the content itself when it has at most 50 code units, and otherwise its first 50 followed by "...". It is never longer than 53. |
| `Home.QuoteKeepsPrefix` | src/components/HomePage.tsx:133-136 | The quote begins with as much of the post's content as fits in 50 code units. |
| `Home.DefaultHireMessageNotBlank` | src/components/HomePage.tsx:131-142 | The pre-filled hire message is never blank, so the send button is enabled when the dialog opens. |
| `Home.FeedPage.constructor` | src/components/HomePage.tsx:104-111 | No post is liked, saved or hired, and the dialog is closed with no selection and an empty message. |
| `Home.FeedPage.SendDisabled` | src/components/HomePage.tsx:535 | The send button is disabled exactly when the message is whitespace only. |
| `Home.FeedPage.ToggleLike` | src/components/HomePage.tsx:113-119 | The liked list becomes its toggle on the post id. |
| `Home.FeedPage.ToggleSave` | src/components/HomePage.tsx:121-127 | The saved list becomes its toggle on the post id. |
| `Home.FeedPage.OpenHireDialog` | src/components/HomePage.tsx:129-145 | The post is selected, the message is the default hire message for its author and content, and the dialog opens with sending enabled. |
| `Home.FeedPage.EditMessage` | src/components/HomePage.tsx:467-469 | The message becomes the typed text. |
| `Home.FeedPage.CloseDialog` | src/components/HomePage.tsx:526-531 | The dialog closes. The selection and the message stay. |
| `Home.FeedPage.SendHireMessage` | src/components/HomePage.tsx:147-158 | With no selection, nothing is hired and the dialog, the message and the toasts stay. With one, its id is appended to the hired list, the dialog closes, a toast names the author, and the selection and message are cleared. |
| `Home.FeedPage.PressHire` | src/components/HomePage.tsx:246-251 | The Hire button of a hired post does nothing. Otherwise it opens the dialog for the post. Either way, no post is hired twice and an open dialog is about an unhired post. |
| `Home.FeedPage.PressSend` | src/components/HomePage.tsx:533-535 | With the dialog open and a non-blank message, the selected post, which was not hired, is hired, the "Hire request sent to {author}!" toast is shown and the dialog is cleared. Otherwise nothing changes. No post is ever hired twice. |
| `UserProfile.InitialFriendStatus` | src/components/UserProfilePage.tsx:248-260 | The status starts as friends exactly for `user_1` and `user_3`, and as none for any other id or a missing id. It never starts as pending. |
| `UserProfile.LookupAsWritten` | src/components/UserProfilePage.tsx:265 | Indexing the mock-user object finds a user exactly for the four own keys. Any other id that names an `Object.prototype` member finds that inherited member, not nothing. |
| `UserProfile.FindUser` | src/components/UserProfilePage.tsx:264-279 | A profile is found exactly for the four mock ids, and it is the mock user with that id. Every other id or a missing id gives the not-found view. |
| `UserProfile.InheritedNameSkipsNotFound` | src/components/UserProfilePage.tsx:265-267 | For the id "constructor" the lookup as written finds an inherited member while the intended lookup finds nothing. |
| `UserProfile.FindUserAgreesWithLookup` | src/components/UserProfilePage.tsx:265-267 | On every id that is not an inherited name, the two lookups find the same user, or both find nothing. |
| `UserProfile.PressTransitions` | src/components/UserProfilePage.tsx:361-389 | Each status shows one button, and pressing it moves none to pending, pending to none and friends to none. No press leads to friends. |
| `UserProfile.PressesNeverRegainFriends` | src/components/UserProfilePage.tsx:297-312 | After the first press the status is never friends again, and from then on it alternates between none and pending. |
| `UserProfile.ProfilePage.constructor` | src/components/UserProfilePage.tsx:247-262 | The page keeps the route id and starts with the initial friend status for it, no liked or saved posts and no toasts. |
| `UserProfile.ProfilePage.ShowsNotFound` | src/components/UserProfilePage.tsx:267-279 | The not-found view shows exactly when no mock user has the route id (the intended lookup). On every id that is not an inherited `Object.prototype` name this is also when the lookup as written finds nothing. |
| `UserProfile.ProfilePage.ToggleLike` | src/components/UserProfilePage.tsx:281-287 | The liked list becomes its toggle on the post id. |
| `UserProfile.ProfilePage.ToggleSave` | src/components/UserProfilePage.tsx:289-295 | The saved list becomes its toggle on the post id. |
| `UserProfile.ProfilePage.HandleSendRequest` | src/components/UserProfilePage.tsx:297-302 | The status becomes pending, and a toast names the user. |
| `UserProfile.ProfilePage.HandleUnfriend` | src/components/UserProfilePage.tsx:304-307 | The status becomes none, and a toast names the user. |
| `UserProfile.ProfilePage.HandleCancelRequest` | src/components/UserProfilePage.tsx:309-312 | The status becomes none, and the cancellation toast is shown. |
| `UserProfile.ProfilePage.PressActionButton` | src/components/UserProfilePage.tsx:361-389 | Pressing the one button on screen moves the status as `Press` says, and shows exactly that button's toast (`ToastFor`) naming the user. |

## Left out

- Socket transport, listener attach and detach, and effect re-runs. Emits are appended to an outbox. `src/utils/socket` is not part of this model.
- The friend list load on the chat page (`/connection/matches`). It only fills the sidebar.
- `Chat.ChatPage.SelectChat`: React skips a state update to the identical object. The model approximates that with equality of the peer id. Clicking a different object for the same user would re-run the effect, and the model does not capture that.
- Async interleaving between `chat_history` and `receive_message`. Each event is handled atomically, in the order it is applied. Between a swipe request and later clicks, only the interleaving in `Match.TimedDeck` is modelled.
- `Match.SwipeDeck.CompleteSwipe`: models the corrected ordering, in which the index moves when the request settles. The ordering as written, with the 250 ms `setTimeout` in `nextCard`, is `Match.TimedDeck` (see Findings).
- `UserProfile.ProfilePage.ShowsNotFound`: the page is built on the corrected lookup `FindUser`. For an inherited name such as `constructor`, the page as written skips the not-found view and then fails reading `user.stats` (src/components/UserProfilePage.tsx:404). Only `LookupAsWritten` and the Findings row capture that.
- `UserProfile.ProfilePage.constructor`: the page's user, `User()`, is the corrected lookup `FindUser`, not `MOCK_USERS[userId]` as written (see Findings).
- The card motion values (`x`, rotation, opacity) and the onboarding progress percentage: these are floating-point display values.
- `new Date().toISOString()` and `toLocaleTimeString`: the clock reading is a parameter (`now`) of `HandleSend`.
- `JsText.Literal` maps characters outside the Basic Multilingual Plane to U+FFFD. Every literal the model quotes is ASCII, except the party popper in the match alert, which is written out as its surrogate pair.
- Routing, authentication and tokens: `App.tsx`, `AuthProvider.tsx`, `ProtectedRoutes.tsx`, and the axios wrappers in `src/utils/api.ts` and `src/api/api.connection.ts`. Each HTTP call is a request in an outbox.
- `NotificationsPage.tsx` (a static mock list with an unwired button), `AppLayout.tsx` (navigation chrome), `CodeEditorPage.tsx` (editor, collaboration and code evaluation libraries) and the static pages.
- The text of toast descriptions, and the rendering of markup.
- Logging: the `console.error` calls in the swipe handlers' `catch` blocks (src/components/MatchPage.tsx:98, 126), the `console.log` of a failed friend-list load (src/components/ChatPage.tsx:219) and of an incoming notification (src/context/NotificationContext.tsx:119). They write to the console and change no state.
- The user profile page has no route in `App.tsx`. The model takes the route parameter as the constructor's argument. It does not model a parameter change without a remount, which would keep the old friend status.

## Findings

| source | as written | input that shows it | evidently intended | confidence | as-written member | corrected member |
|---|---|---|---|---|---|---|
| src/components/UserProfilePage.tsx:265-267 | `MOCK_USERS[userId]` indexes a plain object literal, so it also answers for names inherited from `Object.prototype`. | the route id `constructor` (or `toString`, `__proto__`, ...) yields a truthy inherited member, the not-found view is skipped, and the page goes on to read fields such as `user.stats` that the member does not have | any id that is not one of the four mock users shows "User Not Found" | not executed | `UserProfile.LookupAsWritten` (exhibited by `UserProfile.InheritedNameSkipsNotFound`) | `UserProfile.FindUser` |
| src/components/MatchPage.tsx:108-148 | `finally` lowers `isSwiping` as soon as the request settles, while `nextCard` moves the index 250 ms later. | on a one-card deck, like, the request succeeds, like again within 250 ms, it succeeds: the card is in `matches` twice, the index ends at 2, and the end screen reports 2 liked of 1 card | each card is decided once; the flag stays up until the index has moved | not executed | `Match.RunAsWritten` (exhibited by `Match.DoubleSwipeAsWritten`) | `Match.SwipeDeck.CompleteSwipe` |
