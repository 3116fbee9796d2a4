/**
  The swipe deck: a card index into a fixed list of developers, the ids liked and passed so
  far, and a flag that keeps a second swipe out while one is waiting for the server.
*/
module Match {
  import opened Wrappers
  import opened JsText
  import Http

  datatype Direction = Right | Left

  /** The endpoint `swipeRight`/`swipeLeft` posts to. */
  function SwipePath(d: Direction, receiverId: JsString): JsString
  {
    match d
    case Right => Literal("/connection/right/") + receiverId
    case Left => Literal("/connection/left/") + receiverId
  }

  /** The one developer the page ships with. */
  const Developers: seq<JsString> := [Literal("66c9d21a9f3b4c8d1a4e1234")]

  function Abs(x: real): real
  {
    if x < 0.0 then -x else x
  }

  /**
    `handleDragEnd`: a drag further than 100 pixels either way swipes, right to like and left
    to pass, unless a swipe is already in progress; anything shorter snaps back.
  */
  function DragDecision(offsetX: real, swiping: bool): (r: Option<Direction>)
    ensures r.None? <==> swiping || (-100.0 <= offsetX <= 100.0)
    ensures r == Some(Right) <==> !swiping && offsetX > 100.0
    ensures r == Some(Left) <==> !swiping && offsetX < -100.0
  {
    if Abs(offsetX) > 100.0 && !swiping then
      if offsetX > 0.0 then Some(Right) else Some(Left)
    else None
  }

  /**
    How the swipe request ends: the server's answer (its `message`, if any), an HTTP error
    (the error body's `message` and the status, when there was a response), or any other error.
  */
  datatype Outcome =
    | Answered(message: Option<JsString>)
    | HttpFailure(errorMessage: Option<JsString>, status: Option<nat>)
    | OtherFailure

  const MatchWord: JsString := Literal("Match")

  /** "🎉 It's a Match!", the party popper written as its surrogate pair. */
  const MatchAlert: JsString := [0xD83C, 0xDF89] + Literal(" It's a Match!")

  const UnknownErrorAlert: JsString := Literal("Unknown error occurred")

  /** `Request failed (${status})`, where a missing status renders as "undefined". */
  function RequestFailedAlert(status: Option<nat>): JsString
  {
    Literal("Request failed (")
      + (if status.Some? then Decimal(status.value) else Literal("undefined"))
      + Literal(")")
  }

  /** The alert a failed swipe raises: the server's message when it is a non-empty string, else a fallback. */
  function FailureAlert(o: Outcome): (r: JsString)
    requires !o.Answered?
    ensures r != []
    ensures o.HttpFailure? && o.errorMessage.Some? && o.errorMessage.value != [] ==> r == o.errorMessage.value
    ensures o.HttpFailure? && (o.errorMessage.None? || o.errorMessage.value == []) ==> r == RequestFailedAlert(o.status)
    ensures o.OtherFailure? ==> r == UnknownErrorAlert
  {
    match o
    case HttpFailure(message, status) =>
      if message.Some? && message.value != [] then message.value else RequestFailedAlert(status)
    case OtherFailure => UnknownErrorAlert
  }

  /** The alerts a successful swipe raises: one, for a like whose answer mentions "Match". */
  function SuccessAlerts(d: Direction, o: Outcome): (r: seq<JsString>)
    requires o.Answered?
    ensures |r| <= 1 && (r != [] ==> r == [MatchAlert])
    ensures r != [] <==> d == Right && o.message.Some? && Includes(o.message.value, MatchWord)
  {
    if d == Right && o.message.Some? && Includes(o.message.value, MatchWord) then [MatchAlert] else []
  }

  /** The alerts raised when a swipe's request settles, whichever way it went. */
  function SettleAlerts(d: Direction, o: Outcome): seq<JsString>
  {
    if o.Answered? then SuccessAlerts(d, o) else [FailureAlert(o)]
  }

  /**
    The bookkeeping invariant of the deck: every card before the index was decided exactly
    once, as a like or as a pass, and nothing else was.
  */
  ghost predicate Tally(devs: seq<JsString>, index: nat, matches: seq<JsString>, passes: seq<JsString>)
  {
    index <= |devs|
    && |matches| + |passes| == index
    && multiset(matches) + multiset(passes) == multiset(devs[..index])
  }

  /** Deciding the current card, either way, keeps the tally. */
  lemma TallyStep(devs: seq<JsString>, index: nat, matches: seq<JsString>, passes: seq<JsString>)
    requires Tally(devs, index, matches, passes) && index < |devs|
    ensures Tally(devs, index + 1, matches + [devs[index]], passes)
    ensures Tally(devs, index + 1, matches, passes + [devs[index]])
  {
    assert devs[..index + 1] == devs[..index] + [devs[index]];
  }

  /**
    Once the deck is exhausted, the two counts on the end screen add up to the number of cards,
    and together the two lists hold exactly the deck.
  */
  lemma EndScreenCounts(devs: seq<JsString>, index: nat, matches: seq<JsString>, passes: seq<JsString>)
    requires Tally(devs, index, matches, passes) && index >= |devs|
    ensures |matches| + |passes| == |devs|
    ensures multiset(matches) + multiset(passes) == multiset(devs)
  {
    assert devs[..index] == devs;
  }

  /**
    The deck as the page writes it, with the 250 ms timer of `nextCard` kept: a success records
    the card captured when the swipe started and drops the flag in `finally` at once, while the
    index moves only when the timer fires. A swipe is in progress exactly while `inFlight` holds.
  */
  datatype TimedDeck = TimedDeck(
    index: nat,
    matches: seq<JsString>,
    passes: seq<JsString>,
    inFlight: Option<(Direction, JsString)>,
    pendingAdvances: nat)

  /** A press of like or pass, the request settling (successfully or not), or a timer firing. */
  datatype DeckEvent = Tap(d: Direction) | Settle(ok: bool) | TimerFires

  function StepAsWritten(devs: seq<JsString>, s: TimedDeck, e: DeckEvent): TimedDeck
  {
    match e
    case Tap(d) =>
      if s.index < |devs| && s.inFlight.None? then s.(inFlight := Some((d, devs[s.index]))) else s
    case Settle(ok) =>
      if s.inFlight.None? then s
      else if !ok then s.(inFlight := None)
      else if s.inFlight.value.0 == Right then
        s.(matches := s.matches + [s.inFlight.value.1], inFlight := None, pendingAdvances := s.pendingAdvances + 1)
      else
        s.(passes := s.passes + [s.inFlight.value.1], inFlight := None, pendingAdvances := s.pendingAdvances + 1)
    case TimerFires =>
      if s.pendingAdvances > 0 then s.(index := s.index + 1, pendingAdvances := s.pendingAdvances - 1) else s
  }

  function RunAsWritten(devs: seq<JsString>, s: TimedDeck, events: seq<DeckEvent>): TimedDeck
    decreases |events|
  {
    if events == [] then s else RunAsWritten(devs, StepAsWritten(devs, s, events[0]), events[1..])
  }

  /**
    On a one-card deck, a second like pressed within 250 ms of the first one settling finds the
    flag down and the index unmoved, so it likes the same card again: the card is recorded
    twice, the index ends past the deck, and the tally no longer holds.
  */
  lemma DoubleSwipeAsWritten(devs: seq<JsString>)
    requires |devs| == 1
    ensures var s := RunAsWritten(devs, TimedDeck(0, [], [], None, 0),
                                  [Tap(Right), Settle(true), Tap(Right), Settle(true), TimerFires, TimerFires]);
            s.matches == [devs[0], devs[0]] && s.index == 2
            && |s.matches| + |s.passes| > |devs| && !Tally(devs, s.index, s.matches, s.passes)
  {
  }

  class SwipeDeck {
    const devs: seq<JsString>
    var index: nat
    var matches: seq<JsString>
    var passes: seq<JsString>
    var isSwiping: bool
    /** The swipe whose request is awaited, if any. */
    var inFlight: Option<Direction>
    var requests: seq<Http.Request>
    var alerts: seq<JsString>

    ghost predicate Valid()
      reads this
    {
      Tally(devs, index, matches, passes)
      && (isSwiping <==> inFlight.Some?)
      && (isSwiping ==> index < |devs|)
    }

    /** The page's deck: `DEVELOPERS`, from its first card. */
    constructor ()
      ensures Valid() && devs == Developers
      ensures index == 0 && matches == [] && passes == [] && !isSwiping
      ensures requests == [] && alerts == []
    {
      devs := Developers;
      index := 0;
      matches, passes := [], [];
      isSwiping := false;
      inFlight := None;
      requests, alerts := [], [];
    }

    /** `DEVELOPERS[currentIndex]`, absent past the end. */
    function CurrentDev(): (r: Option<JsString>)
      reads this
      ensures r.Some? <==> index < |devs|
      ensures r.Some? ==> r.value == devs[index]
    {
      if index < |devs| then Some(devs[index]) else None
    }

    /** The end screen and its two counts, shown exactly when no card is left. */
    function EndScreen(): (r: Option<(nat, nat)>)
      reads this
      ensures r.Some? <==> CurrentDev().None?
      ensures r.Some? ==> r.value == (|matches|, |passes|)
    {
      if index >= |devs| then Some((|matches|, |passes|)) else None
    }

    /**
      The synchronous part of `handleLike`/`handlePass`: with a card showing and no swipe
      pending, raise the flag and post the swipe for the current card; otherwise nothing.
    */
    method StartSwipe(d: Direction)
      requires Valid()
      modifies this`isSwiping, this`inFlight, this`requests
      ensures Valid()
      ensures old(CurrentDev().None? || isSwiping) ==>
                isSwiping == old(isSwiping) && inFlight == old(inFlight) && requests == old(requests)
      ensures old(CurrentDev().Some? && !isSwiping) ==>
                isSwiping && inFlight == Some(d) && requests == old(requests) + [Http.Post(SwipePath(d, devs[index]))]
    {
      if index >= |devs| || isSwiping {
        return;
      }
      isSwiping := true;
      inFlight := Some(d);
      requests := requests + [Http.Post(SwipePath(d, devs[index]))];
    }

    /**
      The rest of the handler, once the request settles. A success records the card in the list
      of its direction and moves to the next card; a failure raises an alert and changes no list
      and no index. Either way the flag drops, but only once the index has moved, so that no card
      is decided twice (the page as written is `TimedDeck`, see `DoubleSwipeAsWritten`).
    */
    method CompleteSwipe(outcome: Outcome)
      requires Valid() && inFlight.Some?
      modifies this`index, this`matches, this`passes, this`isSwiping, this`inFlight, this`alerts
      ensures Valid() && !isSwiping && inFlight.None?
      ensures alerts == old(alerts) + SettleAlerts(old(inFlight).value, outcome)
      ensures outcome.Answered? ==>
                index == old(index) + 1
                && matches == old(matches) + (if old(inFlight) == Some(Right) then [devs[old(index)]] else [])
                && passes == old(passes) + (if old(inFlight) == Some(Left) then [devs[old(index)]] else [])
      ensures !outcome.Answered? ==>
                index == old(index) && matches == old(matches) && passes == old(passes)
    {
      var d := inFlight.value;
      var raised := SettleAlerts(d, outcome);
      if outcome.Answered? {
        var card := devs[index];
        TallyStep(devs, index, matches, passes);
        if d == Right {
          matches := matches + [card];
        } else {
          passes := passes + [card];
        }
        index := index + 1;
      }
      alerts := alerts + raised;
      isSwiping := false;
      inFlight := None;
    }

    /** `handleDragEnd`: a qualifying drag starts the like or the pass; any other drag does nothing. */
    method HandleDragEnd(offsetX: real)
      requires Valid()
      modifies this`isSwiping, this`inFlight, this`requests
      ensures Valid()
      ensures DragDecision(offsetX, old(isSwiping)).None? || old(CurrentDev().None?) ==>
                isSwiping == old(isSwiping) && inFlight == old(inFlight) && requests == old(requests)
      ensures DragDecision(offsetX, old(isSwiping)).Some? && old(CurrentDev().Some?) ==>
                inFlight == DragDecision(offsetX, old(isSwiping))
                && requests == old(requests) + [Http.Post(SwipePath(inFlight.value, devs[index]))]
    {
      var decision := DragDecision(offsetX, isSwiping);
      if decision.Some? {
        StartSwipe(decision.value);
      }
    }
  }
}
