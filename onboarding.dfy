/**
  The three-step onboarding wizard: a step counter moved by Next and Back, three selection
  lists updated by the shared toggle, and the navigation to the feed when it finishes.
*/
module Onboarding {
  import opened JsText
  import opened ListSet

  const TotalSteps: int := 3

  const HomeRoute: JsString := Literal("/home")

  /** Which of the three lists a chip belongs to. */
  datatype Selection = Skills | Interests | ProjectTypes

  /** The caption of the forward button, "Next" or "Get Started". */
  datatype NextCaption = NextLabel | GetStartedLabel

  /** The step `handleNext` leaves behind: one further, except on the last step. */
  function NextStep(step: int): int
  {
    if step < TotalSteps then step + 1 else step
  }

  /** The step `handleBack` leaves behind: one back, except on the first step. */
  function PrevStep(step: int): int
  {
    if step > 1 then step - 1 else step
  }

  datatype Press = Next | Back

  /** The step after a run of button presses. */
  function Run(step: int, presses: seq<Press>): int
    decreases |presses|
  {
    if presses == [] then step
    else Run(if presses[0] == Next then NextStep(step) else PrevStep(step), presses[1..])
  }

  /** Whatever the presses, the step stays within 1..3. */
  lemma {:induction false} RunStaysInRange(step: int, presses: seq<Press>)
    requires 1 <= step <= TotalSteps
    ensures 1 <= Run(step, presses) <= TotalSteps
    decreases |presses|
  {
    if presses != [] {
      RunStaysInRange(if presses[0] == Next then NextStep(step) else PrevStep(step), presses[1..]);
    }
  }

  /** Enough presses of Next reach the last step from anywhere in range, and stay there. */
  lemma {:induction false} NextReachesLastStep(step: int, n: nat)
    requires 1 <= step <= TotalSteps && n >= TotalSteps - step
    ensures Run(step, seq(n, _ => Next)) == TotalSteps
    decreases n
  {
    if n > 0 {
      var presses := seq(n, _ => Next);
      assert presses[1..] == seq(n - 1, _ => Next);
      NextReachesLastStep(NextStep(step), n - 1);
    }
  }

  class Wizard {
    var step: int
    var skills: seq<JsString>
    var interests: seq<JsString>
    var projectTypes: seq<JsString>
    /** The routes passed to `navigate`, in order. */
    var navigations: seq<JsString>

    ghost predicate Valid()
      reads this
    {
      1 <= step <= TotalSteps
    }

    constructor ()
      ensures Valid() && step == 1
      ensures skills == [] && interests == [] && projectTypes == [] && navigations == []
    {
      step := 1;
      skills, interests, projectTypes := [], [], [];
      navigations := [];
    }

    /** The Back button is disabled on the first step. */
    function BackDisabled(): bool
      reads this
    {
      step == 1
    }

    /** "Get Started" on the last step, "Next" before it. */
    function Caption(): NextCaption
      reads this
    {
      if step == TotalSteps then GetStartedLabel else NextLabel
    }

    /**
      `handleNext`: one step further, or on the last step a navigation to the feed. The button
      reads "Get Started" exactly when pressing it navigates.
    */
    method HandleNext()
      requires Valid()
      modifies this`step, this`navigations
      ensures Valid()
      ensures step == NextStep(old(step))
      ensures navigations == old(navigations) + (if old(step) == TotalSteps then [HomeRoute] else [])
      ensures |navigations| > |old(navigations)| <==> old(Caption()) == GetStartedLabel
    {
      if step < TotalSteps {
        step := step + 1;
      } else {
        navigations := navigations + [HomeRoute];
      }
    }

    /** `handleBack`: one step back; on the first step, where the button is disabled, nothing. */
    method HandleBack()
      requires Valid()
      modifies this`step
      ensures Valid()
      ensures step == PrevStep(old(step))
      ensures step == old(step) <==> old(BackDisabled())
    {
      if step > 1 {
        step := step - 1;
      }
    }

    /** "Skip for now": straight to the feed, whatever the step. */
    method Skip()
      modifies this`navigations
      ensures navigations == old(navigations) + [HomeRoute]
    {
      navigations := navigations + [HomeRoute];
    }

    /** `toggleSelection(item, list, setList)` on one of the three lists; the other two stay. */
    method ToggleSelection(which: Selection, item: JsString)
      modifies this`skills, this`interests, this`projectTypes
      ensures skills == (if which == Skills then Toggle(old(skills), item) else old(skills))
      ensures interests == (if which == Interests then Toggle(old(interests), item) else old(interests))
      ensures projectTypes == (if which == ProjectTypes then Toggle(old(projectTypes), item) else old(projectTypes))
    {
      match which
      case Skills => skills := Toggle(skills, item);
      case Interests => interests := Toggle(interests, item);
      case ProjectTypes => projectTypes := Toggle(projectTypes, item);
    }
  }
}
