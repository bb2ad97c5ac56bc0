/** The four-step onboarding wizard. */
module Onboarding {

  const StepCount: int := 4

  class OnboardingWizard {
    var step: int
    /** Whether `completeOnboarding` has been called. */
    var completed: bool
    /** Whether the wizard has navigated to the home page. */
    var navigatedHome: bool

    ghost predicate Valid()
      reads this
    {
      1 <= step <= StepCount
    }

    constructor ()
      ensures Valid() && step == 1 && !completed && !navigatedHome
    {
      step := 1;
      completed := false;
      navigatedHome := false;
    }

    /** `handleNext`: one step forward, or, on the last step, finish and go home. */
    method HandleNext()
      requires Valid()
      modifies this
      ensures Valid()
      ensures old(step) < StepCount ==>
        step == old(step) + 1 && completed == old(completed) && navigatedHome == old(navigatedHome)
      ensures old(step) == StepCount ==> step == old(step) && completed && navigatedHome
    {
      if step < StepCount {
        step := step + 1;
      } else {
        completed := true;
        navigatedHome := true;
      }
    }

    /** `handleBack`: one step back, except on the first step. */
    method HandleBack()
      requires Valid()
      modifies this`step
      ensures Valid()
      ensures step == if old(step) > 1 then old(step) - 1 else old(step)
    {
      if step > 1 {
        step := step - 1;
      }
    }
  }

  /** How the progress indicator draws one step. */
  datatype StepStatus = Active | Completed | Upcoming

  /** The indicator item for the step at `index` (0-based): `isActive` first, then `isCompleted`. */
  function StepStatusAt(index: nat, step: int): StepStatus
  {
    if index + 1 == step then Active
    else if index + 1 < step then Completed
    else Upcoming
  }

  function StepIndicator(step: int): (items: seq<StepStatus>)
    ensures |items| == StepCount
    ensures forall i :: 0 <= i < StepCount ==> (items[i] == Active <==> i + 1 == step)
    ensures forall i :: 0 <= i < StepCount ==> (items[i] == Completed <==> i + 1 < step)
    ensures forall i :: 0 <= i < StepCount ==> (items[i] == Upcoming <==> i + 1 > step)
  {
    seq(StepCount, i requires 0 <= i < StepCount => StepStatusAt(i, step))
  }

  function Count(items: seq<StepStatus>, s: StepStatus): nat
  {
    if |items| == 0 then 0 else Count(items[..|items| - 1], s) + (if items[|items| - 1] == s then 1 else 0)
  }

  lemma {:induction false} CountPrefix(step: int, n: nat)
    requires 1 <= step <= StepCount && n <= StepCount
    ensures Count(StepIndicator(step)[..n], Active) == (if step <= n then 1 else 0)
    ensures Count(StepIndicator(step)[..n], Completed) == (if step - 1 <= n then step - 1 else n)
  {
    if n > 0 {
      var items := StepIndicator(step);
      assert items[..n][..n - 1] == items[..n - 1];
      CountPrefix(step, n - 1);
    }
  }

  /**
   * For any reachable step exactly one item is active, it is the current
   * step, and the completed items are exactly the ones before it.
   */
  lemma ExactlyOneActive(step: int)
    requires 1 <= step <= StepCount
    ensures Count(StepIndicator(step), Active) == 1
    ensures Count(StepIndicator(step), Completed) == step - 1
    ensures StepIndicator(step)[step - 1] == Active
    ensures forall i :: 0 <= i < StepCount ==> (StepIndicator(step)[i] == Completed <==> i < step - 1)
  {
    CountPrefix(step, StepCount);
    assert StepIndicator(step)[..StepCount] == StepIndicator(step);
  }
}
