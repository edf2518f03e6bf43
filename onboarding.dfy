/**
 * The three-step onboarding wizard: a welcome step, a step asking for the
 * founder's name and a step asking for a first goal. The step counter only
 * moves forward, the Next button is disabled while the current step's field
 * is blank, and the last press hands both answers, trimmed, to the caller.
 */
module Onboarding {
  import opened Wrappers
  import opened Text

  /** The number of steps, and the index of the last one. */
  const StepCount: int := 3
  const LastStep: int := StepCount - 1

  /** What `onComplete` receives. */
  datatype Completion = Completion(displayName: string, firstGoal: string)

  /** The three looks of a progress dot. */
  datatype Dot = Current | Done | Pending

  /**
   * `canProceed`: the welcome step can always be left; the name and goal
   * steps need a field that is not blank once trimmed. A step outside the
   * three lets the button through.
   */
  function CanProceed(step: int, displayName: string, firstGoal: string): bool {
    if step == 0 then true
    else if step == 1 then |Trim(displayName)| > 0
    else if step == 2 then |Trim(firstGoal)| > 0
    else true
  }

  /**
   * The welcome step (and any step outside the three) is never blocked; on
   * the field steps the button is enabled exactly when that step's field
   * holds a non-whitespace character, whatever the other field holds.
   */
  lemma CanProceedMeaning(step: int, displayName: string, firstGoal: string)
    ensures step == 0 || step < 0 || step > LastStep ==> CanProceed(step, displayName, firstGoal)
    ensures CanProceed(1, displayName, firstGoal) <==> exists i :: 0 <= i < |displayName| && !IsSpace(displayName[i])
    ensures CanProceed(2, displayName, firstGoal) <==> exists i :: 0 <= i < |firstGoal| && !IsSpace(firstGoal[i])
  {
    TrimSpec(displayName);
    TrimSpec(firstGoal);
  }

  /** Dot `i` is the current step's, a finished step's, or one still ahead. */
  function DotState(i: int, step: int): (d: Dot)
    ensures d == Current <==> i == step
    ensures d == Done <==> i < step
    ensures d == Pending <==> i > step
  {
    if i == step then Current else if i < step then Done else Pending
  }

  /** The row of dots, one per step. */
  function Dots(step: int): (ds: seq<Dot>)
    ensures |ds| == StepCount
  {
    seq(StepCount, i => DotState(i, step))
  }

  /** On a step of the wizard the row reads: finished steps, the current one, then the steps ahead. */
  lemma DotsShowProgress(step: int)
    requires 0 <= step <= LastStep
    ensures Dots(step) == seq(step, _ => Done) + [Current] + seq(LastStep - step, _ => Pending)
  {
    var row := seq(step, _ => Done) + [Current] + seq(LastStep - step, _ => Pending);
    forall i | 0 <= i < StepCount ensures Dots(step)[i] == row[i] {
      if i < step {
        assert row[i] == Done;
      } else if i == step {
        assert row[i] == Current;
      } else {
        assert row[i] == seq(LastStep - step, _ => Pending)[i - step - 1];
      }
    }
  }

  /** The button reads "Let's Go!" exactly on the last step, and "Continue" before it. */
  function ButtonLabel(step: int): (caption: string)
    ensures caption == "Let's Go!" <==> step == LastStep
    ensures caption == "Continue" <==> step != LastStep
  {
    if step == LastStep then "Let's Go!" else "Continue"
  }

  /** The dialog's state. */
  class Wizard {
    var currentStep: int
    var displayName: string
    var firstGoal: string

    /** The step is one of the three. */
    ghost predicate InRange()
      reads this
    {
      0 <= currentStep <= LastStep
    }

    /**
     * What the button keeps true: the step is in range, and the last step
     * is reached only with a name that is not blank.
     */
    ghost predicate Valid()
      reads this
    {
      InRange() && (currentStep == LastStep ==> |Trim(displayName)| > 0)
    }

    /** The dialog opens on the welcome step with both fields empty. */
    constructor ()
      ensures currentStep == 0 && displayName == "" && firstGoal == ""
      ensures Valid()
    {
      currentStep := 0;
      displayName := "";
      firstGoal := "";
    }

    /** Typing in the name field, which is rendered only on the name step. */
    method EditName(value: string)
      requires currentStep == 1
      modifies this
      ensures displayName == value
      ensures currentStep == old(currentStep) && firstGoal == old(firstGoal)
      ensures old(Valid()) ==> Valid()
    {
      displayName := value;
    }

    /** Typing in the goal field, which is rendered only on the goal step. */
    method EditGoal(value: string)
      requires currentStep == LastStep
      modifies this
      ensures firstGoal == value
      ensures currentStep == old(currentStep) && displayName == old(displayName)
      ensures old(Valid()) ==> Valid()
    {
      firstGoal := value;
    }

    /**
     * `handleNext`: before the last step it moves one step forward and
     * completes nothing; on the last step it completes with both fields
     * trimmed and stays where it is. The fields are never changed.
     */
    method HandleNext() returns (completion: Option<Completion>)
      requires InRange()
      modifies this
      ensures InRange()
      ensures displayName == old(displayName) && firstGoal == old(firstGoal)
      ensures old(currentStep) < LastStep ==> currentStep == old(currentStep) + 1 && completion.None?
      ensures old(currentStep) == LastStep ==>
                currentStep == old(currentStep)
                && completion == Some(Completion(Trim(displayName), Trim(firstGoal)))
    {
      if currentStep < StepCount - 1 {
        currentStep := currentStep + 1;
        completion := None;
      } else {
        completion := Some(Completion(Trim(displayName), Trim(firstGoal)));
      }
    }

    /**
     * A click on the Next button: a disabled button does nothing, an
     * enabled one runs `handleNext`. Through the button a completion
     * always carries a name and a goal that are non-empty and have no
     * whitespace at either end.
     */
    method PressNext() returns (completion: Option<Completion>)
      requires Valid()
      modifies this
      ensures Valid()
      ensures displayName == old(displayName) && firstGoal == old(firstGoal)
      ensures !CanProceed(old(currentStep), displayName, firstGoal) ==>
                currentStep == old(currentStep) && completion.None?
      ensures CanProceed(old(currentStep), displayName, firstGoal) && old(currentStep) < LastStep ==>
                currentStep == old(currentStep) + 1 && completion.None?
      ensures CanProceed(old(currentStep), displayName, firstGoal) && old(currentStep) == LastStep ==>
                currentStep == old(currentStep)
                && completion == Some(Completion(Trim(displayName), Trim(firstGoal)))
      ensures completion.Some? ==> CompleteAnswer(completion.value.displayName)
                                   && CompleteAnswer(completion.value.firstGoal)
    {
      if !CanProceed(currentStep, displayName, firstGoal) {
        return None;
      }
      completion := HandleNext();
      if completion.Some? {
        TrimSpec(displayName);
        TrimSpec(firstGoal);
      }
    }
  }

  /** An answer worth keeping: not empty, and no whitespace at either end. */
  predicate CompleteAnswer(s: string) {
    |s| > 0 && !IsSpace(s[0]) && !IsSpace(s[|s| - 1])
  }
}
