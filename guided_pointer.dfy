/**
 * The guided-pointer walkthrough: a fixed list of steps, each pointing at a
 * target on screen, walked through one at a time while the guide is active,
 * with a record of the steps completed.
 */
module GuidedPointer {
  import opened Wrappers

  /** Which helper character accompanies a target. */
  datatype Character = Bear | Star | Bunny | Owl

  /**
   * What a step points at (its selector or fixed position, pulse colour,
   * delay and display flags are left out).
   */
  datatype PointerTarget = PointerTarget(id: string, message: Option<string>, character: Option<Character>)

  /** A step of the walkthrough (its condition and completion callbacks are left out). */
  datatype PointerStep = PointerStep(id: string, target: PointerTarget)

  /**
   * `findIndex` on the step ids: -1 when no step has the id, otherwise the
   * position of the first step that has it.
   */
  function FindIndex(steps: seq<PointerStep>, stepId: string): (index: int)
    ensures index == -1 <==> forall k | 0 <= k < |steps| :: steps[k].id != stepId
    ensures index != -1 ==>
              && 0 <= index < |steps|
              && steps[index].id == stepId
              && forall k | 0 <= k < index :: steps[k].id != stepId
  {
    if steps == [] then -1
    else if steps[0].id == stepId then 0
    else
      var rest := FindIndex(steps[1..], stepId);
      if rest == -1 then -1 else rest + 1
  }

  /** The progress indicator: the 1-based position of the current step and the number of steps. */
  datatype StepProgress = StepProgress(current: nat, total: nat)

  /** The walkthrough state of one screen. */
  class Guide {
    const steps: seq<PointerStep>
    var currentStepIndex: nat
    var isActive: bool
    var completedSteps: set<string>

    /** The index is on a step whenever there are steps, and 0 when there are none. */
    ghost predicate Valid()
      reads this
    {
      if |steps| > 0 then currentStepIndex < |steps| else currentStepIndex == 0
    }

    /** The hook's initial state: the first step, inactive, nothing completed. */
    constructor (steps: seq<PointerStep>)
      ensures Valid()
      ensures this.steps == steps
      ensures currentStepIndex == 0 && !isActive && completedSteps == {}
    {
      this.steps := steps;
      currentStepIndex := 0;
      isActive := false;
      completedSteps := {};
    }

    /** The step shown: the current one while the guide is active and there is one. */
    function CurrentStep(): (step: Option<PointerStep>)
      reads this
      requires Valid()
      ensures step.Some? <==> isActive && |steps| > 0
      ensures step.Some? ==> step.value == steps[currentStepIndex]
    {
      if isActive && currentStepIndex < |steps| then Some(steps[currentStepIndex]) else None
    }

    /** The target pointed at: the current step's, under the same conditions. */
    function CurrentTarget(): (target: Option<PointerTarget>)
      reads this
      requires Valid()
      ensures target.Some? <==> CurrentStep().Some?
      ensures target.Some? ==> target.value == CurrentStep().value.target
    {
      match CurrentStep()
      case None => None
      case Some(step) => Some(step.target)
    }

    /**
     * The progress counts the current step from one, whether or not the
     * guide is active; with steps it lies between one and the number of
     * steps.
     */
    function Progress(): (progress: StepProgress)
      reads this
      requires Valid()
      ensures progress.total == |steps|
      ensures progress.current == currentStepIndex + 1
      ensures |steps| > 0 ==> 1 <= progress.current <= progress.total
    {
      StepProgress(currentStepIndex + 1, |steps|)
    }

    /** Start: the first step, nothing completed, active. */
    method StartGuide()
      requires Valid()
      modifies this
      ensures Valid()
      ensures currentStepIndex == 0 && completedSteps == {} && isActive
    {
      currentStepIndex := 0;
      completedSteps := {};
      isActive := true;
    }

    /** Stop: inactive, with the position and completions kept. */
    method StopGuide()
      requires Valid()
      modifies this
      ensures Valid()
      ensures !isActive
      ensures currentStepIndex == old(currentStepIndex) && completedSteps == old(completedSteps)
    {
      isActive := false;
    }

    /**
     * Next: the current step (if any) is recorded as completed; then the
     * next step, or, from the last step, the guide deactivates in place.
     */
    method NextStep()
      requires Valid()
      modifies this
      ensures Valid()
      ensures completedSteps ==
                old(completedSteps) + (if old(currentStepIndex) < |steps| then {steps[old(currentStepIndex)].id} else {})
      ensures old(currentStepIndex) + 1 < |steps| ==>
                currentStepIndex == old(currentStepIndex) + 1 && isActive == old(isActive)
      ensures old(currentStepIndex) + 1 >= |steps| ==>
                currentStepIndex == old(currentStepIndex) && !isActive
    {
      if currentStepIndex < |steps| {
        completedSteps := completedSteps + {steps[currentStepIndex].id};
      }
      if currentStepIndex + 1 < |steps| {
        currentStepIndex := currentStepIndex + 1;
      } else {
        isActive := false;
      }
    }

    /**
     * Go to the first step with the given id and activate the guide; an id
     * no step has changes nothing.
     */
    method GoToStep(stepId: string)
      requires Valid()
      modifies this
      ensures Valid()
      ensures (forall k | 0 <= k < |steps| :: steps[k].id != stepId) ==> unchanged(this)
      ensures (exists k | 0 <= k < |steps| :: steps[k].id == stepId) ==>
                && steps[currentStepIndex].id == stepId
                && (forall k | 0 <= k < currentStepIndex :: steps[k].id != stepId)
                && isActive
      ensures completedSteps == old(completedSteps)
    {
      var index := FindIndex(steps, stepId);
      if index != -1 {
        currentStepIndex := index;
        isActive := true;
      }
    }

    /**
     * Mark a step completed by id; when it is the current step, the guide
     * also moves on as Next does.
     */
    method MarkStepComplete(stepId: string)
      requires Valid()
      modifies this
      ensures Valid()
      ensures completedSteps == old(completedSteps) + {stepId}
      ensures !(old(currentStepIndex) < |steps| && steps[old(currentStepIndex)].id == stepId) ==>
                currentStepIndex == old(currentStepIndex) && isActive == old(isActive)
      ensures old(currentStepIndex) < |steps| && steps[old(currentStepIndex)].id == stepId ==>
                && (old(currentStepIndex) + 1 < |steps| ==>
                      currentStepIndex == old(currentStepIndex) + 1 && isActive == old(isActive))
                && (old(currentStepIndex) + 1 >= |steps| ==>
                      currentStepIndex == old(currentStepIndex) && !isActive)
    {
      completedSteps := completedSteps + {stepId};
      if currentStepIndex < |steps| && steps[currentStepIndex].id == stepId {
        NextStep();
      }
    }
  }
}
