/** The multi-step form of frontend/src/components/ui/Stepper.tsx: the
    `currentStep` and `direction` state cells, the handlers that move
    between steps, the callbacks `updateStep` fires, and the status of each
    step indicator and connector. */
module Stepper {

  /** A callback the component fires: `onStepChange(step)` or
      `onFinalStepCompleted()`. */
  datatype Event = StepChanged(step: int) | FinalStepCompleted

  /** How an indicator is drawn. */
  datatype Status = Active | Inactive | Complete

  /** `StepIndicator`'s status for step `step` while on `current`. */
  function IndicatorStatus(current: int, step: int): Status {
    if current == step then Active else if current < step then Inactive else Complete
  }

  /** The connector drawn after step `step` is filled. */
  predicate ConnectorComplete(current: int, step: int) {
    current > step
  }

  /** Read left to right, the indicators run complete ... complete, then at
      most one active one (on the current step), then inactive; the
      connector after a step is filled exactly when that step shows as complete. */
  lemma StatusesInOrder(current: int, a: int, b: int)
    requires a < b
    ensures IndicatorStatus(current, b) == Complete ==> IndicatorStatus(current, a) == Complete
    ensures IndicatorStatus(current, a) == Inactive ==> IndicatorStatus(current, b) == Inactive
    ensures IndicatorStatus(current, a) == Active ==> IndicatorStatus(current, b) == Inactive
    ensures ConnectorComplete(current, a) <==> IndicatorStatus(current, a) == Complete
  {
  }

  /** Exactly the current step is active, every earlier step is complete and
      every later step is inactive. */
  lemma StatusPartition(current: int, step: int)
    ensures IndicatorStatus(current, step) == Active <==> step == current
    ensures IndicatorStatus(current, step) == Complete <==> step < current
    ensures IndicatorStatus(current, step) == Inactive <==> step > current
  {
  }

  class Stepper {
    const totalSteps: nat
    const disableStepIndicators: bool
    var currentStep: int
    var direction: int
    /** The callbacks fired so far, oldest first. */
    var events: seq<Event>

    /** The step lies among the form's steps. */
    predicate OnAStep()
      reads this
    {
      1 <= currentStep <= totalSteps
    }

    /** `isCompleted`. */
    predicate IsCompleted()
      reads this
    {
      currentStep > totalSteps
    }

    /** `isLastStep`. */
    predicate IsLastStep()
      reads this
    {
      currentStep == totalSteps
    }

    constructor (steps: nat, initialStep: int, disableIndicators: bool)
      ensures totalSteps == steps && disableStepIndicators == disableIndicators
      ensures currentStep == initialStep && direction == 0 && events == []
    {
      totalSteps := steps;
      disableStepIndicators := disableIndicators;
      currentStep := initialStep;
      direction := 0;
      events := [];
    }

    /** `updateStep`: store the step and fire exactly one callback, the final
        one when the step is past the last. */
    method UpdateStep(newStep: int)
      modifies this`currentStep, this`events
      ensures currentStep == newStep
      ensures events == old(events) + [if newStep > totalSteps then FinalStepCompleted else StepChanged(newStep)]
    {
      currentStep := newStep;
      if newStep > totalSteps {
        events := events + [FinalStepCompleted];
      } else {
        events := events + [StepChanged(newStep)];
      }
    }

    /** `handleBack`: one step back, only from step 2 on. */
    method HandleBack()
      modifies this`currentStep, this`direction, this`events
      ensures old(currentStep) > 1 ==>
        currentStep == old(currentStep) - 1 && direction == -1
        && events == old(events) + [if currentStep > totalSteps then FinalStepCompleted else StepChanged(currentStep)]
      ensures old(currentStep) <= 1 ==> currentStep == old(currentStep) && direction == old(direction) && events == old(events)
      ensures old(OnAStep()) ==> OnAStep()
    {
      if currentStep > 1 {
        direction := -1;
        UpdateStep(currentStep - 1);
      }
    }

    /** `handleNext`: one step forward unless on the last step. */
    method HandleNext()
      modifies this`currentStep, this`direction, this`events
      ensures old(currentStep) != totalSteps ==>
        currentStep == old(currentStep) + 1 && direction == 1
        && events == old(events) + [if currentStep > totalSteps then FinalStepCompleted else StepChanged(currentStep)]
      ensures old(currentStep) == totalSteps ==> currentStep == old(currentStep) && direction == old(direction) && events == old(events)
      ensures old(OnAStep()) ==> OnAStep()
    {
      if !IsLastStep() {
        direction := 1;
        UpdateStep(currentStep + 1);
      }
    }

    /** `handleComplete`: jump past the last step, which fires the final callback. */
    method HandleComplete()
      modifies this`currentStep, this`direction, this`events
      ensures currentStep == totalSteps + 1 && direction == 1 && IsCompleted()
      ensures events == old(events) + [FinalStepCompleted]
    {
      direction := 1;
      UpdateStep(totalSteps + 1);
    }

    /** A click on the indicator of step `step` (one of 1..totalSteps): the
        indicator's guard ignores the current step and disabled indicators;
        otherwise the stepper jumps there, direction +1 exactly when moving
        forward. */
    method ClickIndicator(step: int)
      requires 1 <= step <= totalSteps
      modifies this`currentStep, this`direction, this`events
      ensures (step == old(currentStep) || disableStepIndicators) ==>
        currentStep == old(currentStep) && direction == old(direction) && events == old(events)
      ensures (step != old(currentStep) && !disableStepIndicators) ==>
        currentStep == step && direction == (if step > old(currentStep) then 1 else -1)
        && events == old(events) + [StepChanged(step)]
      ensures OnAStep() || currentStep == old(currentStep)
    {
      if step != currentStep && !disableStepIndicators {
        direction := if step > currentStep then 1 else -1;
        UpdateStep(step);
      }
    }
  }
}
