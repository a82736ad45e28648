/** The errand wizard's state (mobile-app/src/core/stores/errandFlowStore.ts):
    the selections made so far and a step cursor that moves along the fixed
    `STEP_ORDER`. */
module ErrandFlowStore {
  import opened Wrappers
  import opened Types

  /** `STEP_ORDER`: the wizard's pages, first to last. */
  const StepOrder: seq<ErrandFlowStep> := [
    TaskSelection, LocationConfirmation, TaskDetails, PricePreview,
    RunnerAssignment, FinalConfirmation, ErrandFlowStep.Completed]

  /** `initialState`: at the first step, a draft, nothing selected. */
  const InitialState: ErrandFlowState :=
    ErrandFlowState(TaskSelection, None, None, None, None, None, None, None, None, Draft)

  /** `Array.prototype.indexOf`: the first position of `x`, or -1. */
  function IndexOf(steps: seq<ErrandFlowStep>, x: ErrandFlowStep): (i: int)
    ensures -1 <= i < |steps|
    ensures i == -1 <==> x !in steps
    ensures i >= 0 ==> steps[i] == x && x !in steps[..i]
  {
    if steps == [] then -1
    else if steps[0] == x then 0
    else
      var i := IndexOf(steps[1..], x);
      if i == -1 then -1
      else
        assert steps[..i + 1] == [steps[0]] + steps[1..][..i];
        i + 1
  }

  /** The step `nextStep` moves to: the following entry of `STEP_ORDER`, or
      the same step at the end. */
  function Next(step: ErrandFlowStep): (r: ErrandFlowStep)
    ensures step == ErrandFlowStep.Completed ==> r == step
    ensures step != ErrandFlowStep.Completed ==> Position(r) == Position(step) + 1
  {
    var currentIndex := IndexOf(StepOrder, step);
    StepOrderListsEachStepOnce(step);
    if currentIndex < |StepOrder| - 1 then
      PositionOfEntry(currentIndex + 1);
      StepOrder[currentIndex + 1]
    else step
  }

  /** The step `previousStep` moves to: the preceding entry of `STEP_ORDER`,
      or the same step at the start. */
  function Previous(step: ErrandFlowStep): (r: ErrandFlowStep)
    ensures step == TaskSelection ==> r == step
    ensures step != TaskSelection ==> Position(r) + 1 == Position(step)
  {
    var currentIndex := IndexOf(StepOrder, step);
    StepOrderListsEachStepOnce(step);
    if currentIndex > 0 then
      PositionOfEntry(currentIndex - 1);
      StepOrder[currentIndex - 1]
    else step
  }

  /** Where each step sits in `STEP_ORDER`. */
  function Position(step: ErrandFlowStep): nat {
    match step
    case TaskSelection => 0
    case LocationConfirmation => 1
    case TaskDetails => 2
    case PricePreview => 3
    case RunnerAssignment => 4
    case FinalConfirmation => 5
    case Completed => 6
  }

  lemma PositionOfEntry(i: nat)
    requires i < |StepOrder|
    ensures Position(StepOrder[i]) == i
  {
  }

  /** Every step appears in `STEP_ORDER` exactly once, so `indexOf` finds it
      at its position and nowhere else. */
  lemma StepOrderListsEachStepOnce(step: ErrandFlowStep)
    ensures IndexOf(StepOrder, step) == Position(step)
    ensures forall i :: 0 <= i < |StepOrder| && StepOrder[i] == step ==> i == Position(step)
  {
    assert StepOrder[Position(step)] == step;
    var i := IndexOf(StepOrder, step);
    PositionOfEntry(i);
    forall j | 0 <= j < |StepOrder| && StepOrder[j] == step
      ensures j == Position(step)
    {
      PositionOfEntry(j);
    }
  }

  /** `nextStep` advances exactly one position, except at `completed`, where
      it stays. */
  lemma NextAdvancesOne(step: ErrandFlowStep)
    ensures step == ErrandFlowStep.Completed ==> Next(step) == step
    ensures step != ErrandFlowStep.Completed ==> IndexOf(StepOrder, Next(step)) == IndexOf(StepOrder, step) + 1
  {
    StepOrderListsEachStepOnce(step);
    StepOrderListsEachStepOnce(Next(step));
    if Position(step) < 6 {
      PositionOfEntry(Position(step) + 1);
    }
  }

  /** `previousStep` moves back exactly one position, except at
      `task_selection`, where it stays. */
  lemma PreviousBacksOne(step: ErrandFlowStep)
    ensures step == TaskSelection ==> Previous(step) == step
    ensures step != TaskSelection ==> IndexOf(StepOrder, Previous(step)) == IndexOf(StepOrder, step) - 1
  {
    StepOrderListsEachStepOnce(step);
    StepOrderListsEachStepOnce(Previous(step));
    if Position(step) > 0 {
      PositionOfEntry(Position(step) - 1);
    }
  }

  /** Going forward then back returns to the same step, except from the last
      step, and going back then forward likewise, except from the first. */
  lemma NextPreviousInverse(step: ErrandFlowStep)
    ensures step != ErrandFlowStep.Completed ==> Previous(Next(step)) == step
    ensures step != TaskSelection ==> Next(Previous(step)) == step
  {
    NextAdvancesOne(step);
    PreviousBacksOne(step);
    StepOrderListsEachStepOnce(Next(step));
    StepOrderListsEachStepOnce(Previous(step));
    StepOrderListsEachStepOnce(step);
  }

  class ErrandFlowStore {
    var currentStep: ErrandFlowStep
    var taskType: Option<ErrandTaskType>
    var pickupLocation: Option<ErrandLocation>
    var deliveryLocation: Option<ErrandLocation>
    var taskDetails: Option<ErrandTaskDetails>
    var pricing: Option<ErrandPricing>
    var selectedRunner: Option<SelectedRunner>
    var paymentMethod: Option<PaymentMethod>
    var couponCode: Option<string>
    var status: ErrandStatus

    /** The store's state as one value. */
    function State(): ErrandFlowState
      reads this
    {
      ErrandFlowState(currentStep, taskType, pickupLocation, deliveryLocation, taskDetails,
                      pricing, selectedRunner, paymentMethod, couponCode, status)
    }

    constructor ()
      ensures State() == InitialState
    {
      currentStep, taskType, pickupLocation, deliveryLocation := TaskSelection, None, None, None;
      taskDetails, pricing, selectedRunner, paymentMethod := None, None, None, None;
      couponCode, status := None, Draft;
    }

    method SetTaskType(taskType: ErrandTaskType)
      modifies this
      ensures State() == old(State()).(taskType := Some(taskType))
    {
      this.taskType := Some(taskType);
    }

    method SetPickupLocation(location: ErrandLocation)
      modifies this
      ensures State() == old(State()).(pickupLocation := Some(location))
    {
      pickupLocation := Some(location);
    }

    method SetDeliveryLocation(location: ErrandLocation)
      modifies this
      ensures State() == old(State()).(deliveryLocation := Some(location))
    {
      deliveryLocation := Some(location);
    }

    method SetTaskDetails(details: ErrandTaskDetails)
      modifies this
      ensures State() == old(State()).(taskDetails := Some(details))
    {
      taskDetails := Some(details);
    }

    method SetPricing(pricing: ErrandPricing)
      modifies this
      ensures State() == old(State()).(pricing := Some(pricing))
    {
      this.pricing := Some(pricing);
    }

    method SetSelectedRunner(runner: SelectedRunner)
      modifies this
      ensures State() == old(State()).(selectedRunner := Some(runner))
    {
      selectedRunner := Some(runner);
    }

    method SetPaymentMethod(method_: PaymentMethod)
      modifies this
      ensures State() == old(State()).(paymentMethod := Some(method_))
    {
      paymentMethod := Some(method_);
    }

    method SetCouponCode(code: string)
      modifies this
      ensures State() == old(State()).(couponCode := Some(code))
    {
      couponCode := Some(code);
    }

    method SetCurrentStep(step: ErrandFlowStep)
      modifies this
      ensures State() == old(State()).(currentStep := step)
    {
      currentStep := step;
    }

    method SetStatus(status: ErrandStatus)
      modifies this
      ensures State() == old(State()).(status := status)
    {
      this.status := status;
    }

    /** `nextStep`: moves the cursor one step forward and changes nothing else. */
    method NextStep()
      modifies this
      ensures State() == old(State()).(currentStep := Next(old(currentStep)))
    {
      var currentIndex := IndexOf(StepOrder, currentStep);
      if currentIndex < |StepOrder| - 1 {
        currentStep := StepOrder[currentIndex + 1];
      }
    }

    /** `previousStep`: moves the cursor one step back and changes nothing else. */
    method PreviousStep()
      modifies this
      ensures State() == old(State()).(currentStep := Previous(old(currentStep)))
    {
      var currentIndex := IndexOf(StepOrder, currentStep);
      if currentIndex > 0 {
        currentStep := StepOrder[currentIndex - 1];
      }
    }

    /** `resetFlow`: back to `initialState` from any state. */
    method ResetFlow()
      modifies this
      ensures State() == InitialState
    {
      currentStep, taskType, pickupLocation, deliveryLocation := TaskSelection, None, None, None;
      taskDetails, pricing, selectedRunner, paymentMethod := None, None, None, None;
      couponCode, status := None, Draft;
    }
  }
}
