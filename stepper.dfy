/**
 * The progress bar above the wizard (components/Stepper.tsx): four named steps,
 * each drawn as completed, current or upcoming, with a connector after every
 * step but the last that is filled once the step before it is completed.
 */
module Stepper {

  datatype StepInfo = StepInfo(id: int, name: string)

  datatype StepState = Completed | Current | Upcoming

  const Steps: seq<StepInfo> := [
    StepInfo(1, "FNOL Intake"),
    StepInfo(2, "AI Triage"),
    StepInfo(3, "Pre-Investigation"),
    StepInfo(4, "Settlement")
  ]

  /** The steps are numbered 1, 2, 3, 4 in the order they are drawn. */
  lemma StepIdsInOrder()
    ensures |Steps| == 4
    ensures forall i :: 0 <= i < |Steps| ==> Steps[i].id == i + 1
  {
  }

  /** How the step with `id` is drawn when the wizard is at `currentStep`. */
  function Classify(id: int, currentStep: int): StepState
  {
    if id < currentStep then Completed
    else if id == currentStep then Current
    else Upcoming
  }

  /** The state of every step, in drawing order. */
  function Render(currentStep: int): (r: seq<StepState>)
    ensures |r| == |Steps|
    ensures forall i :: 0 <= i < |r| ==>
              (r[i] == Completed <==> Steps[i].id < currentStep)
              && (r[i] == Current <==> Steps[i].id == currentStep)
              && (r[i] == Upcoming <==> Steps[i].id > currentStep)
  {
    seq(|Steps|, i requires 0 <= i < |Steps| => Classify(Steps[i].id, currentStep))
  }

  /** At a step of the wizard exactly one step is current, the one at position currentStep - 1. */
  lemma ExactlyOneCurrent(currentStep: int)
    requires 1 <= currentStep <= 4
    ensures forall i :: 0 <= i < 4 ==> (Render(currentStep)[i] == Current <==> i == currentStep - 1)
    ensures multiset(Render(currentStep))[Current] == 1
  {
    var r := Render(currentStep);
    StepIdsInOrder();
    assert r == r[..currentStep - 1] + [Current] + r[currentStep..];
    assert Current !in r[..currentStep - 1];
    assert Current !in r[currentStep..];
  }

  /** The completed steps are the first currentStep - 1, and the rest are not completed. */
  lemma CompletedPrefix(currentStep: int)
    requires 1 <= currentStep <= 4
    ensures forall i :: 0 <= i < 4 ==> (Render(currentStep)[i] == Completed <==> i < currentStep - 1)
  {
    StepIdsInOrder();
  }

  /** Whether the connector after step `i` is filled; there are |Steps| - 1 connectors. */
  function Connectors(currentStep: int): (r: seq<bool>)
    ensures |r| == |Steps| - 1
    ensures forall i :: 0 <= i < |r| ==> (r[i] <==> Render(currentStep)[i] == Completed)
  {
    seq(|Steps| - 1, i requires 0 <= i < |Steps| - 1 => Steps[i].id < currentStep)
  }

  /** Moving forward never takes a step out of the completed state. */
  lemma CompletedStaysCompleted(before: int, after: int, i: int)
    requires before <= after && 0 <= i < |Steps|
    requires Render(before)[i] == Completed
    ensures Render(after)[i] == Completed
  {
  }
}
