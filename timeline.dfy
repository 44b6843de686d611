/**
 * The claim timeline drawer (components/Timeline.tsx): six fixed events whose
 * status is derived from the wizard step.
 */
module Timeline {

  datatype EventStatus = Complete | Active | Pending

  datatype TimelineEvent = TimelineEvent(
    id: string,
    time: string,
    title: string,
    detail: string,
    status: EventStatus)

  /** The six events, with their status at `currentStep`. */
  function Events(currentStep: int): (r: seq<TimelineEvent>)
    ensures |r| == 6
    ensures r[0].title == "Claim Filed" && r[5].title == "Payment Processing"
  {
    [
      TimelineEvent("1", "10:24 AM", "Claim Filed", "Sarah Mitchell via Mobile App",
        if currentStep >= 1 then Complete else Pending),
      TimelineEvent("2", "10:24 AM", "AI Analysis Complete", "4 images, 2 documents processed",
        if currentStep >= 2 then Complete else Pending),
      TimelineEvent("3", "10:25 AM", "Auto-Triage Complete", "Fraud: 45 | Complexity: Medium",
        if currentStep >= 3 then Complete else if currentStep == 2 then Active else Pending),
      TimelineEvent("4", "10:30 AM", "Investigation Active", "Invoice analyzed, Policy matched",
        if currentStep >= 4 then Complete else if currentStep == 3 then Active else Pending),
      TimelineEvent("5", "Pending", "Settlement Approval", "Awaiting Authorization",
        if currentStep == 4 then Active else Pending),
      TimelineEvent("6", "Pending", "Payment Processing", "", Pending)
    ]
  }

  /** At a wizard step, exactly the first currentStep events are complete. */
  lemma CompletePrefix(currentStep: int)
    requires 1 <= currentStep <= 4
    ensures forall i :: 0 <= i < 6 ==> (Events(currentStep)[i].status == Complete <==> i < currentStep)
  {
  }

  /**
   * At most one event is active, and an active event is the one right after the
   * last complete event; at step 1 none is.
   */
  lemma ActiveFollowsComplete(currentStep: int)
    requires 1 <= currentStep <= 4
    ensures forall i, j ::
              (0 <= i < 6 && 0 <= j < 6 && Events(currentStep)[i].status == Active
               && Events(currentStep)[j].status == Active) ==> i == j
    ensures forall i :: 0 <= i < 6 && Events(currentStep)[i].status == Active ==>
              i == currentStep && Events(currentStep)[i - 1].status == Complete
    ensures currentStep == 1 ==> forall i :: 0 <= i < 6 ==> Events(currentStep)[i].status != Active
  {
  }

  /** Settlement approval is never shown complete and payment is always pending. */
  lemma LastEventsNeverComplete(currentStep: int)
    ensures Events(currentStep)[4].status != Complete
    ensures Events(currentStep)[5].status == Pending
  {
  }

  /** Moving forward never demotes a complete event. */
  lemma CompleteStaysComplete(before: int, after: int, i: int)
    requires before <= after && 0 <= i < 6
    requires Events(before)[i].status == Complete
    ensures Events(after)[i].status == Complete
  {
  }
}
