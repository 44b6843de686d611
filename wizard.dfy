/**
 * The application shell (App.tsx): the four-step claim wizard, the data each
 * step hands to the next, the toast queue and the quick-action messages.
 *
 * `App` is the component's state with its handlers as methods. `AppState` and
 * `Apply` describe the same state as a value, so that whole sequences of user
 * events can be reasoned about: which handler a rendered screen can reach, and
 * what the data slots hold at each step.
 */
module Wizard {
  import opened Basics
  import opened Responses

  datatype ToastKind = Success | Error | Info

  datatype Toast = Toast(id: string, message: string, kind: ToastKind)

  // ---------------------------------------------------------------------------
  // The toast queue

  /** `[...prev, toast]`: the new toast goes last, the earlier ones stay in order. */
  function AddToast(toasts: seq<Toast>, toast: Toast): (r: seq<Toast>)
    ensures |r| == |toasts| + 1
    ensures r[..|toasts|] == toasts && r[|toasts|] == toast
  {
    toasts + [toast]
  }

  /** `prev.filter(t => t.id !== id)`. */
  function RemoveToast(toasts: seq<Toast>, id: string): (r: seq<Toast>)
    ensures forall i :: 0 <= i < |r| ==> r[i].id != id && r[i] in toasts
    ensures forall i :: 0 <= i < |toasts| && toasts[i].id != id ==> toasts[i] in r
    ensures (forall i :: 0 <= i < |toasts| ==> toasts[i].id != id) ==> r == toasts
  {
    var keep := (t: Toast) => t.id != id;
    FilterMembers(toasts, keep);
    Filter(toasts, keep)
  }

  /** Removing a toast from a concatenation removes it from each part, in order. */
  lemma {:induction false} RemoveToastAppend(a: seq<Toast>, b: seq<Toast>, id: string)
    ensures RemoveToast(a + b, id) == RemoveToast(a, id) + RemoveToast(b, id)
  {
    FilterAppend(a, b, (t: Toast) => t.id != id);
  }

  /** Closing the toast just added, when its id is new, restores the queue. */
  lemma {:induction false} RemoveUndoesAdd(toasts: seq<Toast>, toast: Toast)
    requires forall i :: 0 <= i < |toasts| ==> toasts[i].id != toast.id
    ensures RemoveToast(AddToast(toasts, toast), toast.id) == toasts
  {
    RemoveToastAppend(toasts, [toast], toast.id);
  }

  // ---------------------------------------------------------------------------
  // Quick-action messages (handleAction)

  /** The message table of handleAction. */
  const ActionMessages: map<string, string> := map[
    "Request Docs" := "\U{1F4C4} Document request sent to claimant.",
    "Call Claimant" := "\U{1F4DE} Dialing claimant...",
    "Reassign" := "\U{1F504} Reassignment workflow initiated.",
    "Order Appraisal" := "\U{1F697} Appraisal ordered successfully.",
    "Flag SIU" := "\U{26A0}\U{FE0F} Claim flagged for Special Investigation Unit.",
    "Add Note" := "\U{1F4DD} Note added to claim file."
  ]

  /**
   * The toast handleAction raises for an action name; `id` is the clock reading
   * `Date.now().toString()`. A name missing from the table (or mapped to an empty,
   * falsy message) gets the generic text.
   */
  function ActionToast(name: string, id: string): (t: Toast)
    ensures t.id == id
    ensures t.kind == Info <==> name == "Flag SIU"
    ensures t.kind == Info || t.kind == Success
    ensures name in ActionMessages ==> t.message == ActionMessages[name]
    ensures name !in ActionMessages ==> t.message == "Action: " + name + " triggered"
  {
    var message :=
      if name in ActionMessages && ActionMessages[name] != "" then ActionMessages[name]
      else "Action: " + name + " triggered";
    Toast(id, message, if name == "Flag SIU" then Info else Success)
  }

  /** The labels the quick-action panel passes to handleAction, in panel order. */
  const QuickActionLabels: seq<string> :=
    ["Request Docs", "Call Claimant", "Appraisal", "Reassign", "Flag SIU", "Add Note"]

  /**
   * Every quick action but one finds its message in the table; the panel's
   * "Appraisal" label is not the table's "Order Appraisal" key, so that button
   * raises the generic "Action: Appraisal triggered" toast.
   */
  lemma QuickActionMessages(stamp: string)
    ensures forall i :: 0 <= i < |QuickActionLabels| && i != 2 ==>
              QuickActionLabels[i] in ActionMessages
              && ActionToast(QuickActionLabels[i], stamp).message == ActionMessages[QuickActionLabels[i]]
    ensures "Appraisal" !in ActionMessages
    ensures ActionToast("Appraisal", stamp).message == "Action: Appraisal triggered"
  {
    assert "Appraisal" != "Order Appraisal";
    assert "Action: " + "Appraisal" + " triggered" == "Action: Appraisal triggered";
  }

  // ---------------------------------------------------------------------------
  // The header persona (getCurrentPersona)

  datatype Persona = Persona(name: string, role: string, action: string)

  /** Who the header shows for a step; colours are left out. */
  function CurrentPersona(step: int, triage: Option<TriageResponse>): (p: Persona)
    ensures step == 1 ==> p == Persona("Sarah Mitchell", "Policyholder", "Filing new claim")
    ensures step == 2 ==> p == Persona("Michael Chen", "Claims Manager", "Reviewing & Assigning")
    ensures step != 1 && step != 2 ==> p.role == "Senior Adjuster"
    ensures step == 3 ==> p.action == "Investigation"
    ensures step == 4 ==> p.action == "Settlement"
    ensures step < 1 || step > 4 ==> p == Persona("Alex Morgan", "Senior Adjuster", "View Mode")
    ensures (step == 3 || step == 4) ==>
              p.name == (if triage.Some? && triage.value.recommendedAdjuster.name != ""
                         then triage.value.recommendedAdjuster.name else "Alex Morgan")
  {
    if step == 1 then Persona("Sarah Mitchell", "Policyholder", "Filing new claim")
    else if step == 2 then Persona("Michael Chen", "Claims Manager", "Reviewing & Assigning")
    else if step == 3 || step == 4 then
      var name := if triage.Some? && triage.value.recommendedAdjuster.name != ""
                  then triage.value.recommendedAdjuster.name else "Alex Morgan";
      Persona(name, "Senior Adjuster", if step == 3 then "Investigation" else "Settlement")
    else Persona("Alex Morgan", "Senior Adjuster", "View Mode")
  }

  // ---------------------------------------------------------------------------
  // The shell state as a value, and the events that change it

  datatype AppState = AppState(
    currentStep: int,
    fnolData: Option<FnolResponse>,
    triageData: Option<TriageResponse>,
    invoiceAnalysis: Option<InvoiceAnalysisResponse>,
    toasts: seq<Toast>)

  /** The state on first render. */
  const Initial := AppState(1, None, None, None, [])

  /** What the user (or a child screen) can do to the shell. */
  datatype Event =
    | FnolCompleted(fnol: FnolResponse)          // Step1_FNOL's onComplete
    | TriageCompleted(triage: TriageResponse)    // Step2_Triage's onComplete
    | InvestigationCompleted                     // "Continue to Settlement"
    | InvoiceAnalyzed(analysis: InvoiceAnalysisResponse) // Step3's onInvoiceAnalyzed
    | Restarted                                  // the logo, or "Start New Claim"
    | ActionRequested(name: string, stamp: string) // QuickActions' onAction
    | ToastClosed(id: string)                     // a toast's onClose

  /** The handler each event runs; none of them looks at the current step. */
  function Apply(s: AppState, e: Event): AppState
  {
    match e
    case FnolCompleted(d) => s.(fnolData := Some(d), currentStep := 2)
    case TriageCompleted(d) => s.(triageData := Some(d), currentStep := 3)
    case InvestigationCompleted => s.(currentStep := 4)
    case InvoiceAnalyzed(a) => s.(invoiceAnalysis := Some(a))
    case Restarted => s.(currentStep := 1, fnolData := None, triageData := None, invoiceAnalysis := None)
    case ActionRequested(name, stamp) => s.(toasts := AddToast(s.toasts, ActionToast(name, stamp)))
    case ToastClosed(id) => s.(toasts := RemoveToast(s.toasts, id))
  }

  /**
   * Whether the rendered page offers the event: each step screen is mounted only
   * at its own step (step 2 also needs the intake record), the logo, toasts and
   * quick actions are always there.
   */
  predicate Enabled(s: AppState, e: Event)
  {
    match e
    case FnolCompleted(_) => s.currentStep == 1
    case TriageCompleted(_) => s.currentStep == 2 && s.fnolData.Some?
    case InvestigationCompleted => s.currentStep == 3
    case InvoiceAnalyzed(_) => s.currentStep == 3
    case Restarted => true
    case ActionRequested(_, _) => true
    case ToastClosed(_) => true
  }

  /** The steps move 1 -> 2 -> 3 -> 4 one at a time; only restart goes back, to 1. */
  lemma StepMoves(s: AppState, e: Event)
    requires Enabled(s, e)
    ensures e.Restarted? ==> Apply(s, e).currentStep == 1
    ensures e.FnolCompleted? || e.TriageCompleted? || e.InvestigationCompleted? ==>
              Apply(s, e).currentStep == s.currentStep + 1
    ensures e.InvoiceAnalyzed? || e.ActionRequested? || e.ToastClosed? ==>
              Apply(s, e).currentStep == s.currentStep
  {
  }

  /** Restart clears the step and the three data slots, keeps the toasts, and is idempotent. */
  lemma RestartIdempotent(s: AppState)
    ensures Apply(s, Restarted) == Initial.(toasts := s.toasts)
    ensures Apply(Apply(s, Restarted), Restarted) == Apply(s, Restarted)
  {
  }

  /**
   * The data slots hold exactly what the completed steps produced: the intake
   * record from step 2 on, the triage record from step 3 on, and no invoice
   * analysis before step 3.
   */
  predicate Consistent(s: AppState)
  {
    && 1 <= s.currentStep <= 4
    && (s.fnolData.Some? <==> s.currentStep >= 2)
    && (s.triageData.Some? <==> s.currentStep >= 3)
    && (s.currentStep <= 2 ==> s.invoiceAnalysis.None?)
  }

  lemma ApplyPreservesConsistent(s: AppState, e: Event)
    requires Consistent(s) && Enabled(s, e)
    ensures Consistent(Apply(s, e))
  {
  }

  /** The state after a sequence of events. */
  function Run(s: AppState, es: seq<Event>): AppState
    decreases |es|
  {
    if es == [] then s else Run(Apply(s, es[0]), es[1..])
  }

  /** Every event of the sequence is offered by the page it happens on. */
  predicate Offered(s: AppState, es: seq<Event>)
    decreases |es|
  {
    es == [] || (Enabled(s, es[0]) && Offered(Apply(s, es[0]), es[1..]))
  }

  /** Any sequence of offered events keeps the shell consistent. */
  lemma {:induction false} RunPreservesConsistent(s: AppState, es: seq<Event>)
    requires Consistent(s) && Offered(s, es)
    ensures Consistent(Run(s, es))
    decreases |es|
  {
    if es != [] {
      ApplyPreservesConsistent(s, es[0]);
      RunPreservesConsistent(Apply(s, es[0]), es[1..]);
    }
  }

  /** Whatever the user does from the first render, the step stays in 1..4 and the slots match it. */
  lemma ReachableStatesConsistent(es: seq<Event>)
    requires Offered(Initial, es)
    ensures Consistent(Run(Initial, es))
    ensures 1 <= Run(Initial, es).currentStep <= 4
  {
    RunPreservesConsistent(Initial, es);
  }

  // ---------------------------------------------------------------------------
  // The component

  class App {
    var currentStep: int
    var fnolData: Option<FnolResponse>
    var triageData: Option<TriageResponse>
    var invoiceAnalysis: Option<InvoiceAnalysisResponse>
    var toasts: seq<Toast>

    function State(): AppState
      reads this
    {
      AppState(currentStep, fnolData, triageData, invoiceAnalysis, toasts)
    }

    /** First render: step 1, no data, no toasts. */
    constructor ()
      ensures currentStep == 1 && fnolData == None && triageData == None
      ensures invoiceAnalysis == None && toasts == []
      ensures State() == Initial
    {
      currentStep := 1;
      fnolData := None;
      triageData := None;
      invoiceAnalysis := None;
      toasts := [];
    }

    /** addToast(message, type); `stamp` is `Date.now().toString()`. */
    method AddToastMessage(message: string, kind: ToastKind, stamp: string)
      modifies this
      ensures toasts == AddToast(old(toasts), Toast(stamp, message, kind))
      ensures currentStep == old(currentStep) && fnolData == old(fnolData)
      ensures triageData == old(triageData) && invoiceAnalysis == old(invoiceAnalysis)
    {
      toasts := AddToast(toasts, Toast(stamp, message, kind));
    }

    method RemoveToastById(id: string)
      modifies this
      ensures toasts == RemoveToast(old(toasts), id)
      ensures currentStep == old(currentStep) && fnolData == old(fnolData)
      ensures triageData == old(triageData) && invoiceAnalysis == old(invoiceAnalysis)
      ensures State() == Apply(old(State()), ToastClosed(id))
    {
      toasts := RemoveToast(toasts, id);
    }

    method HandleAction(name: string, stamp: string)
      modifies this
      ensures toasts == old(toasts) + [ActionToast(name, stamp)]
      ensures currentStep == old(currentStep) && fnolData == old(fnolData)
      ensures triageData == old(triageData) && invoiceAnalysis == old(invoiceAnalysis)
      ensures State() == Apply(old(State()), ActionRequested(name, stamp))
    {
      var t := ActionToast(name, stamp);
      AddToastMessage(t.message, t.kind, stamp);
    }

    method HandleFnolComplete(data: FnolResponse)
      modifies this
      ensures fnolData == Some(data) && currentStep == 2
      ensures triageData == old(triageData) && invoiceAnalysis == old(invoiceAnalysis)
      ensures toasts == old(toasts)
      ensures State() == Apply(old(State()), FnolCompleted(data))
    {
      fnolData := Some(data);
      currentStep := 2;
    }

    method HandleTriageComplete(data: TriageResponse)
      modifies this
      ensures triageData == Some(data) && currentStep == 3
      ensures fnolData == old(fnolData) && invoiceAnalysis == old(invoiceAnalysis)
      ensures toasts == old(toasts)
      ensures State() == Apply(old(State()), TriageCompleted(data))
    {
      triageData := Some(data);
      currentStep := 3;
    }

    method HandleInvestigationComplete()
      modifies this
      ensures currentStep == 4
      ensures fnolData == old(fnolData) && triageData == old(triageData)
      ensures invoiceAnalysis == old(invoiceAnalysis) && toasts == old(toasts)
      ensures State() == Apply(old(State()), InvestigationCompleted)
    {
      currentStep := 4;
    }

    /** The setter Step3 receives as onInvoiceAnalyzed. */
    method SetInvoiceAnalysis(analysis: InvoiceAnalysisResponse)
      modifies this
      ensures invoiceAnalysis == Some(analysis)
      ensures currentStep == old(currentStep) && fnolData == old(fnolData)
      ensures triageData == old(triageData) && toasts == old(toasts)
      ensures State() == Apply(old(State()), InvoiceAnalyzed(analysis))
    {
      invoiceAnalysis := Some(analysis);
    }

    method HandleRestart()
      modifies this
      ensures currentStep == 1 && fnolData == None && triageData == None && invoiceAnalysis == None
      ensures toasts == old(toasts)
      ensures State() == Apply(old(State()), Restarted)
    {
      currentStep := 1;
      fnolData := None;
      triageData := None;
      invoiceAnalysis := None;
    }
  }
}
