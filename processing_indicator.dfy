/**
 * The "AI Processing" card (components/AIProcessingIndicator.tsx): six steps run
 * one after another, each finishing when its timeout fires; the bar shows the
 * share of finished steps and a line estimates the seconds left.
 *
 * The effect's `runStep` chain is modelled by the mount (first `runStep`), one
 * call of `TimeoutFires` per expired timeout, `Unmount` for the cleanup that
 * clears the pending timeout, and `CallbackChanged` for the cleanup and re-run
 * that follow a change of the `onComplete` dependency. The delays themselves
 * are data only.
 */
module ProcessingIndicator {

  /** A step; `title` holds the source's `label` field (`label` is a Dafny keyword). */
  datatype ProcessingStep = ProcessingStep(id: string, title: string, delay: nat)

  /** The six steps, in the order they run. */
  function ProcessingSteps(): (steps: seq<ProcessingStep>)
    ensures |steps| == 6
  {
    [ ProcessingStep("1", "Image analysis", 500),
      ProcessingStep("2", "Document extraction", 800),
      ProcessingStep("3", "Policy lookup", 600),
      ProcessingStep("4", "Fraud detection", 1000),
      ProcessingStep("5", "Cost estimation", 700),
      ProcessingStep("6", "Generate summary", 500) ]
  }

  const StepCount := 6

  /** The step ids "1" to "6"; no two alike. */
  function StepIds(): (ids: seq<string>)
    ensures |ids| == StepCount
    ensures forall i, j :: 0 <= i < j < |ids| ==> ids[i] != ids[j]
  {
    var steps := ProcessingSteps();
    [steps[0].id, steps[1].id, steps[2].id, steps[3].id, steps[4].id, steps[5].id]
  }

  /** The bar after k finished steps: k / 6 of the way. */
  function ProgressAfter(k: nat): (p: real)
    requires k <= StepCount
    ensures 0.0 <= p <= 100.0
    ensures p == 100.0 <==> k == StepCount
  {
    (k as real / StepCount as real) * 100.0
  }

  /** The least integer at or above x. */
  function Ceil(x: real): (c: int)
    ensures c as real >= x && (c - 1) as real < x
  {
    -((-x).Floor)
  }

  /** Estimated seconds left: ⌈(100 − progress) / 20⌉, never below 0. */
  function RemainingSeconds(progress: real): (s: int)
    ensures s >= 0
    ensures s == 0 <==> progress >= 100.0
    ensures s > 0 ==> s as real >= (100.0 - progress) / 20.0 > (s - 1) as real
  {
    var c := Ceil((100.0 - progress) / 20.0);
    if c > 0 then c else 0
  }

  /** More progress never raises the estimate. */
  lemma RemainingNeverGrows(p: real, q: real)
    requires p <= q
    ensures RemainingSeconds(q) <= RemainingSeconds(p)
  {
    var a, b := (100.0 - p) / 20.0, (100.0 - q) / 20.0;
    assert b <= a;
    assert Ceil(b) <= Ceil(a);
  }

  /** How a row is drawn: the three flags of the component, of which exactly one holds. */
  datatype RowFlags = RowFlags(isComplete: bool, isActive: bool, isPending: bool)

  function Row(id: string, completedSteps: seq<string>, currentStep: string): (f: RowFlags)
    ensures f.isComplete <==> id in completedSteps
    ensures f.isActive <==> currentStep == id && id !in completedSteps
    ensures (f.isComplete && !f.isActive && !f.isPending)
         || (!f.isComplete && f.isActive && !f.isPending)
         || (!f.isComplete && !f.isActive && f.isPending)
  {
    var isComplete := id in completedSteps;
    var isActive := currentStep == id && !isComplete;
    RowFlags(isComplete, isActive, !isComplete && !isActive)
  }

  class Indicator {
    const hasCallback: bool   // the optional onComplete prop is present
    var completedSteps: seq<string>
    var currentStep: string
    var progress: real
    var stepIndex: nat        // the running effect's local counter
    var timeoutArmed: bool    // a step's timeout is pending
    var cancelled: bool       // the cleanup ran on unmount
    var completions: nat      // how often onComplete was called

    /**
     * What holds in every state, including after the effect re-ran: the counter
     * stays within the table, and a timeout is pending only for a step that
     * exists, while mounted.
     */
    predicate Sane()
      reads this
    {
      && stepIndex <= StepCount
      && (timeoutArmed ==> stepIndex < StepCount && !cancelled)
    }

    /**
     * One effect run since mounting: steps finish in list order, so the finished
     * ones are the first `stepIndex` ids, the bar is their share, the current
     * step is the one being run (the last one once all are done), onComplete has
     * been called once exactly when all six are done and the prop is present,
     * and a timeout is pending until then unless the cleanup ran.
     */
    predicate Valid()
      reads this
    {
      && stepIndex <= StepCount
      && completedSteps == StepIds()[..stepIndex]
      && progress == ProgressAfter(stepIndex)
      && currentStep == StepIds()[if stepIndex < StepCount then stepIndex else StepCount - 1]
      && completions == (if stepIndex == StepCount && hasCallback then 1 else 0)
      && (timeoutArmed <==> stepIndex < StepCount && !cancelled)
    }

    /** Mounting: the initial state, then the effect's first runStep arms step "1". */
    constructor (hasCallback: bool)
      ensures Valid() && Sane()
      ensures this.hasCallback == hasCallback
      ensures completedSteps == [] && currentStep == "1" && progress == 0.0
      ensures stepIndex == 0 && timeoutArmed && !cancelled && completions == 0
    {
      this.hasCallback := hasCallback;
      completedSteps := [];
      currentStep := ProcessingSteps()[0].id;
      progress := 0.0;
      stepIndex := 0;
      cancelled := false;
      completions := 0;
      timeoutArmed := true;
    }

    /**
     * The pending timeout expires: its step joins the finished ones, the bar
     * moves to the counter's share, and runStep either arms the next step or
     * calls onComplete (when present).
     */
    method TimeoutFires()
      requires Sane() && timeoutArmed
      modifies this
      ensures Sane()
      ensures old(Valid()) ==> Valid()
      ensures stepIndex == old(stepIndex) + 1
      ensures completedSteps == old(completedSteps) + [StepIds()[old(stepIndex)]]
      ensures progress == ProgressAfter(stepIndex)
      ensures stepIndex < StepCount ==> currentStep == StepIds()[stepIndex] && timeoutArmed
      ensures stepIndex < StepCount ==> completions == old(completions)
      ensures stepIndex == StepCount ==>
                !timeoutArmed && currentStep == old(currentStep)
                && completions == old(completions) + (if hasCallback then 1 else 0)
      ensures cancelled == old(cancelled)
    {
      var step := ProcessingSteps()[stepIndex];
      completedSteps := completedSteps + [step.id];
      stepIndex := stepIndex + 1;
      progress := ProgressAfter(stepIndex);
      // runStep
      if stepIndex >= StepCount {
        if hasCallback {
          completions := completions + 1;
        }
        timeoutArmed := false;
        return;
      }
      currentStep := ProcessingSteps()[stepIndex].id;
      timeoutArmed := true;
    }

    /** The effect's cleanup on unmount clears the pending timeout; nothing else changes. */
    method Unmount()
      requires Sane()
      modifies this
      ensures Sane()
      ensures old(Valid()) ==> Valid()
      ensures cancelled && !timeoutArmed
      ensures completedSteps == old(completedSteps) && currentStep == old(currentStep)
      ensures progress == old(progress) && stepIndex == old(stepIndex) && completions == old(completions)
    {
      cancelled := true;
      timeoutArmed := false;
    }

    /**
     * The onComplete prop changes identity while mounted: the cleanup clears the
     * pending timeout and the effect runs again with a fresh counter, arming
     * step "1". The finished steps, the bar and the completion count are state,
     * so they stay as they were.
     */
    method CallbackChanged()
      requires Sane() && !cancelled
      modifies this
      ensures Sane()
      ensures stepIndex == 0 && currentStep == "1" && timeoutArmed && !cancelled
      ensures completedSteps == old(completedSteps) && progress == old(progress)
      ensures completions == old(completions)
    {
      timeoutArmed := false;   // cleanup
      stepIndex := 0;
      currentStep := ProcessingSteps()[0].id;
      timeoutArmed := true;
    }

    /**
     * A re-run after some progress, followed by the next timeout: step "1" is
     * listed a second time and the bar falls back to one sixth, so the list no
     * longer follows the steps in order.
     */
    method RerunThenFire()
      requires Valid() && Sane() && !cancelled && stepIndex >= 1
      modifies this
      ensures completedSteps == old(completedSteps) + ["1"]
      ensures completedSteps[0] == "1" && completedSteps[|completedSteps| - 1] == "1"
      ensures progress == ProgressAfter(1)
      ensures old(stepIndex) >= 2 ==> progress < old(progress)
      ensures !Valid()
    {
      CallbackChanged();
      TimeoutFires();
    }

    /**
     * Letting every timeout fire: all six steps finish in order, the bar is
     * full, onComplete was called once if present, and the estimate reads 0 s.
     */
    method RunToCompletion()
      requires Valid() && !cancelled
      modifies this
      ensures Valid()
      ensures completedSteps == StepIds() && progress == 100.0
      ensures currentStep == "6" && completions == (if hasCallback then 1 else 0) && !timeoutArmed
      ensures RemainingSeconds(progress) == 0
    {
      while timeoutArmed
        invariant Valid() && !cancelled
        decreases StepCount - stepIndex
      {
        TimeoutFires();
      }
    }

    /** The rows as drawn. */
    function Rows(): (rows: seq<RowFlags>)
      reads this
      ensures |rows| == StepCount
    {
      seq(StepCount, i requires 0 <= i < StepCount reads this => Row(StepIds()[i], completedSteps, currentStep))
    }
  }

  /**
   * While the steps run, the rows read in order: every step before the current
   * one complete, the current one active, the rest pending; once all are done,
   * every row is complete.
   */
  lemma RowsFollowOrder(ind: Indicator, i: int)
    requires ind.Valid() && 0 <= i < StepCount
    ensures ind.Rows()[i].isComplete <==> i < ind.stepIndex
    ensures ind.Rows()[i].isActive <==> i == ind.stepIndex
    ensures ind.Rows()[i].isPending <==> i > ind.stepIndex
  {
    var ids := StepIds();
    assert ids[i] in ind.completedSteps <==> i < ind.stepIndex by {
      if ids[i] in ind.completedSteps {
        var j :| 0 <= j < ind.stepIndex && ids[..ind.stepIndex][j] == ids[i];
        assert ids[j] == ids[i];
      }
      if i < ind.stepIndex {
        assert ids[..ind.stepIndex][i] == ids[i];
      }
    }
  }
}
