/**
 * The second-generation investigation dashboard (src/components/Step3_Investigation.tsx):
 * how the investigation record is obtained, the outstanding-checklist badge,
 * the invoice upload with its simulated progress bar and status line, and the
 * "Ask AI" assistant.
 *
 * Each firing of the 100 ms progress interval is a call of `ProgressTick`; the
 * 500 ms reveal timer is `RevealAnalysis`. AI answers are `Outcome`s, and the
 * random draw of the sample data is the real `r` in [0, 1).
 */
module Investigation {
  import opened Basics
  import opened ClaimTypes
  import SampleData

  // ---------------------------------------------------------------------------
  // The checklist badge

  function IsPending(item: ChecklistItem): bool
  {
    item.status == Pending
  }

  /** `checklist.filter(i => i.status === 'Pending').length`. */
  function Outstanding(checklist: seq<ChecklistItem>): (n: nat)
    ensures n <= |checklist|
    ensures n == 0 <==> forall i :: 0 <= i < |checklist| ==> checklist[i].status != Pending
  {
    FilterMembers(checklist, IsPending);
    |Filter(checklist, IsPending)|
  }

  /** The count of a concatenation is the sum of the counts. */
  lemma {:induction false} OutstandingAppend(a: seq<ChecklistItem>, b: seq<ChecklistItem>)
    ensures Outstanding(a + b) == Outstanding(a) + Outstanding(b)
  {
    FilterAppend(a, b, IsPending);
  }

  /** Settling one pending item lowers the count by exactly one. */
  lemma {:induction false} SettlingOneItem(checklist: seq<ChecklistItem>, i: int, status: ChecklistStatus)
    requires 0 <= i < |checklist| && checklist[i].status == Pending && status != Pending
    ensures Outstanding(checklist[i := checklist[i].(status := status)]) == Outstanding(checklist) - 1
  {
    var before, after := checklist[..i], checklist[i + 1..];
    var item := checklist[i];
    assert checklist == before + [item] + after;
    assert checklist[i := item.(status := status)] == before + [item.(status := status)] + after;
    OutstandingAppend(before + [item], after);
    OutstandingAppend(before, [item]);
    OutstandingAppend(before + [item.(status := status)], after);
    OutstandingAppend(before, [item.(status := status)]);
  }

  datatype BadgeVariant = Warning | Success

  /** The badge warns exactly while something is outstanding. */
  function ChecklistBadge(checklist: seq<ChecklistItem>): (v: BadgeVariant)
    ensures v == Warning <==> exists i :: 0 <= i < |checklist| && checklist[i].status == Pending
  {
    if Outstanding(checklist) > 0 then Warning else Success
  }

  // ---------------------------------------------------------------------------
  // The simulated upload progress

  /** One firing of the interval: five points more, held at 90 until the answer arrives. */
  function NextProgress(p: int): (q: int)
    ensures p < 90 ==> q <= 90
    ensures q <= 90
    ensures p <= 85 ==> q == p + 5
  {
    var q := p + 5;
    if q > 90 then 90 else q
  }

  /** The interval's counter after n firings from 0. */
  function ProgressAfter(n: nat): int
  {
    if n == 0 then 0 else NextProgress(ProgressAfter(n - 1))
  }

  /** After n firings the bar shows 5n, capped at 90: it never passes 90 before the answer arrives. */
  lemma {:induction false} ProgressAfterTicks(n: nat)
    ensures ProgressAfter(n) == if 5 * n < 90 then 5 * n else 90
    ensures 0 <= ProgressAfter(n) <= 90
  {
    if n > 0 {
      ProgressAfterTicks(n - 1);
    }
  }

  /**
   * The status line after a firing that set the bar to p; at 20 or below the
   * previous status stays.
   */
  function StatusAt(p: int, previous: string): (status: string)
    ensures 20 < p < 50 ==> status == "Scanning text (OCR)..."
    ensures 50 <= p < 80 ==> status == "Matching line items to policy..."
    ensures p >= 80 ==> status == "Verifying regional labor rates..."
    ensures p <= 20 ==> status == previous
  {
    var s1 := if p > 20 && p < 50 then "Scanning text (OCR)..." else previous;
    var s2 := if p >= 50 && p < 80 then "Matching line items to policy..." else s1;
    if p >= 80 then "Verifying regional labor rates..." else s2
  }

  // ---------------------------------------------------------------------------
  // Obtaining the investigation record

  /**
   * The record initData settles on when there is none yet: the AI's answer when
   * both the intake and the triage record exist and the call resolves, the sample
   * record otherwise.
   */
  function InitialRecord(canAsk: bool, ai: Outcome<InvestigationData>, r: real, loadedAt: string): (d: InvestigationData)
    requires 0.0 <= r < 1.0
    ensures canAsk && ai.Resolved? ==> d == ai.value
    ensures !(canAsk && ai.Resolved?) ==> d in SampleData.InvestigationVariants
  {
    if canAsk && ai.Resolved? then ai.value
    else
      SampleData.TablesHaveTenEntries(loadedAt);
      SampleData.GenerateDummyData(r, loadedAt).investigation
  }

  /** A file chosen in the hidden invoice input. */
  datatype PickedFile = PickedFile(name: string, sizeBytes: nat)

  /** The fixed apology shown when the assistant's call throws. */
  function Apology(): string
  {
    "I'm having trouble connecting right now. Please try again."
  }

  /** The answer shown: the AI's, or the apology when the call throws. */
  function Reply(answer: Outcome<string>): (text: string)
    ensures answer.Resolved? ==> text == answer.value
    ensures answer.Threw? ==> text == Apology()
  {
    match answer
    case Resolved(value) => value
    case Threw => Apology()
  }

  // ---------------------------------------------------------------------------
  // The component

  class Dashboard {
    const fnolData: Option<FnolData>        // the wizard's props
    const triageData: Option<TriageData>
    var data: Option<InvestigationData>
    var invoiceData: Option<InvoiceData>
    var loading: bool
    var isUploading: bool
    var uploadProgress: int
    var uploadStatus: string
    var showAnalysis: bool
    var ticking: bool       // the progress interval is running
    var counter: int        // the interval's own `progress` variable
    var isAiOpen: bool
    var aiQuery: string
    var aiResponse: Option<string>
    var isTyping: bool

    /**
     * The bar stays within 0..100, and while the interval runs the upload is in
     * progress and the bar shows the counter, at most 90.
     */
    predicate Valid()
      reads this
    {
      && 0 <= uploadProgress <= 100
      && (ticking ==> isUploading && uploadProgress == counter && 0 <= counter <= 90)
    }

    /** Mounting with the records the wizard may already hold. */
    constructor (investigationData: Option<InvestigationData>, fnolData: Option<FnolData>, triageData: Option<TriageData>)
      ensures this.fnolData == fnolData && this.triageData == triageData
      ensures data == investigationData && loading == investigationData.None?
      ensures invoiceData == None && !isUploading && uploadProgress == 0 && uploadStatus == ""
      ensures !showAnalysis && !ticking
      ensures !isAiOpen && aiQuery == "" && aiResponse == None && !isTyping
      ensures Valid()
    {
      this.fnolData := fnolData;
      this.triageData := triageData;
      data := investigationData;
      invoiceData := None;
      loading := investigationData.None?;
      isUploading := false;
      uploadProgress := 0;
      uploadStatus := "";
      showAnalysis := false;
      ticking := false;
      counter := 0;
      isAiOpen := false;
      aiQuery := "";
      aiResponse := None;
      isTyping := false;
    }

    /**
     * initData: with a record present nothing happens. Otherwise the record is
     * asked of the AI when both inputs exist (and handed to the wizard, whether
     * it came from the AI or, after a failure, from the sample data), or taken
     * from the sample data without telling the wizard.
     */
    method InitData(ai: Outcome<InvestigationData>, r: real, loadedAt: string) returns (handedOn: Option<InvestigationData>)
      requires 0.0 <= r < 1.0
      modifies this
      ensures old(data).Some? ==> data == old(data) && loading == old(loading) && handedOn == None
      ensures old(data).None? ==>
                data == Some(InitialRecord(fnolData.Some? && triageData.Some?, ai, r, loadedAt)) && !loading
      ensures old(data).None? && fnolData.Some? && triageData.Some? ==> handedOn == data
      ensures !(old(data).None? && fnolData.Some? && triageData.Some?) ==> handedOn == None
      ensures invoiceData == old(invoiceData) && isUploading == old(isUploading)
      ensures uploadProgress == old(uploadProgress) && uploadStatus == old(uploadStatus)
      ensures showAnalysis == old(showAnalysis) && ticking == old(ticking) && counter == old(counter)
      ensures isAiOpen == old(isAiOpen) && aiQuery == old(aiQuery)
      ensures aiResponse == old(aiResponse) && isTyping == old(isTyping)
    {
      handedOn := None;
      if data.None? && fnolData.Some? && triageData.Some? {
        loading := true;
        var record := InitialRecord(true, ai, r, loadedAt);
        data := Some(record);
        handedOn := Some(record);
        loading := false;
      } else if data.None? {
        data := Some(InitialRecord(false, ai, r, loadedAt));
        loading := false;
      }
    }

    /**
     * handleFileUpload up to its await: with no file nothing happens, otherwise
     * the bar restarts. The upload box only opens the file picker while no upload
     * is in progress.
     */
    method BeginUpload(files: Option<seq<PickedFile>>)
      requires Valid() && !isUploading
      modifies this
      ensures files.None? || files.value == [] ==>
                isUploading == old(isUploading) && uploadProgress == old(uploadProgress)
                && uploadStatus == old(uploadStatus) && ticking == old(ticking) && counter == old(counter)
      ensures files.Some? && files.value != [] ==>
                isUploading && uploadProgress == 0 && uploadStatus == "Uploading document..."
                && ticking && counter == 0
      ensures data == old(data) && invoiceData == old(invoiceData) && loading == old(loading)
      ensures showAnalysis == old(showAnalysis)
      ensures isAiOpen == old(isAiOpen) && aiQuery == old(aiQuery)
      ensures aiResponse == old(aiResponse) && isTyping == old(isTyping)
      ensures Valid()
    {
      if files.None? || files.value == [] {
        return;
      }
      isUploading := true;
      uploadProgress := 0;
      uploadStatus := "Uploading document...";
      counter := 0;
      ticking := true;
    }

    /** One firing of the progress interval. */
    method ProgressTick()
      requires Valid() && ticking
      modifies this
      ensures counter == NextProgress(old(counter)) && uploadProgress == counter
      ensures uploadStatus == StatusAt(counter, old(uploadStatus))
      ensures old(uploadProgress) <= uploadProgress <= 90
      ensures ticking && isUploading == old(isUploading)
      ensures data == old(data) && invoiceData == old(invoiceData) && loading == old(loading)
      ensures showAnalysis == old(showAnalysis)
      ensures isAiOpen == old(isAiOpen) && aiQuery == old(aiQuery)
      ensures aiResponse == old(aiResponse) && isTyping == old(isTyping)
      ensures Valid()
    {
      counter := NextProgress(counter);
      uploadProgress := counter;
      uploadStatus := StatusAt(counter, uploadStatus);
    }

    /** The analysis arrives: the interval stops, the bar jumps to 100. */
    method UploadSucceeded(result: InvoiceData)
      requires Valid()
      modifies this
      ensures invoiceData == Some(result)
      ensures !ticking && uploadProgress == 100 && uploadStatus == "Analysis Complete"
      ensures isUploading == old(isUploading) && showAnalysis == old(showAnalysis)
      ensures data == old(data) && loading == old(loading)
      ensures isAiOpen == old(isAiOpen) && aiQuery == old(aiQuery)
      ensures aiResponse == old(aiResponse) && isTyping == old(isTyping)
      ensures Valid()
    {
      invoiceData := Some(result);
      ticking := false;
      uploadProgress := 100;
      uploadStatus := "Analysis Complete";
    }

    /** The 500 ms timer armed on success (the interval is stopped by then): the upload box gives way to the analysis. */
    method RevealAnalysis()
      requires Valid() && !ticking
      modifies this
      ensures !isUploading && showAnalysis
      ensures invoiceData == old(invoiceData) && uploadProgress == old(uploadProgress)
      ensures uploadStatus == old(uploadStatus) && ticking == old(ticking) && counter == old(counter)
      ensures data == old(data) && loading == old(loading)
      ensures isAiOpen == old(isAiOpen) && aiQuery == old(aiQuery)
      ensures aiResponse == old(aiResponse) && isTyping == old(isTyping)
      ensures Valid()
    {
      isUploading := false;
      showAnalysis := true;
    }

    /** The analysis call throws: the interval stops and the upload ends as failed. */
    method UploadFailed()
      requires Valid()
      modifies this
      ensures !ticking && !isUploading && uploadStatus == "Analysis Failed"
      ensures invoiceData == old(invoiceData) && uploadProgress == old(uploadProgress)
      ensures showAnalysis == old(showAnalysis)
      ensures data == old(data) && loading == old(loading)
      ensures isAiOpen == old(isAiOpen) && aiQuery == old(aiQuery)
      ensures aiResponse == old(aiResponse) && isTyping == old(isTyping)
      ensures Valid()
    {
      ticking := false;
      isUploading := false;
      uploadStatus := "Analysis Failed";
    }

    /** "Upload Different Invoice": the analysis is hidden and forgotten. */
    method UploadDifferentInvoice()
      requires Valid()
      modifies this
      ensures !showAnalysis && invoiceData == None
      ensures isUploading == old(isUploading) && uploadProgress == old(uploadProgress)
      ensures uploadStatus == old(uploadStatus) && ticking == old(ticking) && counter == old(counter)
      ensures data == old(data) && loading == old(loading)
      ensures isAiOpen == old(isAiOpen) && aiQuery == old(aiQuery)
      ensures aiResponse == old(aiResponse) && isTyping == old(isTyping)
      ensures Valid()
    {
      showAnalysis := false;
      invoiceData := None;
    }

    method SetQuery(text: string)
      modifies this
      ensures aiQuery == text
      ensures isAiOpen == old(isAiOpen) && aiResponse == old(aiResponse) && isTyping == old(isTyping)
      ensures data == old(data) && invoiceData == old(invoiceData) && loading == old(loading)
      ensures isUploading == old(isUploading) && uploadProgress == old(uploadProgress)
      ensures uploadStatus == old(uploadStatus) && ticking == old(ticking) && counter == old(counter)
      ensures showAnalysis == old(showAnalysis)
    {
      aiQuery := text;
    }

    /** The floating button opens and closes the assistant. */
    method ToggleAssistant()
      modifies this
      ensures isAiOpen == !old(isAiOpen)
      ensures aiQuery == old(aiQuery) && aiResponse == old(aiResponse) && isTyping == old(isTyping)
      ensures data == old(data) && invoiceData == old(invoiceData) && loading == old(loading)
      ensures isUploading == old(isUploading) && uploadProgress == old(uploadProgress)
      ensures uploadStatus == old(uploadStatus) && ticking == old(ticking) && counter == old(counter)
      ensures showAnalysis == old(showAnalysis)
    {
      isAiOpen := !isAiOpen;
    }

    /**
     * handleAskAI: a blank or whitespace-only question does nothing; otherwise the
     * answer (or the fallback text when the call throws) is shown and typing ends.
     */
    method AskAi(answer: Outcome<string>)
      modifies this
      ensures IsBlank(old(aiQuery)) ==> aiResponse == old(aiResponse) && isTyping == old(isTyping)
      ensures !IsBlank(old(aiQuery)) ==> aiResponse == Some(Reply(answer)) && !isTyping
      ensures aiQuery == old(aiQuery) && isAiOpen == old(isAiOpen)
      ensures data == old(data) && invoiceData == old(invoiceData) && loading == old(loading)
      ensures isUploading == old(isUploading) && uploadProgress == old(uploadProgress)
      ensures uploadStatus == old(uploadStatus) && ticking == old(ticking) && counter == old(counter)
      ensures showAnalysis == old(showAnalysis)
    {
      // `!aiQuery.trim()`, which holds exactly for blank queries (Basics.TrimEmptyIffBlank)
      if IsBlank(aiQuery) {
        return;
      }
      isTyping := true;
      aiResponse := None;
      aiResponse := Some(Reply(answer));
      isTyping := false;
    }

    /**
     * The badge over the checklist. The dashboard is drawn only once loading is
     * over and the record and both props are present: a spinner while loading,
     * nothing at all when a record or a prop is missing.
     */
    function Badge(): (v: Option<BadgeVariant>)
      reads this
      ensures v.Some? <==> !loading && data.Some? && fnolData.Some? && triageData.Some?
      ensures v.Some? ==> (v.value == Warning <==> Outstanding(data.value.checklist) > 0)
    {
      if !loading && data.Some? && fnolData.Some? && triageData.Some? then
        Some(ChecklistBadge(data.value.checklist))
      else
        None
    }
  }
}
