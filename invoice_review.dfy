/**
 * The first-generation investigation screen (components/Step3_Investigation.tsx):
 * the severity card (badge colour, impact percentage, bar colour and repair
 * time, all keyed on the severity label) and the invoice panel (upload, the
 * analysis chosen at random, the notification to the shell, reset).
 *
 * The investigation and invoice records are drawn at random from tables that
 * are not part of this model; the drawn record is an input.
 */
module InvoiceReview {
  import opened Basics
  import opened Responses

  /** The four-way split every severity view makes on the label. */
  datatype Band = CriticalBand | HighBand | ModerateBand | LowBand

  function BandOf(level: string): (b: Band)
    ensures b == CriticalBand <==> level == "Critical"
    ensures b == HighBand <==> level == "High"
    ensures b == ModerateBand <==> level == "Moderate"
  {
    if level == "Critical" then CriticalBand
    else if level == "High" then HighBand
    else if level == "Moderate" then ModerateBand
    else LowBand
  }

  /** The classes of the severity badge for each band. */
  function BadgeOf(b: Band): string
  {
    match b
    case CriticalBand => "text-red-600 bg-red-100 dark:bg-red-900/30 dark:text-red-400"
    case HighBand => "text-orange-600 bg-orange-100 dark:bg-orange-900/30 dark:text-orange-400"
    case ModerateBand => "text-yellow-600 bg-yellow-100 dark:bg-yellow-900/30 dark:text-yellow-400"
    case LowBand => "text-green-600 bg-green-100 dark:bg-green-900/30 dark:text-green-400"
  }

  /** getSeverityColor: the switch on the label, any other label taking the green default. */
  function SeverityColor(level: string): string
  {
    BadgeOf(BandOf(level))
  }

  /** The colour of the bar for each band. */
  function BarOf(b: Band): string
  {
    match b
    case CriticalBand => "bg-red-500"
    case HighBand => "bg-orange-500"
    case ModerateBand => "bg-yellow-500"
    case LowBand => "bg-green-500"
  }

  /** The bar's colour: the chain of label tests, with green for anything else. */
  function BarColor(level: string): string
  {
    BarOf(BandOf(level))
  }

  /** No two bands share a badge (the strings differ at their fifth character from the end). */
  lemma BadgesDiffer(x: Band, y: Band)
    ensures BadgeOf(x) == BadgeOf(y) <==> x == y
  {
    var r, o, w, g := BadgeOf(CriticalBand), BadgeOf(HighBand), BadgeOf(ModerateBand), BadgeOf(LowBand);
    assert r[|r| - 5] == 'd';
    assert o[|o| - 5] == 'e';
    assert w[|w| - 5] == 'w';
    assert g[|g| - 5] == 'n';
  }

  /** No two bands share a bar colour (the strings differ at their fourth character). */
  lemma BarsDiffer(x: Band, y: Band)
    ensures BarOf(x) == BarOf(y) <==> x == y
  {
    assert BarOf(CriticalBand)[3] == 'r';
    assert BarOf(HighBand)[3] == 'o';
    assert BarOf(ModerateBand)[3] == 'y';
    assert BarOf(LowBand)[3] == 'g';
  }

  /**
   * The badge and the bar are coloured by band: two labels get the same badge,
   * and the same bar, exactly when they fall in the same band.
   */
  lemma ColoursFollowBand(a: string, b: string)
    ensures SeverityColor(a) == SeverityColor(b) <==> BandOf(a) == BandOf(b)
    ensures BarColor(a) == BarColor(b) <==> BandOf(a) == BandOf(b)
  {
    BadgesDiffer(BandOf(a), BandOf(b));
    BarsDiffer(BandOf(a), BandOf(b));
  }

  /** getSeverityPercent: the impact percentage shown and used as the bar's width. */
  function SeverityPercent(level: string): (n: int)
    ensures 25 <= n <= 95
  {
    match level
    case "Critical" => 95
    case "High" => 75
    case "Moderate" => 50
    case _ => 25
  }

  /** The percentage falls strictly along Critical, High, Moderate and everything else, and depends only on the band. */
  lemma PercentOrder(other: string)
    requires other != "Critical" && other != "High" && other != "Moderate"
    ensures SeverityPercent("Critical") > SeverityPercent("High") > SeverityPercent("Moderate") > SeverityPercent(other)
    ensures SeverityPercent(other) == 25
  {
  }

  lemma PercentDeterminesBand(a: string, b: string)
    ensures SeverityPercent(a) == SeverityPercent(b) <==> BandOf(a) == BandOf(b)
  {
  }

  /** The estimated repair time in days. */
  function RepairLabel(level: string): string
  {
    if level == "Critical" then "14+" else if level == "High" then "7-10" else "3-5"
  }

  /** The repair label is coarser than the band: equal percentages give equal labels, and only Moderate and lower share one. */
  lemma RepairLabelCoarser(a: string, b: string)
    ensures SeverityPercent(a) == SeverityPercent(b) ==> RepairLabel(a) == RepairLabel(b)
    ensures RepairLabel(a) == RepairLabel(b) && SeverityPercent(a) != SeverityPercent(b) ==>
              SeverityPercent(a) <= 50 && SeverityPercent(b) <= 50
  {
  }

  /** A file chosen in the invoice upload box. */
  datatype PickedFile = PickedFile(name: string, sizeBytes: nat)

  class Screen {
    var data: Option<InvestigationResponse>
    var invoiceAnalysis: Option<InvoiceAnalysisResponse>
    var isAnalyzingInvoice: bool

    constructor ()
      ensures data == None && invoiceAnalysis == None && !isAnalyzingInvoice
    {
      data := None;
      invoiceAnalysis := None;
      isAnalyzingInvoice := false;
    }

    /** The load timer fires with the drawn investigation record. */
    method Loaded(record: InvestigationResponse)
      modifies this
      ensures data == Some(record)
      ensures invoiceAnalysis == old(invoiceAnalysis) && isAnalyzingInvoice == old(isAnalyzingInvoice)
    {
      data := Some(record);
    }

    /** handleInvoiceUpload up to its wait: no files, nothing happens; otherwise analysing starts. */
    method BeginInvoiceUpload(files: seq<PickedFile>)
      modifies this
      ensures isAnalyzingInvoice == (old(isAnalyzingInvoice) || files != [])
      ensures data == old(data) && invoiceAnalysis == old(invoiceAnalysis)
    {
      if files == [] {
        return;
      }
      isAnalyzingInvoice := true;
    }

    /** handleInvoiceUpload after its wait: the drawn analysis is shown and analysing ends. */
    method FinishInvoiceUpload(picked: InvoiceAnalysisResponse)
      modifies this
      ensures invoiceAnalysis == Some(picked) && !isAnalyzingInvoice
      ensures data == old(data)
    {
      invoiceAnalysis := Some(picked);
      isAnalyzingInvoice := false;
    }

    /**
     * The notification effect: the shell's callback receives the analysis only
     * when there is one and a callback was given.
     */
    method Notify(hasCallback: bool) returns (sent: Option<InvoiceAnalysisResponse>)
      ensures sent.Some? <==> invoiceAnalysis.Some? && hasCallback
      ensures sent.Some? ==> sent == invoiceAnalysis
    {
      if invoiceAnalysis.Some? && hasCallback {
        sent := invoiceAnalysis;
      } else {
        sent := None;
      }
    }

    /** "Reset" forgets the analysis, bringing back the upload box. */
    method Reset()
      modifies this
      ensures invoiceAnalysis == None
      ensures data == old(data) && isAnalyzingInvoice == old(isAnalyzingInvoice)
    {
      invoiceAnalysis := None;
    }

    /** The "Not Covered" amount of the payment card. */
    function NotCoveredShown(): (amount: Option<real>)
      reads this
      ensures amount.Some? <==> invoiceAnalysis.Some?
      ensures amount.Some? ==> amount.value + invoiceAnalysis.value.totals.totalCovered == invoiceAnalysis.value.totals.totalBilled
    {
      if invoiceAnalysis.Some? then Some(NotCovered(invoiceAnalysis.value.totals)) else None
    }
  }
}
