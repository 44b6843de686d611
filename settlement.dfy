/**
 * The settlement screen (components/Step4_Settlement.tsx): the settlement
 * record shown (a canned record, overridden by the verified invoice analysis
 * when there is one), the two confirmations that gate "Approve & Pay", and the
 * approved summary.
 *
 * The canned record picked at random is the parameter `pick`; the 600 ms wait
 * before it is shown is the call of `LoadData`. Amounts are `real`.
 */
module Settlement {
  import opened Basics
  import opened Responses

  /** The suggestion attached to every flag taken over from the invoice analysis. */
  const ReviewSuggestion := "Review policy exclusions"

  /** `flags.map(f => ({ issue: f, suggestion: ... }))`. */
  function SettlementFlags(flags: seq<string>): (r: seq<SettlementFlag>)
    ensures |r| == |flags|
    ensures forall i :: 0 <= i < |r| ==> r[i].suggestion == ReviewSuggestion
  {
    seq(|flags|, i requires 0 <= i < |flags| => SettlementFlag(flags[i], ReviewSuggestion))
  }

  /** The issues of a flag list, in order. */
  function Issues(flags: seq<SettlementFlag>): (r: seq<string>)
    ensures |r| == |flags|
  {
    seq(|flags|, i requires 0 <= i < |flags| => flags[i].issue)
  }

  /** The invoice's flags come through one to one and in order. */
  lemma IssuesRoundTrip(flags: seq<string>)
    ensures Issues(SettlementFlags(flags)) == flags
  {
    var r := Issues(SettlementFlags(flags));
    assert forall i :: 0 <= i < |flags| ==> r[i] == flags[i];
  }

  /**
   * The record the screen shows: the pick unchanged without invoice data;
   * otherwise the pick with the payout set to what the insurer pays, a ±2 %
   * range around it, confidence 0.99, no breakdown rows, and the invoice's flags.
   */
  function Displayed(pick: SettlementResponse, invoice: Option<InvoiceAnalysisResponse>): (s: SettlementResponse)
    ensures invoice.None? ==> s == pick
    ensures invoice.Some? ==>
              && s.recommendedPayout == invoice.value.totals.insurerPays
              && s.range == PayoutRange(invoice.value.totals.insurerPays * 0.98,
                                        invoice.value.totals.insurerPays * 1.02)
              && s.breakdown == []
              && s.confidence == 0.99
              && Issues(s.flags) == invoice.value.flags
              && (forall i :: 0 <= i < |s.flags| ==> s.flags[i].suggestion == ReviewSuggestion)
    ensures invoice.Some? && invoice.value.totals.insurerPays >= 0.0 ==>
              s.range.min <= s.recommendedPayout <= s.range.max
  {
    match invoice
    case None => pick
    case Some(inv) =>
      var pays := inv.totals.insurerPays;
      IssuesRoundTrip(inv.flags);
      pick.(recommendedPayout := pays,
            range := PayoutRange(pays * 0.98, pays * 1.02),
            confidence := 0.99,
            breakdown := [],
            flags := SettlementFlags(inv.flags))
  }

  /** Overriding twice with the same invoice is overriding once. */
  lemma DisplayedIdempotent(pick: SettlementResponse, invoice: Option<InvoiceAnalysisResponse>)
    ensures Displayed(Displayed(pick, invoice), invoice) == Displayed(pick, invoice)
  {
  }

  /** "Customer Responsibility": what the customer pays per the invoice, or $500 without one. */
  function CustomerResponsibility(invoice: Option<InvoiceAnalysisResponse>): (amount: real)
    ensures invoice.Some? ==> amount == invoice.value.totals.customerPays
    ensures invoice.None? ==> amount == 500.0
  {
    if invoice.Some? then invoice.value.totals.customerPays else 500.0
  }

  /**
   * "Paid To": the invoice's vendor when it has a non-empty one, else "Claimant"
   * (an empty vendor is falsy, so it falls back too).
   */
  function PaidTo(invoice: Option<InvoiceAnalysisResponse>): (payee: string)
    ensures payee != ""
    ensures invoice.Some? && invoice.value.vendor.Some? && invoice.value.vendor.value != "" ==>
              payee == invoice.value.vendor.value
    ensures !(invoice.Some? && invoice.value.vendor.Some? && invoice.value.vendor.value != "") ==>
              payee == "Claimant"
  {
    if invoice.Some? && invoice.value.vendor.Some? && invoice.value.vendor.value != "" then
      invoice.value.vendor.value
    else
      "Claimant"
  }

  /**
   * The closed claim's number: a fixed one when the invoice has an id, otherwise
   * ⌊r · 10000⌋ for the random draw r in [0, 1), which has at most four digits.
   */
  function ClaimNumber(invoice: Option<InvoiceAnalysisResponse>, r: real): (number: string)
    requires 0.0 <= r < 1.0
    ensures invoice.Some? && invoice.value.invoiceId.Some? && invoice.value.invoiceId.value != "" ==>
              number == "2024-1024"
    ensures !(invoice.Some? && invoice.value.invoiceId.Some? && invoice.value.invoiceId.value != "") ==>
              1 <= |number| <= 4
  {
    if invoice.Some? && invoice.value.invoiceId.Some? && invoice.value.invoiceId.value != "" then
      "2024-1024"
    else
      var n := (r * 10000.0).Floor;
      assert 0 <= n < 10000;
      assert TenTo(4) == 10000;
      DigitsAtMost(n, 4);
      NatToString(n)
  }

  function TenTo(k: nat): (p: nat)
    ensures p >= 1
  {
    if k == 0 then 1 else 10 * TenTo(k - 1)
  }

  /** A number below 10^k is written with at most k digits. */
  lemma {:induction false} DigitsAtMost(n: nat, k: nat)
    requires k >= 1 && n < TenTo(k)
    ensures |NatToString(n)| <= k
  {
    if n >= 10 {
      assert n / 10 < TenTo(k - 1);
      DigitsAtMost(n / 10, k - 1);
    }
  }

  /** Approve & Pay is enabled exactly when both confirmations are ticked. */
  function ApproveEnabled(accurate: bool, reviewed: bool): (enabled: bool)
    ensures enabled <==> accurate && reviewed
  {
    !(!accurate || !reviewed)
  }

  datatype View = Loading | Authorization | Approved

  class Screen {
    var data: Option<SettlementResponse>
    var isApproved: bool
    var accurate: bool
    var reviewed: bool

    /** Approval is only ever reached through both confirmations, on a loaded record. */
    predicate Valid()
      reads this
    {
      isApproved ==> accurate && reviewed && data.Some?
    }

    /** Which screen renders: the spinner until a record is loaded, then approval or the summary. */
    function CurrentView(): (v: View)
      reads this
      ensures v == Loading <==> data.None?
      ensures v == Approved <==> data.Some? && isApproved
    {
      if data.None? then Loading else if isApproved then Approved else Authorization
    }

    constructor ()
      ensures data == None && !isApproved && !accurate && !reviewed
      ensures Valid()
    {
      data := None;
      isApproved := false;
      accurate := false;
      reviewed := false;
    }

    /** loadData after its wait: the picked record, overridden by the invoice analysis if any. */
    method LoadData(pick: SettlementResponse, invoice: Option<InvoiceAnalysisResponse>)
      requires Valid()
      modifies this
      ensures data == Some(Displayed(pick, invoice))
      ensures isApproved == old(isApproved) && accurate == old(accurate) && reviewed == old(reviewed)
      ensures Valid()
    {
      var settlementData := pick;
      if invoice.Some? {
        settlementData := Displayed(pick, invoice);
      }
      data := Some(settlementData);
    }

    /** The first checkbox: only `accurate` changes. */
    method SetAccurate(checked: bool)
      requires Valid() && CurrentView() == Authorization
      modifies this
      ensures accurate == checked
      ensures reviewed == old(reviewed) && isApproved == old(isApproved) && data == old(data)
      ensures Valid()
    {
      accurate := checked;
    }

    /** The second checkbox: only `reviewed` changes. */
    method SetReviewed(checked: bool)
      requires Valid() && CurrentView() == Authorization
      modifies this
      ensures reviewed == checked
      ensures accurate == old(accurate) && isApproved == old(isApproved) && data == old(data)
      ensures Valid()
    {
      reviewed := checked;
    }

    /** A click on Approve & Pay; a disabled button ignores it. */
    method Approve()
      requires Valid() && CurrentView() == Authorization
      modifies this
      ensures isApproved <==> ApproveEnabled(accurate, reviewed)
      ensures accurate == old(accurate) && reviewed == old(reviewed) && data == old(data)
      ensures Valid()
    {
      if ApproveEnabled(accurate, reviewed) {
        isApproved := true;
      }
    }
  }
}
