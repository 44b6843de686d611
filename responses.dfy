/**
 * The response records the first-generation screens pass around (the App
 * shell, the invoice review of step 3 and the settlement of step 4). They are
 * canned records chosen at random; only the fields the modelled code reads are
 * kept, and amounts are JavaScript numbers, written here as `real`.
 */
module Responses {
  import opened Basics

  /** An intake record; the shell reads only its claim id. */
  datatype FnolResponse = FnolResponse(id: string)

  datatype Adjuster = Adjuster(name: string)

  /** A triage record; the shell reads only the recommended adjuster's name. */
  datatype TriageResponse = TriageResponse(recommendedAdjuster: Adjuster)

  /** The payment split of an analysed invoice, as the canned record states it. */
  datatype InvoiceTotals = InvoiceTotals(
    totalBilled: real,
    totalCovered: real,
    deductible: real,
    customerPays: real,
    insurerPays: real)

  datatype InvoiceAnalysisResponse = InvoiceAnalysisResponse(
    invoiceId: Option<string>,
    vendor: Option<string>,
    totals: InvoiceTotals,
    flags: seq<string>)

  /** An investigation record; step 3 reads its severity label. */
  datatype InvestigationResponse = InvestigationResponse(severityLevel: string)

  datatype PayoutRange = PayoutRange(min: real, max: real)

  datatype BreakdownRow = BreakdownRow(item: string, amount: real)

  datatype SettlementFlag = SettlementFlag(issue: string, suggestion: string)

  datatype SettlementResponse = SettlementResponse(
    recommendedPayout: real,
    range: PayoutRange,
    confidence: real,
    breakdown: seq<BreakdownRow>,
    flags: seq<SettlementFlag>)

  /** The "Not Covered" figure both screens display: billed minus covered. */
  function NotCovered(t: InvoiceTotals): (amount: real)
    ensures amount + t.totalCovered == t.totalBilled
  {
    t.totalBilled - t.totalCovered
  }
}
