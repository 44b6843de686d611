/**
 * The claim records the second-generation screens and the sample-data tables
 * exchange (types.ts). They carry no behaviour; the string unions become
 * enumerations.
 */
module ClaimTypes {
  import opened Basics

  /** A first notice of loss. */
  datatype FnolData = FnolData(
    id: string,
    policyNumber: string,
    claimantName: string,
    vehicleDetails: string,
    policyType: string,
    incidentType: string,
    timestamp: string,
    summary: string)

  datatype Complexity = Low | Medium | High

  /** A triage verdict; `fraudScore` and `confidence` are documented as 0-100. */
  datatype TriageData = TriageData(
    fraudScore: int,
    fraudReasoning: string,
    complexity: Complexity,
    recommendedAdjuster: string,
    adjusterSpecialty: string,
    aiReasoning: string,
    confidence: int)

  datatype ChecklistStatus = Pending | Complete | NotRequired

  datatype ChecklistItem = ChecklistItem(task: string, status: ChecklistStatus)

  datatype Severity = Minor | Moderate | Severe | TotalLoss

  datatype LineItem = LineItem(description: string, amount: real, flagged: bool)

  datatype InvoiceData = InvoiceData(
    totalAmount: real,
    lineItems: seq<LineItem>,
    anomalies: seq<string>,
    coveredItems: seq<string>,
    nonCoveredItems: seq<string>,
    coverageSummary: string)

  datatype InvestigationData = InvestigationData(
    severity: Severity,
    estimatedCostRange: string,
    liability: string,
    checklist: seq<ChecklistItem>,
    adjusterSummary: string,
    invoiceAnalysis: Option<InvoiceData>,
    askAiResponse: Option<string>)

  /** The sum of the amounts of a list of invoice line items. */
  function SumAmounts(items: seq<LineItem>): real
  {
    if items == [] then 0.0 else items[0].amount + SumAmounts(items[1..])
  }
}
