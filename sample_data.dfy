/**
 * The sample-data tables and the index-selection helpers (data/dummyData.ts).
 * Every "AI" result the demo shows is one entry of these tables, chosen by
 * `Math.random()`; the random number is a parameter `r` with 0 <= r < 1.
 */
module SampleData {
  import opened Basics
  import opened ClaimTypes

  /** The ten liability statements (dummyData.ts, LIABILITY VARIANTS). */
  const LiabilityVariants: seq<string> := [
    "100% Insured At-Fault (Rear End)",
    "0% Insured Fault (Rear Ended)",
    "Comparative Negligence (50/50)",
    "100% Third Party Fault (Failure to Yield)",
    "No Fault (Act of Nature/Weather)",
    "Shared Liability (80/20 Insured)",
    "Comprehensive Only (Theft/Vandalism)",
    "Under Investigation (Conflicting Statements)",
    "0% Fault (Hit while Parked)",
    "100% Insured At-Fault (Single Vehicle)"
  ]

  /** The ten investigation checklists (dummyData.ts, CHECKLIST VARIANTS). */
  const ChecklistVariants: seq<seq<ChecklistItem>> := [
    [
      ChecklistItem("Police Report Verification", Pending),
      ChecklistItem("Witness Statement Collection", Pending),
      ChecklistItem("Coverage Confirmation", Complete),
      ChecklistItem("Deductible Payment", Pending),
      ChecklistItem("Repair Estimate Upload", Pending),
      ChecklistItem("Scene Photos Analysis", Complete)
    ],
    [
      ChecklistItem("Mitigation Invoice Review", Pending),
      ChecklistItem("Moisture Map Analysis", Complete),
      ChecklistItem("Contents Inventory List", Pending),
      ChecklistItem("Coverage Confirmation", Complete),
      ChecklistItem("Cause & Origin Report", Complete)
    ],
    [
      ChecklistItem("Police Report Verification", Complete),
      ChecklistItem("Proof of Ownership (Title)", Complete),
      ChecklistItem("Key Account Statement", Pending),
      ChecklistItem("SIU Referral Review", Pending),
      ChecklistItem("Total Loss Valuation", Pending)
    ],
    [
      ChecklistItem("Meteorological Report", Complete),
      ChecklistItem("Roof Inspection Report", Pending),
      ChecklistItem("Contractor Estimate Review", Pending),
      ChecklistItem("Prior Loss Check", Complete),
      ChecklistItem("Deductible Confirmation", Complete)
    ],
    [
      ChecklistItem("Incident Report Review", Pending),
      ChecklistItem("CCTV Footage Request", Pending),
      ChecklistItem("Claimant Medical Records", Pending),
      ChecklistItem("Lease Agreement Review", Complete),
      ChecklistItem("Witness Statements", Pending)
    ],
    [
      ChecklistItem("Photo Evidence Review", Complete),
      ChecklistItem("Repair Estimate", Pending),
      ChecklistItem("Deductible Waiver Check", Complete),
      ChecklistItem("Towing Invoice", Pending)
    ],
    [
      ChecklistItem("Police Report Verification", Complete),
      ChecklistItem("Photos of Damages", Complete),
      ChecklistItem("Repair Estimate", Pending),
      ChecklistItem("Neighborhood Canvas", NotRequired)
    ],
    [
      ChecklistItem("PDR Estimate Review", Pending),
      ChecklistItem("Scan for Hidden Damage", Pending),
      ChecklistItem("Rental Vehicle Authorization", Complete),
      ChecklistItem("Coverage Check", Complete)
    ],
    [
      ChecklistItem("Fire Marshall Report", Pending),
      ChecklistItem("Restoration Estimate", Pending),
      ChecklistItem("ALE (Living Expenses) Review", Pending),
      ChecklistItem("Inventory Loss List", Pending)
    ],
    [
      ChecklistItem("Police Report Verification", Pending),
      ChecklistItem("Cyclist Statement", Pending),
      ChecklistItem("Medical Bills Review", Pending),
      ChecklistItem("Driver Statement", Complete),
      ChecklistItem("Scene Diagram", Pending)
    ]
  ]

  /** The ten first-notice-of-loss records (dummyData.ts, FNOL VARIANTS), without their timestamp. */
  const FnolRows: seq<FnolRow> := [
    FnolRow("CLM-2024-8821", "POL-993821-NY", "Alice Johnson", "2022 Tesla Model 3",
            "Comprehensive Auto", "Vehicle Collision",
            "Insured reports being rear-ended at a stop light on 5th Avenue. Photo evidence shows bumper damage and cracked tail light. No injuries reported."),
    FnolRow("CLM-2024-1102", "POL-112233-CA", "Robert Smith", "N/A (Property)",
            "Homeowners HO-3", "Water Damage",
            "Insured returned home to find kitchen flooded. Suspected pipe burst under the sink. Hardwood flooring in kitchen and hallway is warped."),
    FnolRow("CLM-2024-4456", "POL-445566-TX", "Charlie Davis", "2019 Ford F-150",
            "Commercial Auto", "Theft",
            "Vehicle broken into while parked overnight at job site. Passenger side window smashed. Tools and personal items reported missing."),
    FnolRow("CLM-2024-7789", "POL-778899-FL", "Diana Prince", "N/A (Property)",
            "Condo Unit Owner", "Wind Damage",
            "Hurricane debris shattered sliding glass door. Water ingress in living room. Carpet soaked, furniture damaged."),
    FnolRow("CLM-2024-0011", "POL-000111-IL", "Evan Wright", "N/A (Liability)",
            "General Liability", "Slip and Fall",
            "Third party claims they slipped on icy walkway at insured premises. Report mentions back pain. Video doorbell footage available."),
    FnolRow("CLM-2024-2234", "POL-223456-WA", "Fiona Gallagher", "2020 Subaru Outback",
            "Personal Auto", "Animal Collision",
            "Insured hit a deer on rural highway. Front grille, headlights, and hood significantly damaged. Airbags did not deploy."),
    FnolRow("CLM-2024-3345", "POL-334567-AZ", "George Miller", "2023 Toyota Camry",
            "Personal Auto", "Vandalism",
            "Car was keyed across multiple panels while parked at shopping mall. Tires slashed. Police report filed."),
    FnolRow("CLM-2024-4457", "POL-445789-MA", "Hannah Lee", "2021 Honda CR-V",
            "Personal Auto", "Hail Damage",
            "Severe hail storm caused dents on hood, roof, and trunk. Windshield cracked. Vehicle was parked in driveway."),
    FnolRow("CLM-2024-9901", "POL-990011-OR", "Ian Malcolm", "N/A (Property)",
            "Renters Insurance", "Fire Damage",
            "Small grease fire in kitchen. Extinguished by insured. Smoke damage to cabinets and ceiling. Microwave destroyed."),
    FnolRow("CLM-2024-5566", "POL-556677-CO", "Julia Childs", "2024 Rav4 Hybrid",
            "Personal Auto", "Bike Collision",
            "Insured opening door struck passing cyclist. Cyclist minor abrasion. Bike front wheel bent. Insured accepts fault.")
  ]

  /** A table row of `FnolVariants` before the module-load clock reading is added. */
  datatype FnolRow = FnolRow(
    id: string,
    policyNumber: string,
    claimantName: string,
    vehicleDetails: string,
    policyType: string,
    incidentType: string,
    summary: string)

  /**
   * The FNOL table as the components see it: every record is stamped with the
   * clock reading taken when the module loads, `loadedAt` here.
   */
  function FnolVariants(loadedAt: string): (t: seq<FnolData>)
    ensures |t| == |FnolRows|
    ensures forall i :: 0 <= i < |t| ==> t[i].timestamp == loadedAt && t[i].id == FnolRows[i].id
  {
    seq(|FnolRows|, i requires 0 <= i < |FnolRows| => Stamp(FnolRows[i], loadedAt))
  }

  function Stamp(row: FnolRow, loadedAt: string): FnolData
  {
    FnolData(row.id, row.policyNumber, row.claimantName, row.vehicleDetails,
             row.policyType, row.incidentType, loadedAt, row.summary)
  }

  /** The ten triage records (dummyData.ts, TRIAGE VARIANTS). */
  const TriageVariants: seq<TriageData> := [
    TriageData(12, "Low risk. Incident aligns with weather reports and telematics data.",
               Low, "Auto-Bot Express", "Fast Track Auto",
               "Clear liability, minor damage, verification sources match.",
               98),
    TriageData(88, "High risk. Policy started 2 days ago. Photos metadata mismatch.",
               High, "Sarah Connor (SIU)", "Fraud Investigation",
               "Suspicious timing relative to policy inception. Requires manual SIU review.",
               92),
    TriageData(45, "Moderate risk. Previous claims history for similar incidents.",
               Medium, "Mike Ross", "Property Damage",
               "Standard property claim but frequent filer flag triggered.",
               88),
    TriageData(5, "Very low risk. Police report filed and consistent with statement.",
               Medium, "Harvey Specter", "Liability Disputes",
               "Third-party involvement complicates simple processing.",
               95),
    TriageData(25, "Low-Medium risk. High value items claimed without receipts yet.",
               High, "Jessica Pearson", "High Value Contents",
               "Requires proof of ownership validation for listed electronics.",
               85),
    TriageData(65, "Elevated risk. Inconsistent statements regarding driver identity.",
               High, "Saul Goodman", "Complex Liability",
               "Potential unlisted driver. Coverage verification needed.",
               89),
    TriageData(10, "Low risk. Dashcam footage corroborates insured account.",
               Low, "Auto-Bot Lite", "Express Handling",
               "Video evidence conclusive. Straight through processing candidate.",
               99),
    TriageData(30, "Low risk. Severity is high but facts are consistent.",
               High, "Olivia Pope", "Total Loss / Severe",
               "High dollar value exposure. Requires senior adjuster oversight.",
               94),
    TriageData(55, "Moderate risk. Late reporting of incident (>14 days).",
               Medium, "Alicia Florrick", "General Claims",
               "Delay in reporting needs explanation. Prejudice to investigation possible.",
               82),
    TriageData(18, "Low risk. Repeat customer with clean 10-year history.",
               Low, "Auto-Bot Premium", "VIP Handling",
               "VIP status detected. Expedite payment channels.",
               97)
  ]

  /**
   * The ten investigation records (dummyData.ts, INVESTIGATION VARIANTS); each
   * takes its liability statement and its checklist from the tables above by index.
   */
  const InvestigationVariants: seq<InvestigationData> := [
    InvestigationData(Minor, "$800 - $1,500",
                      LiabilityVariants[0], ChecklistVariants[0],
                      "Straightforward bumper repair. Shop network engaged. Subrogation potential high against adverse carrier.",
                      None, None),
    InvestigationData(Severe, "$40,000 - $55,000",
                      LiabilityVariants[4], ChecklistVariants[1],
                      "Significant structural damage. Temporary housing authorized. Cause and origin expert assigned.",
                      None, None),
    InvestigationData(Moderate, "$7,500 - $10,000",
                      LiabilityVariants[6], ChecklistVariants[2],
                      "Tools stolen from vehicle. Checking limits for business personal property under auto policy.",
                      None, None),
    InvestigationData(TotalLoss, "$19,000 - $24,000",
                      LiabilityVariants[5], ChecklistVariants[3],
                      "Roof compromised. Interior water damage substantial. Hotel approved for 3 nights.",
                      None, None),
    InvestigationData(Minor, "$350 - $600",
                      LiabilityVariants[2], ChecklistVariants[4],
                      "Slip and fall. Minor soft tissue injury alleged. Med pay limit likely sufficient.",
                      None, None),
    InvestigationData(Moderate, "$4,500 - $6,200",
                      LiabilityVariants[5], ChecklistVariants[5],
                      "Deer hit. Comprehensive claim. No fault chargeable. Estimate approved.",
                      None, None),
    InvestigationData(TotalLoss, "$32,000 - $35,000",
                      LiabilityVariants[6], ChecklistVariants[6],
                      "Vandalism extensive. Paint damage on all panels + slashed seats. Constructive total loss.",
                      None, None),
    InvestigationData(Moderate, "$2,500 - $4,000",
                      LiabilityVariants[4], ChecklistVariants[7],
                      "Hail damage. PDR (Paintless Dent Repair) scheduled. Rental authorized for repair duration.",
                      None, None),
    InvestigationData(Minor, "$1,200 - $1,800",
                      LiabilityVariants[8], ChecklistVariants[8],
                      "Smoke mitigation only. No structural fire damage. Cleaning crew dispatched.",
                      None, None),
    InvestigationData(Minor, "$400 - $800",
                      LiabilityVariants[0], ChecklistVariants[9],
                      "Cyclist bike wheel damage. Insured at fault. Quick settlement recommended to avoid BI escalation.",
                      None, None)
  ]

  /** The ten invoice records (dummyData.ts, INVOICE VARIANTS); amounts in dollars. */
  const InvoiceVariants: seq<InvoiceData> := [
    InvoiceData(
      1450.0,
      [
        LineItem("Bumper Cover", 450.0, false),
        LineItem("Paint & Labor", 800.0, false),
        LineItem("Misc Shop Supplies", 200.0, true)
      ],
      ["Shop supplies charge exceeds regional average (15% vs 5%)."],
      ["Bumper Cover", "Paint & Labor"],
      ["Excessive Shop Supplies"],
      "Primary repair items covered. Adjustment needed for supplies."),
    InvoiceData(
      5200.0,
      [
        LineItem("Water Extraction", 1200.0, false),
        LineItem("Dehumidifier Rental (7 days)", 1500.0, true),
        LineItem("Flooring Replacement", 2500.0, false)
      ],
      ["Rental duration inconsistent with square footage dried."],
      ["Water Extraction", "Flooring Replacement"],
      ["Excess Rental Days (3)"],
      "Mitigation covered. Rental equipment duration reduced to standard 4 days."),
    InvoiceData(
      320.0,
      [
        LineItem("Windshield OEM", 320.0, false)
      ],
      [],
      ["Windshield OEM"],
      [],
      "Full coverage for glass replacement. No deductible applied."),
    InvoiceData(
      12500.0,
      [
        LineItem("Roofing Materials", 5000.0, false),
        LineItem("Labor", 7500.0, true)
      ],
      ["Labor cost is 150% of materials; standard is 100-120%."],
      ["Roofing Materials", "Standard Labor Rate"],
      ["Premium Labor Surcharge"],
      "Material costs approved. Labor capped at regional prevailing rate."),
    InvoiceData(
      890.0,
      [
        LineItem("Emergency Towing", 890.0, true)
      ],
      ["Towing rate significantly higher than negotiated network rate."],
      ["Base Towing Fee (up to $500)"],
      ["Excess Mileage Charge"],
      "Towing covered up to policy limit ($500). Balance is insured responsibility."),
    InvoiceData(
      2100.0,
      [
        LineItem("Headlight Assembly", 1200.0, false),
        LineItem("Calibration", 900.0, true)
      ],
      ["Calibration cost exceeds OEM guidelines."],
      ["Headlight Assembly"],
      ["Calibration Markup"],
      "Parts covered. Calibration approved at standard 1.5 labor hours."),
    InvoiceData(
      450.0,
      [
        LineItem("Detailing Service", 450.0, true)
      ],
      ["Detailing is generally not covered unless related to biohazard."],
      [],
      ["Full Detailing"],
      "Denied. Cleaning/detailing is maintenance, not loss related."),
    InvoiceData(
      1800.0,
      [
        LineItem("Locksmith Services", 300.0, false),
        LineItem("Ignition Replacement", 1500.0, false)
      ],
      [],
      ["Locksmith", "Ignition Cylinder"],
      [],
      "Theft recovery repairs fully covered."),
    InvoiceData(
      9500.0,
      [
        LineItem("Medical Bills (ER)", 5000.0, false),
        LineItem("Physical Therapy", 4500.0, true)
      ],
      ["PT frequency exceeds standard treatment protocol for soft tissue."],
      ["ER Visit", "Initial PT Sessions"],
      ["Excessive PT Sessions"],
      "Emergency care covered. PT subject to independent medical review."),
    InvoiceData(
      600.0,
      [
        LineItem("Rental Car (Enterprise)", 600.0, false)
      ],
      [],
      ["10 Days Rental @ $60/day"],
      [],
      "Rental reimbursement approved within policy limits.")
  ]

  /** The ten canned assistant answers (dummyData.ts, ASK AI RESPONSES). */
  const AskAiResponses: seq<string> := [
    "Based on the photos, the impact angle suggests the other driver was merging, which supports our insured's statement.",
    "The water damage pattern indicates a slow leak over time rather than a sudden burst, which may raise coverage issues regarding 'sudden and accidental'.",
    "Checking the metadata, the photos were taken at the insured address, verifying the location.",
    "Comparing this invoice to regional benchmarks, the labor rate is in the 90th percentile.",
    "Based on previous similar claims, the settlement typically ranges between $2,500 and $3,000.",
    "I've flagged a potential mismatch: The damage height on the bumper doesn't align with the reported SUV impact.",
    "Policy limits for 'Loss of Use' are $30/day up to $900. The current rental request exceeds this daily limit.",
    "Weather reports for the date of loss confirm severe hail in the insured's zip code.",
    "The VIN decoding confirms this vehicle is equipped with ADAS, necessitating the calibration line item.",
    "Subrogation is recommended. The police report explicitly cites the other driver for 'Failure to Yield'."
  ]

  // ---------------------------------------------------------------------------
  // Index selection

  /** `Math.floor(r * len)`. */
  function RandomIndex(r: real, len: nat): (i: int)
    requires 0.0 <= r < 1.0
    ensures len > 0 ==> 0 <= i < len
    ensures len == 0 ==> i == 0
  {
    FloorBelow(r, len);
    (r * len as real).Floor
  }

  lemma FloorBelow(r: real, len: nat)
    requires 0.0 <= r < 1.0
    ensures 0.0 <= r * len as real
    ensures len > 0 ==> r * len as real < len as real
  {
    if len > 0 {
      assert r * len as real < 1.0 * len as real;
    }
  }

  /**
   * `getRandomData(arr)`: the element at `Math.floor(Math.random() * arr.length)`,
   * absent (`undefined`) when the array is empty.
   */
  function GetRandomData<T>(arr: seq<T>, r: real): (x: Option<T>)
    requires 0.0 <= r < 1.0
    ensures |arr| > 0 <==> x.Some?
    ensures x.Some? ==> x.value in arr
  {
    var i := RandomIndex(r, |arr|);
    if 0 <= i < |arr| then Some(arr[i]) else None
  }

  /** `table[i] || table[0]` for a table of records (a record is always truthy). */
  function Pick<T>(table: seq<T>, i: int): T
    requires |table| > 0
  {
    if 0 <= i < |table| then table[i] else table[0]
  }

  /** `table[i] || table[0]` for a table of strings: the empty string is falsy. */
  function PickText(table: seq<string>, i: int): string
    requires |table| > 0
  {
    if 0 <= i < |table| && table[i] != "" then table[i] else table[0]
  }

  /** What `generateDummyData` returns: one scenario drawn from each table. */
  datatype DummyData = DummyData(
    fnol: FnolData,
    triage: TriageData,
    investigation: InvestigationData,
    invoice: InvoiceData,
    askAi: string)

  /** The scenario `generateDummyData` builds once its index is drawn. */
  function ScenarioAt(index: int, loadedAt: string): DummyData
  {
    DummyData(
      Pick(FnolVariants(loadedAt), index),
      Pick(TriageVariants, index),
      Pick(InvestigationVariants, index),
      Pick(InvoiceVariants, index),
      PickText(AskAiResponses, index))
  }

  /**
   * `generateDummyData()`: one index drawn from the length of the FNOL table and
   * used for all five tables, so the scenario is the same row of every table and
   * none of the `|| table[0]` fallbacks is ever taken.
   */
  function GenerateDummyData(r: real, loadedAt: string): (d: DummyData)
    requires 0.0 <= r < 1.0
    ensures exists i :: 0 <= i < 10 && d == DummyData(
              FnolVariants(loadedAt)[i], TriageVariants[i], InvestigationVariants[i],
              InvoiceVariants[i], AskAiResponses[i])
  {
    var index := RandomIndex(r, |FnolVariants(loadedAt)|);
    ScenarioAt(index, loadedAt)
  }

  // ---------------------------------------------------------------------------
  // Properties of the tables

  /** All seven tables have ten entries, so any drawn index is valid in each. */
  lemma TablesHaveTenEntries(loadedAt: string)
    ensures |LiabilityVariants| == |ChecklistVariants| == |FnolVariants(loadedAt)| == 10
    ensures |TriageVariants| == |InvestigationVariants| == |InvoiceVariants| == |AskAiResponses| == 10
  {
  }

  /** For an index in 0..9 no fallback fires: every table yields its own row. */
  lemma {:induction false} NoFallbackInRange(i: int, loadedAt: string)
    requires 0 <= i < 10
    ensures ScenarioAt(i, loadedAt) == DummyData(
              FnolVariants(loadedAt)[i], TriageVariants[i], InvestigationVariants[i],
              InvoiceVariants[i], AskAiResponses[i])
  {
    AskAiResponsesNonEmpty();
  }

  lemma AskAiResponsesNonEmpty()
    ensures forall i :: 0 <= i < |AskAiResponses| ==> AskAiResponses[i] != ""
  {
    forall i | 0 <= i < |AskAiResponses|
      ensures AskAiResponses[i] != ""
    {
      assert |AskAiResponses[i]| > 0;
    }
  }

  /** Every invoice's total equals the sum of its line-item amounts. */
  lemma InvoiceTotalsMatchLineItems()
    ensures forall i :: 0 <= i < |InvoiceVariants| ==>
              InvoiceVariants[i].totalAmount == SumAmounts(InvoiceVariants[i].lineItems)
  {
  }

  /** Every triage record keeps fraudScore and confidence within 0..100. */
  lemma TriageScoresInRange()
    ensures forall i :: 0 <= i < |TriageVariants| ==>
              0 <= TriageVariants[i].fraudScore <= 100 && 0 <= TriageVariants[i].confidence <= 100
  {
  }

  /** Every investigation record's liability and checklist come from the tables. */
  lemma InvestigationsDrawFromTables()
    ensures forall i :: 0 <= i < |InvestigationVariants| ==>
              InvestigationVariants[i].liability in LiabilityVariants
              && InvestigationVariants[i].checklist in ChecklistVariants
  {
  }
}
