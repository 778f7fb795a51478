/** The static finding catalog of the risk-analysis panel
    (src/components/RiskAnalysis.tsx, `allRisksByFile`): fifteen risks for each of
    the three document classes, in the order the table lists them.

    The table is kept in columns (ids, severities, texts) rather than rows, so that
    facts about ids and severities can be proved without the verifier having to
    take apart the long description strings. `AllRisks` zips the columns back into
    the rows the program works with. */
module Catalog {
  import opened Wrappers

  datatype FileType = Nda | Contract | Policy

  datatype Severity = High | Medium | Low

  /** A finding; `fix` is optional in the program's `Risk` interface. */
  datatype Risk = Risk(id: string, severity: Severity, description: string, explanation: string, fix: Option<string>)

  /** The free-text part of one catalog row. */
  datatype RiskText = RiskText(description: string, explanation: string, fix: Option<string>)

  predicate IsHigh(r: Risk) { r.severity == High }

  /** No two entries of `s` share an id. */
  predicate DistinctIds(s: seq<Risk>) {
    forall i, j :: 0 <= i < j < |s| ==> s[i].id != s[j].id
  }

  predicate DistinctStrings(s: seq<string>) {
    forall i, j :: 0 <= i < j < |s| ==> s[i] != s[j]
  }

  /** Zips the columns of a catalog into its rows; `text(k)` is the text of row `k`. */
  function Rows(ids: seq<string>, severities: seq<Severity>, text: nat -> RiskText): (rows: seq<Risk>)
    requires |ids| == |severities|
    ensures |rows| == |ids|
    ensures forall k :: 0 <= k < |rows| ==> rows[k].id == ids[k] && rows[k].severity == severities[k]
  {
    seq(|ids|, k requires 0 <= k < |ids| =>
      Risk(ids[k], severities[k], text(k).description, text(k).explanation, text(k).fix))
  }

  const NdaIds: seq<string> :=
    ["nda-1", "nda-2", "nda-3", "nda-4", "nda-5", "nda-6", "nda-7", "nda-8", "nda-9", "nda-10", "nda-11", "nda-12", "nda-13", "nda-14", "nda-15"]

  const NdaSeverities: seq<Severity> :=
    [High, High, High, Medium, Medium, Medium, Medium, Medium, Low, Low, Low, High, Medium, Low, High]

  /** Texts of the `nda` rows, by 0-based row number; the last case is row 14. */
  function NdaText(k: nat): RiskText {
    match k
    case 0 => RiskText(
      "Undefined confidentiality period",
      "The agreement lacks a specific timeframe for confidentiality obligations.",
      Some("Added a standard 5-year confidentiality period with automatic renewal option."))
    case 1 => RiskText(
      "Missing data breach notification clause",
      "No provisions for handling and reporting data breaches.",
      Some("Inserted comprehensive data breach notification requirements with 72-hour reporting timeline."))
    case 2 => RiskText(
      "Insufficient IP protection measures",
      "Intellectual property safeguards are not adequately defined.",
      Some("Added detailed IP protection protocols and ownership clarifications."))
    case 3 => RiskText(
      "Vague confidential information definition",
      "The scope of confidential information needs more specific boundaries.",
      Some("Enhanced definition with specific categories and examples of confidential information."))
    case 4 => RiskText(
      "Unclear return/destruction procedures",
      "Procedures for handling confidential materials post-termination are ambiguous.",
      Some("Added detailed protocol for material return or destruction with verification requirements."))
    case 5 => RiskText(
      "Missing third-party disclosure terms",
      "No clear guidelines for sharing information with third parties.",
      Some("Implemented structured third-party disclosure framework with approval process."))
    case 6 => RiskText(
      "Inadequate employee compliance measures",
      "Employee adherence to NDA terms isn't properly addressed.",
      Some("Added employee training requirements and compliance monitoring procedures."))
    case 7 => RiskText(
      "Weak survivorship clause",
      "Post-termination obligations are not clearly defined.",
      Some("Strengthened survivorship clause with specific post-termination requirements."))
    case 8 => RiskText(
      "Missing contact information",
      "Key contact points for notices are not specified.",
      Some("Added designated contact information for both parties."))
    case 9 => RiskText(
      "Unclear jurisdiction definition",
      "Governing law and jurisdiction are not explicitly stated.",
      Some("Specified applicable law and jurisdiction for dispute resolution."))
    case 10 => RiskText(
      "Incomplete signature requirements",
      "Document execution requirements are not fully detailed.",
      Some("Added clear signature and execution requirements including digital signatures."))
    case 11 => RiskText(
      "Missing trade secret identification",
      "No process for marking or identifying trade secrets.",
      Some("Implemented clear trade secret marking and identification procedures."))
    case 12 => RiskText(
      "Insufficient audit rights",
      "Limited ability to verify compliance with agreement terms.",
      Some("Added comprehensive audit rights and procedures."))
    case 13 => RiskText(
      "Ambiguous notice period",
      "Timeline for required notices is not clearly defined.",
      Some("Specified notice periods and acceptable delivery methods."))
    case _ => RiskText(
      "Weak remedies clause",
      "Available remedies for breach are not comprehensively outlined.",
      Some("Enhanced remedies clause with specific enforcement mechanisms."))
  }

  const ContractIds: seq<string> :=
    ["contract-1", "contract-2", "contract-3", "contract-4", "contract-5", "contract-6", "contract-7", "contract-8", "contract-9", "contract-10", "contract-11", "contract-12", "contract-13", "contract-14", "contract-15"]

  const ContractSeverities: seq<Severity> :=
    [High, High, High, Medium, Medium, Medium, High, Medium, Low, Low, High, Medium, Low, Medium, High]

  /** Texts of the `contract` rows, by 0-based row number; the last case is row 14. */
  function ContractText(k: nat): RiskText {
    match k
    case 0 => RiskText(
      "Inadequate liability cap",
      "The liability limitation is disproportionate to contract value.",
      Some("Adjusted liability cap to standard 12-month fee equivalent."))
    case 1 => RiskText(
      "Missing service levels",
      "No defined performance metrics or standards.",
      Some("Added comprehensive SLA with specific performance metrics."))
    case 2 => RiskText(
      "Weak termination rights",
      "Termination conditions are not clearly defined.",
      Some("Added detailed termination triggers and procedures."))
    case 3 => RiskText(
      "Unclear payment terms",
      "Payment schedule and conditions need clarification.",
      Some("Specified payment timeline and late payment consequences."))
    case 4 => RiskText(
      "Incomplete force majeure",
      "Force majeure events not comprehensively covered.",
      Some("Updated force majeure clause with modern contingencies."))
    case 5 => RiskText(
      "Missing change control",
      "No formal process for contract modifications.",
      Some("Implemented structured change management procedures."))
    case 6 => RiskText(
      "Inadequate data protection",
      "Data handling requirements not sufficiently detailed.",
      Some("Added comprehensive data protection and privacy measures."))
    case 7 => RiskText(
      "Vague acceptance criteria",
      "Deliverable acceptance process needs clarification.",
      Some("Defined clear acceptance criteria and testing procedures."))
    case 8 => RiskText(
      "Missing escalation procedure",
      "No clear path for dispute resolution.",
      Some("Added structured escalation and resolution process."))
    case 9 => RiskText(
      "Unclear warranty terms",
      "Warranty coverage and duration not specified.",
      Some("Added detailed warranty terms and conditions."))
    case 10 => RiskText(
      "Insufficient IP rights",
      "Intellectual property ownership not clearly defined.",
      Some("Clarified IP ownership and usage rights."))
    case 11 => RiskText(
      "Missing insurance requirements",
      "Required insurance coverage not specified.",
      Some("Added detailed insurance requirements and limits."))
    case 12 => RiskText(
      "Incomplete notice provisions",
      "Notice requirements need more detail.",
      Some("Enhanced notice provisions with specific requirements."))
    case 13 => RiskText(
      "Weak confidentiality terms",
      "Confidentiality obligations need strengthening.",
      Some("Enhanced confidentiality provisions and safeguards."))
    case _ => RiskText(
      "Missing compliance requirements",
      "Regulatory compliance obligations not specified.",
      Some("Added comprehensive compliance requirements."))
  }

  const PolicyIds: seq<string> :=
    ["policy-1", "policy-2", "policy-3", "policy-4", "policy-5", "policy-6", "policy-7", "policy-8", "policy-9", "policy-10", "policy-11", "policy-12", "policy-13", "policy-14", "policy-15"]

  const PolicySeverities: seq<Severity> :=
    [High, High, High, Medium, Medium, Medium, High, Medium, Low, Low, High, Medium, Low, Medium, High]

  /** Texts of the `policy` rows, by 0-based row number; the last case is row 14. */
  function PolicyText(k: nat): RiskText {
    match k
    case 0 => RiskText(
      "Outdated GDPR compliance",
      "Privacy policy lacks current GDPR requirements.",
      Some("Updated with latest GDPR compliance measures and user rights."))
    case 1 => RiskText(
      "Missing CCPA provisions",
      "California privacy requirements not addressed.",
      Some("Added CCPA-specific provisions and consumer rights."))
    case 2 => RiskText(
      "Incomplete data collection disclosure",
      "Data collection practices not fully transparent.",
      Some("Enhanced data collection disclosure with specific details."))
    case 3 => RiskText(
      "Vague cookie policy",
      "Cookie usage and purposes need clarification.",
      Some("Added detailed cookie classification and purposes."))
    case 4 => RiskText(
      "Unclear data retention",
      "Data retention periods not specified.",
      Some("Added specific data retention timeframes and procedures."))
    case 5 => RiskText(
      "Missing breach notification",
      "Data breach notification process not outlined.",
      Some("Added comprehensive breach notification procedures."))
    case 6 => RiskText(
      "Insufficient consent mechanisms",
      "User consent collection needs improvement.",
      Some("Implemented robust consent collection and management."))
    case 7 => RiskText(
      "Weak cross-border transfer",
      "International data transfer safeguards inadequate.",
      Some("Enhanced international data transfer provisions."))
    case 8 => RiskText(
      "Missing contact details",
      "Privacy contact information not provided.",
      Some("Added complete privacy contact information."))
    case 9 => RiskText(
      "Unclear complaint procedure",
      "User complaint process needs clarification.",
      Some("Added detailed complaint handling procedure."))
    case 10 => RiskText(
      "Incomplete child privacy",
      "Child data protection measures inadequate.",
      Some("Enhanced child privacy protection measures."))
    case 11 => RiskText(
      "Missing vendor management",
      "Third-party data handling not addressed.",
      Some("Added vendor data handling requirements."))
    case 12 => RiskText(
      "Unclear policy updates",
      "Policy update notification process not defined.",
      Some("Added clear policy update procedures."))
    case 13 => RiskText(
      "Weak security measures",
      "Data security measures need enhancement.",
      Some("Strengthened data security provisions."))
    case _ => RiskText(
      "Missing rights exercise",
      "User rights exercise process unclear.",
      Some("Added detailed user rights exercise procedures."))
  }

  /** `allRisksByFile[fileType]`. */
  function AllRisks(ft: FileType): seq<Risk> {
    match ft
    case Nda => Rows(NdaIds, NdaSeverities, NdaText)
    case Contract => Rows(ContractIds, ContractSeverities, ContractText)
    case Policy => Rows(PolicyIds, PolicySeverities, PolicyText)
  }

  lemma NdaIdsDistinct()
    ensures DistinctStrings(NdaIds)
  {
  }

  lemma ContractIdsDistinct()
    ensures DistinctStrings(ContractIds)
  {
  }

  lemma PolicyIdsDistinct()
    ensures DistinctStrings(PolicyIds)
  {
  }

  /** Rows zipped from a column of distinct ids keep distinct ids and the
      column's severities. */
  lemma RowsShape(ids: seq<string>, severities: seq<Severity>, text: nat -> RiskText)
    requires |ids| == |severities| == 15 && DistinctStrings(ids)
    requires severities[0] == High && severities[3] != High && severities[4] != High
    ensures var rows := Rows(ids, severities, text);
            && |rows| == 15 && DistinctIds(rows)
            && IsHigh(rows[0]) && !IsHigh(rows[3]) && !IsHigh(rows[4])
  {
  }

  /** The facts about the table that the sampler relies on: fifteen rows with distinct
      ids, the first row high-severity and rows 3 and 4 (0-based) not. */
  lemma CatalogShape(ft: FileType)
    ensures |AllRisks(ft)| == 15
    ensures DistinctIds(AllRisks(ft))
    ensures IsHigh(AllRisks(ft)[0])
    ensures !IsHigh(AllRisks(ft)[3]) && !IsHigh(AllRisks(ft)[4])
  {
    match ft
    case Nda =>
      NdaIdsDistinct();
      RowsShape(NdaIds, NdaSeverities, NdaText);
    case Contract =>
      ContractIdsDistinct();
      RowsShape(ContractIds, ContractSeverities, ContractText);
    case Policy =>
      PolicyIdsDistinct();
      RowsShape(PolicyIds, PolicySeverities, PolicyText);
  }
}
