/**
 * The mock API layer the pricing page and the mock contract flow use:
 * constant lists, lookups by id, rule filtering and id stamping. The
 * simulated delays are not modelled; `Date.now()` and `Math.random()`
 * are parameters.
 */
module MockApi {
  import opened Wrappers
  import opened Js
  import opened Types
  import Seqs

  const MOCK_CONTRACTS: seq<Contract> := [
    Contract("ct-001", "Blue Cross Blue Shield", "BCBS-2024-001", "2024-01-01", "2024-12-31", Active,
             "/contracts/bcbs-001.pdf", "2024-01-15T10:00:00Z", 247),
    Contract("ct-002", "United Healthcare", "UHC-2024-003", "2024-02-01", "2024-12-31", Active,
             "/contracts/uhc-003.pdf", "2024-02-10T14:30:00Z", 189),
    Contract("ct-003", "Aetna", "AET-2024-007", "2024-01-15", "2024-12-31", Active,
             "/contracts/aetna-007.pdf", "2024-01-20T09:15:00Z", 312)
  ]

  const MOCK_CLAIMS: seq<Claim> := [
    Claim("cl-001", "pt-1234", "John Smith", "99213", "Office Visit - Level 3", "2024-11-15",
          150.0, 120.0, Some(115.0), Str("paid"), "Blue Cross Blue Shield", Some(-5.0), "2024-11-16T08:00:00Z"),
    Claim("cl-002", "pt-5678", "Sarah Johnson", "80053", "Comprehensive Metabolic Panel", "2024-11-18",
          85.0, 68.0, None, Str("processing"), "United Healthcare", None, "2024-11-19T10:30:00Z"),
    Claim("cl-003", "pt-9012", "Michael Chen", "93000", "Electrocardiogram", "2024-11-20",
          120.0, 95.0, Some(85.0), Str("paid"), "Aetna", Some(-10.0), "2024-11-21T09:00:00Z"),
    Claim("cl-004", "pt-3456", "Emily Davis", "99214", "Office Visit - Level 4", "2024-11-22",
          200.0, 160.0, None, Str("denied"), "Blue Cross Blue Shield", None, "2024-11-23T11:00:00Z")
  ]

  const MOCK_PRICING_RULES: seq<PricingRule> := [
    PricingRule("pr-001", "ct-001", "99213", "Office Visit - Level 3", 120.0, Fixed, None),
    PricingRule("pr-002", "ct-001", "99214", "Office Visit - Level 4", 160.0, Fixed, None)
  ]

  /** The mock claims are internally consistent: variance is actual minus expected, and null when unpaid. */
  lemma MockClaimsConsistent()
    ensures forall i :: 0 <= i < |MOCK_CLAIMS| ==>
              && (MOCK_CLAIMS[i].variance.Some? <==> MOCK_CLAIMS[i].actualReimbursement.Some?)
              && (MOCK_CLAIMS[i].variance.Some? ==>
                    MOCK_CLAIMS[i].variance.value
                    == MOCK_CLAIMS[i].actualReimbursement.value - MOCK_CLAIMS[i].expectedReimbursement)
  {
  }

  /** `contractsAPI.getById`: `find(c => c.id === id) || null`. */
  function ContractsGetById(id: string): (r: Option<Contract>)
    ensures r.None? <==> forall i :: 0 <= i < |MOCK_CONTRACTS| ==> MOCK_CONTRACTS[i].id != id
    ensures r.Some? ==> exists i :: 0 <= i < |MOCK_CONTRACTS| && MOCK_CONTRACTS[i] == r.value && r.value.id == id
                                    && forall j :: 0 <= j < i ==> MOCK_CONTRACTS[j].id != id
  {
    Seqs.FindFirst(MOCK_CONTRACTS, (c: Contract) => c.id == id)
  }

  /** `claimsAPI.getById`: `find(c => c.id === id) || null`. */
  function ClaimsGetById(id: string): (r: Option<Claim>)
    ensures r.None? <==> forall i :: 0 <= i < |MOCK_CLAIMS| ==> MOCK_CLAIMS[i].id != id
    ensures r.Some? ==> exists i :: 0 <= i < |MOCK_CLAIMS| && MOCK_CLAIMS[i] == r.value && r.value.id == id
                                    && forall j :: 0 <= j < i ==> MOCK_CLAIMS[j].id != id
  {
    Seqs.FindFirst(MOCK_CLAIMS, (c: Claim) => c.id == id)
  }

  /** Every listed contract is found by its own id. */
  lemma ContractsFoundByOwnId()
    ensures forall i :: 0 <= i < |MOCK_CONTRACTS| ==> ContractsGetById(MOCK_CONTRACTS[i].id) == Some(MOCK_CONTRACTS[i])
  {
    assert forall i, j :: 0 <= i < j < |MOCK_CONTRACTS| ==> MOCK_CONTRACTS[i].id != MOCK_CONTRACTS[j].id;
    forall i | 0 <= i < |MOCK_CONTRACTS|
      ensures ContractsGetById(MOCK_CONTRACTS[i].id) == Some(MOCK_CONTRACTS[i])
    {
      var r := ContractsGetById(MOCK_CONTRACTS[i].id);
      assert r.Some?;
      var k :| 0 <= k < |MOCK_CONTRACTS| && MOCK_CONTRACTS[k] == r.value && r.value.id == MOCK_CONTRACTS[i].id
               && forall j :: 0 <= j < k ==> MOCK_CONTRACTS[j].id != MOCK_CONTRACTS[i].id;
      assert k == i;
    }
  }

  /** Every listed claim is found by its own id. */
  lemma ClaimsFoundByOwnId()
    ensures forall i :: 0 <= i < |MOCK_CLAIMS| ==> ClaimsGetById(MOCK_CLAIMS[i].id) == Some(MOCK_CLAIMS[i])
  {
    assert forall i, j :: 0 <= i < j < |MOCK_CLAIMS| ==> MOCK_CLAIMS[i].id != MOCK_CLAIMS[j].id;
    forall i | 0 <= i < |MOCK_CLAIMS|
      ensures ClaimsGetById(MOCK_CLAIMS[i].id) == Some(MOCK_CLAIMS[i])
    {
      var r := ClaimsGetById(MOCK_CLAIMS[i].id);
      assert r.Some?;
      var k :| 0 <= k < |MOCK_CLAIMS| && MOCK_CLAIMS[k] == r.value && r.value.id == MOCK_CLAIMS[i].id
               && forall j :: 0 <= j < k ==> MOCK_CLAIMS[j].id != MOCK_CLAIMS[i].id;
      assert k == i;
    }
  }

  /** `pricingAPI.getRules`: the rules of one contract, in their listed order. */
  function PricingGetRules(contractId: string): (r: seq<PricingRule>)
    ensures Seqs.IsSubsequence(r, MOCK_PRICING_RULES)
    ensures forall i :: 0 <= i < |r| ==> r[i].contractId == contractId
    ensures forall i :: 0 <= i < |MOCK_PRICING_RULES| && MOCK_PRICING_RULES[i].contractId == contractId ==>
              MOCK_PRICING_RULES[i] in r
  {
    Seqs.FilterIsSubsequence(MOCK_PRICING_RULES, (r: PricingRule) => r.contractId == contractId);
    Seqs.Filter(MOCK_PRICING_RULES, (r: PricingRule) => r.contractId == contractId)
  }

  /** Both mock rules belong to ct-001; every other contract has none. */
  lemma RulesOfMockContracts(contractId: string)
    ensures contractId == "ct-001" ==> PricingGetRules(contractId) == MOCK_PRICING_RULES
    ensures contractId != "ct-001" ==> PricingGetRules(contractId) == []
  {
    var p := (r: PricingRule) => r.contractId == contractId;
    if contractId == "ct-001" {
      Seqs.FilterAll(MOCK_PRICING_RULES, p);
    } else {
      Seqs.FilterNone(MOCK_PRICING_RULES, p);
    }
  }

  /** The argument of `claimsAPI.create`: a claim without `id` and `submittedDate`. */
  datatype ClaimDraft = ClaimDraft(
    patientId: string,
    patientName: string,
    procedureCode: string,
    procedureName: string,
    dateOfService: string,
    billedAmount: real,
    expectedReimbursement: real,
    actualReimbursement: Option<real>,
    status: JsValue,
    payerName: string,
    variance: Option<real>)

  const CLAIM_ID_PREFIX: string := "cl-"

  /** `claimsAPI.create`: the draft spread, stamped with `cl-${Date.now()}` and the ISO time. */
  function ClaimsCreate(draft: ClaimDraft, nowMs: nat, nowIso: string): (c: Claim)
    ensures CLAIM_ID_PREFIX <= c.id && AllDigits(c.id[|CLAIM_ID_PREFIX|..])
    ensures ParseDigits(c.id[|CLAIM_ID_PREFIX|..]) == nowMs
    ensures c.submittedDate == nowIso
    ensures c.patientId == draft.patientId && c.patientName == draft.patientName
    ensures c.procedureCode == draft.procedureCode && c.procedureName == draft.procedureName
    ensures c.dateOfService == draft.dateOfService && c.billedAmount == draft.billedAmount
    ensures c.expectedReimbursement == draft.expectedReimbursement
    ensures c.actualReimbursement == draft.actualReimbursement && c.status == draft.status
    ensures c.payerName == draft.payerName && c.variance == draft.variance
  {
    var id := CLAIM_ID_PREFIX + NatToString(nowMs);
    assert id[|CLAIM_ID_PREFIX|..] == NatToString(nowMs);
    ParseNatToString(nowMs);
    Claim(id, draft.patientId, draft.patientName, draft.procedureCode, draft.procedureName, draft.dateOfService,
          draft.billedAmount, draft.expectedReimbursement, draft.actualReimbursement, draft.status,
          draft.payerName, draft.variance, nowIso)
  }

  /** Claims created at different milliseconds get different ids. */
  lemma CreatedIdsDistinct(d1: ClaimDraft, d2: ClaimDraft, t1: nat, t2: nat, iso1: string, iso2: string)
    requires t1 != t2
    ensures ClaimsCreate(d1, t1, iso1).id != ClaimsCreate(d2, t2, iso2).id
  {
  }

  /** What `pricingAPI.calculate` resolves to. */
  datatype CalcResult = CalcResult(procedureCode: string, procedureName: string, expectedReimbursement: real,
                                   confidence: real, contractReference: string)

  /**
   * `pricingAPI.calculate`; `random1` and `random2` are the two
   * `Math.random()` draws, each in [0, 1). The payer is not consulted.
   */
  function PricingCalculate(procedureCode: string, payerName: string, random1: real, random2: real): (r: CalcResult)
    requires 0.0 <= random1 < 1.0 && 0.0 <= random2 < 1.0
    ensures r.procedureCode == procedureCode
    ensures r.procedureName == "Sample Procedure" && r.contractReference == "ct-001"
    ensures 50.0 <= r.expectedReimbursement <= 349.0 && r.expectedReimbursement == r.expectedReimbursement.Floor as real
    ensures 0.85 <= r.confidence < 1.0
  {
    CalcResult(procedureCode, "Sample Procedure", ((random1 * 300.0).Floor + 50) as real,
               0.85 + random2 * 0.15, "ct-001")
  }

  /** The result does not depend on the payer. */
  lemma CalculateIgnoresPayer(code: string, p1: string, p2: string, random1: real, random2: real)
    requires 0.0 <= random1 < 1.0 && 0.0 <= random2 < 1.0
    ensures PricingCalculate(code, p1, random1, random2) == PricingCalculate(code, p2, random1, random2)
  {
  }

  /**
   * `contractsAPI.upload`: always a success, whatever the file; `now1` and
   * `now2` are the two `Date.now()` calls and `random` the draw for the
   * procedure count.
   */
  function ContractsUpload(now1: nat, now2: nat, random: real): (r: UploadResponse)
    requires 0.0 <= random < 1.0
    ensures r.success && r.message == "Contract uploaded and processed successfully"
    ensures r.contractId == Some("ct-" + NatToString(now1))
    ensures r.extractedData.Some?
    ensures r.extractedData.value.payerName == "Sample Payer"
    ensures r.extractedData.value.contractNumber == Str("SMPL-" + NatToString(now2))
    ensures 50 <= r.extractedData.value.proceduresFound <= 249
  {
    UploadResponse(true, Some("ct-" + NatToString(now1)), "Contract uploaded and processed successfully",
                   Some(ExtractedData("Sample Payer", Str("SMPL-" + NatToString(now2)), (random * 200.0).Floor + 50)))
  }
}
