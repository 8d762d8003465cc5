/**
 * The claims page: reading claim rows of any shape from the backend and
 * mapping each onto a `Claim`, with the fallbacks between alternative
 * column names.
 */
module ClaimsPage {
  import opened Wrappers
  import opened Js
  import opened Types
  import Seqs

  /** `pickFirst(...values)`: the first value that is neither null nor undefined. */
  function PickFirst(values: seq<JsValue>): (r: JsValue)
    ensures IsNullish(r) <==> forall i :: 0 <= i < |values| ==> IsNullish(values[i])
    ensures IsNullish(r) ==> r == Undefined
    ensures !IsNullish(r) ==>
              exists i :: 0 <= i < |values| && values[i] == r && forall j :: 0 <= j < i ==> IsNullish(values[j])
  {
    match Seqs.FindFirst(values, (v: JsValue) => !IsNullish(v))
    case None => Undefined
    case Some(v) => v
  }

  /** The chain `values[0] ?? values[1] ?? ... ?? undefined`. */
  function CoalesceAll(values: seq<JsValue>): JsValue
  {
    if values == [] then Undefined else Coalesce(values[0], CoalesceAll(values[1..]))
  }

  /** `pickFirst` and a chain of `??` agree. */
  lemma {:induction false} PickFirstIsCoalesceChain(values: seq<JsValue>)
    ensures PickFirst(values) == CoalesceAll(values)
  {
    if values != [] {
      PickFirstIsCoalesceChain(values[1..]);
      if IsNullish(values[0]) {
        assert forall i :: 0 <= i < |values[1..]| ==> values[1..][i] == values[i + 1];
      }
    }
  }

  /** `toNumberOrZero`: a finite number is kept, anything else goes through `Number`, NaN becomes 0. */
  function ToNumberOrZero(v: JsValue, numText: real -> string): (r: real)
    ensures v.Num? ==> r == v.n
    ensures NumberOf(v, numText).None? ==> r == 0.0
    ensures NumberOf(v, numText).Some? ==> r == NumberOf(v, numText).value
  {
    if v.Num? then v.n else NumberOf(v, numText).GetOr(0.0)
  }

  /** `toNumberOrNull`: null and undefined give null, NaN gives null. */
  function ToNumberOrNull(v: JsValue, numText: real -> string): (r: Option<real>)
    ensures IsNullish(v) ==> r.None?
    ensures !IsNullish(v) ==> r == NumberOf(v, numText)
  {
    if IsNullish(v) then None else if v.Num? then Some(v.n) else NumberOf(v, numText)
  }

  /** The two conversions differ only where toNumberOrNull gives null; there toNumberOrZero gives 0. */
  lemma NumberConversionsAgree(v: JsValue, numText: real -> string)
    ensures ToNumberOrNull(v, numText).Some? ==> ToNumberOrZero(v, numText) == ToNumberOrNull(v, numText).value
    ensures ToNumberOrNull(v, numText).None? && !v.Null? ==> ToNumberOrZero(v, numText) == 0.0
  {
  }

  /** `values[i]` is the first value that is neither null nor undefined. */
  predicate FirstPresentAt(values: seq<JsValue>, i: int)
  {
    0 <= i < |values| && !IsNullish(values[i]) && forall j :: 0 <= j < i ==> IsNullish(values[j])
  }

  predicate AllNullish(values: seq<JsValue>)
  {
    forall i :: 0 <= i < |values| ==> IsNullish(values[i])
  }

  /** `s` is `String` of the first present value, or `fallback` when every value is null or undefined. */
  predicate IsFirstPresentText(s: string, values: seq<JsValue>, fallback: string, numText: real -> string)
  {
    && (AllNullish(values) ==> s == fallback)
    && (forall i :: 0 <= i < |values| && FirstPresentAt(values, i) ==> s == ToJsString(values[i], numText))
  }

  /** The first present value is the one `pickFirst` returns. */
  lemma PickFirstIsFirstPresent(values: seq<JsValue>, i: int)
    requires FirstPresentAt(values, i)
    ensures PickFirst(values) == values[i]
  {
    var k :| 0 <= k < |values| && values[k] == PickFirst(values) && forall j :: 0 <= j < k ==> IsNullish(values[j]);
    if k < i {
      assert IsNullish(values[k]);
    }
  }

  /** `row?.key` for each key, in order. */
  function Fields(row: JsValue, keys: seq<string>): (vs: seq<JsValue>)
    ensures |vs| == |keys| && forall i :: 0 <= i < |keys| ==> vs[i] == Get(row, keys[i])
  {
    seq(|keys|, i requires 0 <= i < |keys| => Get(row, keys[i]))
  }

  const CLAIM_ID_KEYS: seq<string> := ["claim_id", "id"]
  const PATIENT_NAME_KEYS: seq<string> := ["patient", "patient_name"]
  const PROCEDURE_CODE_KEYS: seq<string> := ["procedure_code", "procedureCode", "cpt_code", "cptCode"]
  const PROCEDURE_NAME_KEYS: seq<string> := ["procedure_name", "procedureName"]
  const DATE_OF_SERVICE_KEYS: seq<string> := ["date_of_service", "dateOfService"]
  const PAYER_KEYS: seq<string> := ["payer", "payer_name", "payerName"]
  const SUBMITTED_KEYS: seq<string> := ["submitted_date", "created_at", "date_of_service"]
  const BILLED_KEYS: seq<string> := ["billed_amount", "billedAmount", "billed"]
  const EXPECTED_KEYS: seq<string> :=
    ["expected", "expected_reimbursement", "expectedReimbursement", "expected_reimbursement_amount"]
  const ACTUAL_KEYS: seq<string> := ["actual", "actual_reimbursement", "actualReimbursement"]

  /** `String(a ?? b ?? ... ?? fallback)`, which is also `String(pickFirst(a, b, ...) ?? fallback)` */
  function TextOf(values: seq<JsValue>, fallback: string, numText: real -> string): (s: string)
    ensures IsFirstPresentText(s, values, fallback, numText)
  {
    forall i | FirstPresentAt(values, i)
      ensures PickFirst(values) == values[i]
    {
      PickFirstIsFirstPresent(values, i);
    }
    ToJsString(Coalesce(PickFirst(values), Str(fallback)), numText)
  }

  /** `toNumberOrZero(pickFirst(row?.billed_amount, row?.billedAmount, row?.billed))` */
  function BilledAmount(row: JsValue, numText: real -> string): (r: real)
    ensures AllNullish(Fields(row, BILLED_KEYS)) ==> r == 0.0
    ensures forall i :: FirstPresentAt(Fields(row, BILLED_KEYS), i) ==>
              r == ToNumberOrZero(Get(row, BILLED_KEYS[i]), numText)
  {
    var values := Fields(row, BILLED_KEYS);
    forall i | FirstPresentAt(values, i)
      ensures PickFirst(values) == values[i]
    {
      PickFirstIsFirstPresent(values, i);
    }
    ToNumberOrZero(PickFirst(values), numText)
  }

  function ExpectedAmount(row: JsValue, numText: real -> string): (r: real)
    ensures AllNullish(Fields(row, EXPECTED_KEYS)) ==> r == 0.0
    ensures forall i :: FirstPresentAt(Fields(row, EXPECTED_KEYS), i) ==>
              r == ToNumberOrZero(Get(row, EXPECTED_KEYS[i]), numText)
  {
    var values := Fields(row, EXPECTED_KEYS);
    forall i | FirstPresentAt(values, i)
      ensures PickFirst(values) == values[i]
    {
      PickFirstIsFirstPresent(values, i);
    }
    ToNumberOrZero(PickFirst(values), numText)
  }

  /** The actual reimbursement stays null when no column holds one. */
  function ActualAmount(row: JsValue, numText: real -> string): (r: Option<real>)
    ensures AllNullish(Fields(row, ACTUAL_KEYS)) ==> r.None?
    ensures forall i :: FirstPresentAt(Fields(row, ACTUAL_KEYS), i) ==>
              r == ToNumberOrNull(Get(row, ACTUAL_KEYS[i]), numText)
  {
    var values := Fields(row, ACTUAL_KEYS);
    forall i | FirstPresentAt(values, i)
      ensures PickFirst(values) == values[i]
    {
      PickFirstIsFirstPresent(values, i);
    }
    ToNumberOrNull(PickFirst(values), numText)
  }

  /** `String(row?.claim_id ?? row?.id ?? "")` */
  function ClaimId(row: JsValue, numText: real -> string): (r: string)
    ensures IsFirstPresentText(r, Fields(row, CLAIM_ID_KEYS), "", numText)
  {
    TextOf(Fields(row, CLAIM_ID_KEYS), "", numText)
  }

  /** `String(row?.submitted_date ?? row?.created_at ?? row?.date_of_service ?? now)` */
  function SubmittedDate(row: JsValue, numText: real -> string, nowIso: string): (r: string)
    ensures IsFirstPresentText(r, Fields(row, SUBMITTED_KEYS), nowIso, numText)
  {
    TextOf(Fields(row, SUBMITTED_KEYS), nowIso, numText)
  }

  /** `mapBackendClaimToFrontend`; `nowIso` is `new Date().toISOString()`. */
  function MapBackendClaimToFrontend(row: JsValue, numText: real -> string, nowIso: string): (c: Claim)
    ensures c.id == ClaimId(row, numText) && c.submittedDate == SubmittedDate(row, numText, nowIso)
    ensures IsNullish(Get(row, "patient_id")) ==> c.patientId == ""
    ensures !IsNullish(Get(row, "patient_id")) ==> c.patientId == ToJsString(Get(row, "patient_id"), numText)
    ensures IsFirstPresentText(c.patientName, Fields(row, PATIENT_NAME_KEYS), "", numText)
    ensures IsFirstPresentText(c.procedureCode, Fields(row, PROCEDURE_CODE_KEYS), "", numText)
    ensures IsFirstPresentText(c.procedureName, Fields(row, PROCEDURE_NAME_KEYS), "", numText)
    ensures IsFirstPresentText(c.dateOfService, Fields(row, DATE_OF_SERVICE_KEYS), "", numText)
    ensures IsFirstPresentText(c.payerName, Fields(row, PAYER_KEYS), "", numText)
    ensures c.billedAmount == BilledAmount(row, numText) && c.expectedReimbursement == ExpectedAmount(row, numText)
    ensures c.actualReimbursement == ActualAmount(row, numText)
    ensures c.status == Get(row, "status")
    ensures c.variance.None? <==> c.actualReimbursement.None?
    ensures c.variance.Some? ==> c.variance.value == c.actualReimbursement.value - c.expectedReimbursement
  {
    var expected := ExpectedAmount(row, numText);
    var actual := ActualAmount(row, numText);
    var patientId := Get(row, "patient_id");
    Claim(
      id := ClaimId(row, numText),
      patientId := if IsNullish(patientId) then "" else ToJsString(patientId, numText),
      patientName := TextOf(Fields(row, PATIENT_NAME_KEYS), "", numText),
      procedureCode := TextOf(Fields(row, PROCEDURE_CODE_KEYS), "", numText),
      procedureName := TextOf(Fields(row, PROCEDURE_NAME_KEYS), "", numText),
      dateOfService := TextOf(Fields(row, DATE_OF_SERVICE_KEYS), "", numText),
      billedAmount := BilledAmount(row, numText),
      expectedReimbursement := expected,
      actualReimbursement := actual,
      status := Get(row, "status"),
      payerName := TextOf(Fields(row, PAYER_KEYS), "", numText),
      variance := if actual.None? then None else Some(actual.value - expected),
      submittedDate := SubmittedDate(row, numText, nowIso))
  }

  /** A row that is not an object maps to the empty claim stamped with the current time. */
  lemma NonObjectRowGivesEmptyClaim(row: JsValue, numText: real -> string, nowIso: string)
    requires !row.Obj?
    ensures MapBackendClaimToFrontend(row, numText, nowIso)
            == Claim("", "", "", "", "", "", 0.0, 0.0, None, Undefined, "", None, nowIso)
  {
    assert AllNullish(Fields(row, CLAIM_ID_KEYS)) && AllNullish(Fields(row, PATIENT_NAME_KEYS));
    assert AllNullish(Fields(row, PROCEDURE_CODE_KEYS)) && AllNullish(Fields(row, PROCEDURE_NAME_KEYS));
    assert AllNullish(Fields(row, DATE_OF_SERVICE_KEYS)) && AllNullish(Fields(row, PAYER_KEYS));
    assert AllNullish(Fields(row, SUBMITTED_KEYS)) && AllNullish(Fields(row, BILLED_KEYS));
    assert AllNullish(Fields(row, EXPECTED_KEYS)) && AllNullish(Fields(row, ACTUAL_KEYS));
  }

  /** `apiUrl.replace(/\/$/, "")`: one trailing slash is dropped. */
  function StripTrailingSlash(url: string): (r: string)
    ensures url != [] && url[|url| - 1] == '/' ==> url == r + "/"
    ensures url == [] || url[|url| - 1] != '/' ==> r == url
  {
    if url != [] && url[|url| - 1] == '/' then url[..|url| - 1] else url
  }

  /** `${base}/claims`: one trailing slash of the configured URL is removed, then `/claims` is appended. */
  function ClaimsUrl(env: Option<string>): (r: string)
    ensures env.None? || env.value == "" ==> r == DEFAULT_API_URL + "/claims"
    ensures (env.Some? && env.value != "" && env.value[|env.value| - 1] == '/') ==> r == env.value + "claims"
    ensures (env.Some? && env.value != "" && env.value[|env.value| - 1] != '/') ==> r == env.value + "/claims"
  {
    StripTrailingSlash(ApiUrl(env)) + "/claims"
  }

  const FETCH_ERROR_PREFIX: string := "Failed to fetch claims: "

  /** The message of the error thrown for a non-ok reply: the prefix, the status code and the status text. */
  function FetchErrorMessage(status: nat, statusText: string): (m: string)
    ensures FETCH_ERROR_PREFIX <= m
    ensures |m| == |FETCH_ERROR_PREFIX| + |NatToString(status)| + 1 + |statusText|
  {
    FETCH_ERROR_PREFIX + NatToString(status) + " " + statusText
  }

  /** The error message determines both the status and the status text. */
  lemma FetchErrorMessageInjective(s1: nat, t1: string, s2: nat, t2: string)
    requires FetchErrorMessage(s1, t1) == FetchErrorMessage(s2, t2)
    ensures s1 == s2 && t1 == t2
  {
    var m1, m2 := NatToString(s1) + " " + t1, NatToString(s2) + " " + t2;
    assert FetchErrorMessage(s1, t1) == FETCH_ERROR_PREFIX + m1;
    assert FetchErrorMessage(s2, t2) == FETCH_ERROR_PREFIX + m2;
    assert m1 == FetchErrorMessage(s1, t1)[|FETCH_ERROR_PREFIX|..];
    assert m2 == FetchErrorMessage(s2, t2)[|FETCH_ERROR_PREFIX|..];
    NumberThenSpaceInjective(s1, t1, s2, t2);
  }

  /** `Array.isArray(json) ? json : json?.data ?? []`, then `rows.map`, which throws on a non-array. */
  function ResponseRows(json: JsValue): (r: Result<seq<JsValue>>)
    ensures json.Arr? ==> r == Ok(json.items)
    ensures !json.Arr? && IsNullish(Get(json, "data")) ==> r == Ok([])
    ensures !json.Arr? && Get(json, "data").Arr? ==> r == Ok(Get(json, "data").items)
    ensures r.Failure? <==> !json.Arr? && !IsNullish(Get(json, "data")) && !Get(json, "data").Arr?
  {
    if json.Arr? then Ok(json.items)
    else
      var data := Get(json, "data");
      if IsNullish(data) then Ok([])
      else if data.Arr? then Ok(data.items)
      else Failure("rows.map is not a function")
  }

  /** `getClaimsFromBackend` once `fetch` has answered; a body that is not JSON makes `res.json()` throw. */
  function GetClaimsFromBackend(res: HttpResponse, numText: real -> string, nowIso: string,
                                jsonError: string): (r: Result<seq<Claim>>)
    ensures !res.ok ==> r == Failure(FetchErrorMessage(res.status, res.statusText))
    ensures res.ok && res.body.None? ==> r == Failure(jsonError)
    ensures res.ok && res.body.Some? && ResponseRows(res.body.value).Ok? ==>
              var rows := ResponseRows(res.body.value).value;
              r.Ok? && |r.value| == |rows|
              && forall i :: 0 <= i < |rows| ==> r.value[i] == MapBackendClaimToFrontend(rows[i], numText, nowIso)
    ensures res.ok && res.body.Some? && ResponseRows(res.body.value).Failure? ==>
              r == Failure(ResponseRows(res.body.value).error)
    ensures r.Ok? ==> res.ok
  {
    if !res.ok then Failure(FetchErrorMessage(res.status, res.statusText))
    else if res.body.None? then Failure(jsonError)
    else
      match ResponseRows(res.body.value)
      case Failure(e) => Failure(e)
      case Ok(rows) =>
        Ok(seq(|rows|, i requires 0 <= i < |rows| => MapBackendClaimToFrontend(rows[i], numText, nowIso)))
  }

  /** A Supabase-style `{data: [...]}` body and a bare array give the same claims. */
  lemma DataWrapperIsTransparent(rows: seq<JsValue>, numText: real -> string, nowIso: string, jsonError: string)
    ensures GetClaimsFromBackend(HttpResponse(true, 200, "OK", Some(Obj(map["data" := Arr(rows)]))), numText, nowIso, jsonError)
            == GetClaimsFromBackend(HttpResponse(true, 200, "OK", Some(Arr(rows))), numText, nowIso, jsonError)
  {
  }
}
