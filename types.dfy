/** The front end's record types and the API base URL it reads from the environment. */
module Types {
  import opened Wrappers
  import opened Js

  datatype ContractStatus = Active | Pending | Expired

  datatype Contract = Contract(
    id: string,
    payerName: string,
    contractNumber: string,
    effectiveDate: string,
    expirationDate: string,
    status: ContractStatus,
    documentUrl: string,
    uploadedAt: string,
    totalProcedures: int)

  /**
   * A claim. `status` is kept as the JavaScript value it was read from: the
   * claims page casts whatever the backend sends, so it need not be one of
   * the five declared statuses.
   */
  datatype Claim = Claim(
    id: string,
    patientId: string,
    patientName: string,
    procedureCode: string,
    procedureName: string,
    dateOfService: string,
    billedAmount: real,
    expectedReimbursement: real,
    actualReimbursement: Option<real>,
    status: JsValue,
    payerName: string,
    variance: Option<real>,
    submittedDate: string)

  datatype RateUnit = Fixed | Percentage

  datatype PricingRule = PricingRule(
    id: string,
    contractId: string,
    procedureCode: string,
    procedureName: string,
    reimbursementRate: real,
    unit: RateUnit,
    notes: Option<string>)

  /** `contractNumber` holds whatever the upload reply carried, hence a JavaScript value. */
  datatype ExtractedData = ExtractedData(payerName: string, contractNumber: JsValue, proceduresFound: int)

  datatype UploadResponse = UploadResponse(
    success: bool,
    contractId: Option<string>,
    message: string,
    extractedData: Option<ExtractedData>)

  const DEFAULT_API_URL: string := "http://localhost:8000"

  /** `process.env.NEXT_PUBLIC_API_URL || "http://localhost:8000"` */
  function ApiUrl(env: Option<string>): (r: string)
    ensures env.Some? && env.value != "" ==> r == env.value
    ensures env.None? || env.value == "" ==> r == DEFAULT_API_URL
    ensures r != ""
  {
    if env.Some? && env.value != "" then env.value else DEFAULT_API_URL
  }
}
