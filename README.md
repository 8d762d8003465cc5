# Medical reimbursement claims — a Dafny model

This project models the core of a small medical-reimbursement application.

- **Backend.** A FastAPI backend accepts a scanned claim form at `POST /upload`. It has a document-extraction service parse the form, then it stores the four extracted sections — other insurance, insured, attestation and patient — as linked rows in a hosted table store, using a repository class `Database`.
- **Front end.** A Next.js front end lists claims fetched from the backend. It filters and summarises them, shows contracts from a mock API, and offers a contract-upload widget and a pricing calculator.

The model follows the program's structure, one module per source file:

| module | models |
|---|---|
| `Store` | the hosted table store as a value: rows per table and the next id; insert, select-by-column, update and delete |
| `Database` | `backend/database.py`: the repository class and the per-table specifications of its calls |
| `Backend` | `backend/main.py`: the `/upload` and `/claim_upload` routes and the four-insert sequence that links the rows |
| `Types` | `lib/types.ts` records and the API base URL |
| `ClaimsPage` | `app/claims/page.tsx`: mapping backend rows to claims and fetching them |
| `ClaimsTable` | `components/claims/claims-table.tsx`: search and status filtering, badge colours, the variance cell |
| `ClaimStats` | `components/claims/claim-stats.tsx`: paid, denied and pending counts and the expected-ratio subtitle |
| `MockApi` | `lib/mock-api.ts`: the constant data and the lookups built on it |
| `ContractsPage` | `app/contracts/page.tsx`: the three summary counts and the tab lists |
| `UploadZone` | `components/contracts/upload-zone.tsx`: the upload widget as a class with its four state fields |
| `CalculatorForm` | `components/pricing/calculator-form.tsx`: the pricing form as a class with its five state fields |

`Wrappers`, `Seqs` and `Js` are support modules:

- `Wrappers` holds Option and Result.
- `Seqs` holds `filter`/`find` with their defining properties.
- `Js` holds the JavaScript value semantics the front end relies on: nullish and truthy tests, `?.`, `??`, `||`, `String(v)`, `Number(v)`, `toLowerCase` and `includes`.

## Modelling choices

- **Python objects.**
  - A Python dict that the repository changes in place is a `PyDict` object.
  - A Pydantic model is a value whose `model_dump(exclude_none=True)` drops its `None` fields.
  - Item assignment on a model or on `None` raises a `TypeError`, so `create_insured_information` and `create_patient_information` fail for those.
  - `update_*` with a model fails: it is not JSON-serialisable. With a dict, it writes the dict's `None` values through.
- **The table store.**
  - It always assigns a fresh `id` from one global counter.
  - Whether an insert is accepted is the constant function `accepts(table, row)` of the `Database`.
  - A `None` payload is refused.
- **Upload errors in `/upload`.** Every error after the extraction client is built is caught by the inner handler of `backend/main.py:136-142`. That includes the `HTTPException` for a missing `markdown` attribute. Such an error becomes a 500 whose detail starts with "Failed to parse document: ". The missing-markdown case is therefore reported as "Failed to parse document: 500: Parser response missing expected 'markdown' attribute".
- **Import-time failure in the source.** The backend source as written refers to an undefined `ClaimBase` in the annotation of `POST /claims` (`backend/main.py:276`), so importing it raises `NameError`. The model describes the routes as if that line were absent.
- **Upload widget versus backend reply.**
  - The widget reads `data.filename` from the upload reply, but the backend replies only `{"message": ...}`.
  - `UploadZone.BackendSuccessShowsUndefined` states what the widget then shows: `File "undefined" uploaded ...`, with contract number `undefined`.
- **Policy-holder lookup.** `get_all_other_insurance_information_by_policy_holder_last_name` filters on `policy_holder_last_name`, which is not a field of `OtherInsuranceInformationBase` (its field is `policy_holder_insurance_last_name`). `Database.PolicyHolderLookupMissesModelRows` states the consequence.
- **Parameters.** Effects and engine algorithms are parameters of the operations that use them:
  - the document-extraction service (`Vendor`);
  - the API key and `NEXT_PUBLIC_API_URL`;
  - `Date.now()` and `new Date().toISOString()`;
  - `Math.random()`;
  - `new Date(s).getTime()`;
  - number-to-text rendering (`numText`, `toFixed`, `Intl` currency formatting);
  - the texts of errors raised by the browser, `res.json()` or the store client.

## Model

| member | source | states |
|---|---|---|
| Store.SelectEq | backend/database.py:121 | `select("*").eq(column, v)` returns exactly the rows whose column equals v, in store order |
| Store.NewRow | backend/database.py:97 | the stored row is the payload with `id` set to the store's next id, other columns unchanged |
| Store.Insert | backend/database.py:97 | the insert fails iff the payload is None or refused; on success exactly one row is appended and the counter advances; other tables unchanged |
| Store.Patched | backend/database.py:171 | an updated row takes every patch column and keeps its other columns |
| Store.UpdateEq | backend/database.py:171 | `update(patch).eq(column, v)` patches exactly the matching rows and leaves the others in place |
| Store.Update | backend/database.py:171 | `update(patch).eq("id", id)` patches the rows with that id and changes no other table; the reply is the matching rows, each patched, in order |
| Store.Delete | backend/database.py:189 | `delete().eq("id", id)` keeps the non-matching rows in order and returns the removed ones |
| Store.SelectAfterInsert | backend/database.py:95-121 | after an insert a selection gains exactly the new row when it matches |
| Store.FoundAfterInsert | backend/database.py:127-129 | a row inserted with column = v is found by the lookup on v |
| Store.GetByIdAfterInsert | backend/database.py:119-121 | with ids below the counter, the new row is the only row with its id |
| Store.IdsBelowRows | backend/database.py:97 | under the fresh-id invariant every stored row has an integer id below the counter |
| Store.SelectFreshId | backend/database.py:119-121 | a row appended with an id no older row reaches is the only row with that id |
| Store.InsertKeepsIdsBelow | backend/database.py:97 | inserts preserve the fresh-id invariant |
| Store.UpdateKeepsIdsBelow | backend/database.py:171 | an update whose patch leaves `id` alone preserves the fresh-id invariant |
| Store.DeleteRemovesOnlyMatching | backend/database.py:189 | after a delete no row has the id, and the rest is a subsequence of the old rows |
| Store.DeleteCount | backend/database.py:189 | kept rows plus removed rows account for every row |
| Store.DeleteKeepsIdsBelow | backend/database.py:189 | deletes preserve the fresh-id invariant |
| Database.ToInsertPayload | backend/database.py:83-92 | a dict is passed as is, a model is dumped without its None fields, None stays None |
| Database.WithOtherInsuranceId | backend/database.py:105 | sets `other_identification_number` and leaves every other key |
| Database.WithPatientKeys | backend/database.py:110-111 | sets `insured_id` and `attestation_id` and leaves every other key |
| Database.CreateOtherInsuranceSpec | backend/database.py:95-97 | inserts the normalised payload into Other_Insurance_Information; on success the new row has the next id; a failure changes nothing |
| Database.CreateAttestationSpec | backend/database.py:99-101 | the same for Attestation |
| Database.CreateInsuredSpec | backend/database.py:103-106 | only a dict can be given the other-insurance key; the inserted row carries it |
| Database.CreatePatientSpec | backend/database.py:108-112 | only a dict can be given both foreign keys; the inserted row carries them |
| Database.UpdateSpec | backend/database.py:169-183 | a dict patches the rows with that id; a model or None fails and leaves the store unchanged |
| Database.PyDict.constructor | backend/database.py:103-112 | a dict holds the given entries |
| Database.Database.constructor | backend/database.py:80-81 | a new repository starts on an empty store |
| Database.Database.CreateOtherInsuranceInformation | backend/database.py:95-97 | the store and the reply are those of CreateOtherInsuranceSpec |
| Database.Database.CreateAttestation | backend/database.py:99-101 | the store and the reply are those of CreateAttestationSpec |
| Database.Database.CreateInsuredInformation | backend/database.py:103-106 | the caller's dict has the key written in place; store and reply follow CreateInsuredSpec |
| Database.Database.CreatePatientInformation | backend/database.py:108-112 | the caller's dict has both keys written in place; store and reply follow CreatePatientSpec |
| Database.Database.GetAllPatientInformation | backend/database.py:115-117 | all rows of Patient_Information |
| Database.Database.GetPatientInformation | backend/database.py:119-121 | exactly the patient rows with that id |
| Database.Database.GetAllPatientInformationByPatientLastName | backend/database.py:123-125 | exactly the patient rows with that last name |
| Database.Database.GetAllPatientInformationByInsuredId | backend/database.py:127-129 | exactly the patient rows with that insured id |
| Database.Database.GetAllInsuredInformation | backend/database.py:131-133 | all rows of Insured_Information |
| Database.Database.GetInsuredInformation | backend/database.py:135-137 | exactly the insured rows with that id |
| Database.Database.GetAllInsuredInformationByLastName | backend/database.py:139-141 | exactly the insured rows with that last name |
| Database.Database.GetAllInsuredInformationByOtherInsuranceId | backend/database.py:143-145 | exactly the insured rows linked to that other-insurance id |
| Database.Database.GetAllOtherInsuranceInformation | backend/database.py:147-149 | all rows of Other_Insurance_Information |
| Database.Database.GetOtherInsuranceInformation | backend/database.py:151-153 | exactly the other-insurance rows with that id |
| Database.Database.GetAllOtherInsuranceInformationByPolicyHolderLastName | backend/database.py:155-157 | exactly the rows whose `policy_holder_last_name` matches |
| Database.Database.GetAllAttestation | backend/database.py:159-161 | all rows of Attestation |
| Database.Database.GetAttestation | backend/database.py:163-165 | exactly the attestation rows with that id |
| Database.Database.UpdatePatientInformation | backend/database.py:169-171 | store and reply follow UpdateSpec on Patient_Information |
| Database.Database.UpdateInsuredInformation | backend/database.py:173-175 | store and reply follow UpdateSpec on Insured_Information |
| Database.Database.UpdateOtherInsuranceInformation | backend/database.py:177-179 | store and reply follow UpdateSpec on Other_Insurance_Information |
| Database.Database.UpdateAttestation | backend/database.py:181-183 | store and reply follow UpdateSpec on Attestation |
| Database.Database.DeletePatientInformation | backend/database.py:187-189 | store and reply follow Store.Delete on Patient_Information |
| Database.Database.DeleteInsuredInformation | backend/database.py:191-193 | store and reply follow Store.Delete on Insured_Information |
| Database.Database.DeleteOtherInsuranceInformation | backend/database.py:195-197 | store and reply follow Store.Delete on Other_Insurance_Information |
| Database.Database.DeleteAttestation | backend/database.py:199-201 | store and reply follow Store.Delete on Attestation |
| Database.PatientFoundByInsuredId | backend/database.py:108-129 | a patient created with insured id k is returned by the lookup on k |
| Database.InsuredFoundByOtherInsuranceId | backend/database.py:103-145 | an insured created with other-insurance id k is returned by the lookup on k |
| Database.PolicyHolderLookupMissesModelRows | backend/database.py:155-157 | a row created from an OtherInsuranceInformationBase model is never found by the policy-holder lookup |
| Database.ModelCreateButNotUpdate | backend/database.py:83-183 | a model is accepted by the create path but refused by the update path |
| Database.UpdateWritesNoneValues | backend/database.py:169-171 | a dict's None values overwrite the matching rows' columns |
| Backend.OtherStep | backend/main.py:125-129 | the other-insurance insert runs only when its key is present, and then succeeds iff the payload exists and is accepted; its id is the next id |
| Backend.InsuredStep | backend/main.py:130 | a missing key is a KeyError, a non-dict a TypeError; a dict succeeds iff it is accepted with the other-insurance id (or None) set, and the row carries that id |
| Backend.AttestationStep | backend/main.py:131 | a missing key is a KeyError; otherwise the row is inserted iff the payload exists and is accepted |
| Backend.PatientStep | backend/main.py:133 | a missing key is a KeyError, a non-dict a TypeError; a dict succeeds iff it is accepted with both ids set, and the patient row carries the new insured and attestation ids |
| Backend.ClaimFormInserts | backend/main.py:124-133 | the inserts run in order and stop at the first failure; each new row takes the next id; the four rows are linked by their foreign keys; only the four tables gain rows |
| Backend.ClaimFormSucceedsExactly | backend/main.py:124-133 | all four inserts succeed iff every section is present (other insurance optional), of the right kind and accepted with its foreign keys |
| Backend.KeyErrorNamesAbsentKey | backend/main.py:124-133 | a KeyError from the run names a section the extraction lacks |
| Backend.ToObj | backend/main.py:119-122 | the JSON extraction becomes fresh, unaliased objects equal to the decoded values |
| Backend.InsertClaimForm | backend/main.py:124-133 | the method leaves the store and reports the failure that ClaimFormInserts describes |
| Backend.PatientFoundByNewInsuredId | backend/main.py:130-133 | after a complete run the new patient is found by the new insured row's id |
| Backend.NewRowsHaveUniqueIds | backend/main.py:128-133 | with fresh ids, each new row's id selects exactly that row |
| Backend.OrphanRowsWithoutPatient | backend/main.py:130-133 | with no patient section, the insured and attestation rows stay written (no rollback) |
| Backend.Validate | backend/main.py:55-75 | file name, API key, then size: 400, 500, 400, in that order; None iff all three pass |
| Backend.FailureText | backend/main.py:136-142 | `str(e)` of a KeyError is the quoted key; of the TypeError, the refusing type |
| Backend.UploadFileSpec | backend/main.py:47-156 | success iff every stage succeeds; errors are 400 only from validation; a client that cannot be built gives 500 "Failed to initialize document parser: " and its text; every error after the client is built carries "Failed to parse document: ", with the parser's or extractor's text, or the FailureText of the insert that stopped the run; the markdown is kept iff parsing succeeded; the store changes only after an extraction |
| Backend.ClaimUpload | backend/main.py:180-213 | succeeds iff the file has a name and content; otherwise 400 |
| Backend.ClaimUploadAgreesWithUpload | backend/main.py:185-191 | with an API key set, `/claim_upload` refuses exactly the files `/upload` refuses, with the same replies |
| Backend.App.constructor | backend/main.py:24-35 | the document store starts empty over the given repository |
| Backend.App.UploadFile | backend/main.py:47-163 | reply and store follow UploadFileSpec; `uploaded_documents["default"]` is set exactly when markdown was obtained |
| Types.ApiUrl | app/claims/page.tsx:58 | the environment URL when non-empty, else http://localhost:8000 |
| ClaimsPage.PickFirst | app/claims/page.tsx:13-18 | the first non-nullish value, undefined when all are nullish |
| ClaimsPage.PickFirstIsCoalesceChain | app/claims/page.tsx:13-18 | pickFirst equals the `??` chain of its arguments |
| ClaimsPage.ToNumberOrZero | app/claims/page.tsx:20-24 | a finite number as is, else `Number(v)` when finite, else 0 |
| ClaimsPage.ToNumberOrNull | app/claims/page.tsx:26-31 | null for nullish input, else `Number(v)` when finite, else null |
| ClaimsPage.NumberConversionsAgree | app/claims/page.tsx:20-31 | the two conversions agree wherever the second gives a number |
| ClaimsPage.PickFirstIsFirstPresent | app/claims/page.tsx:13-18 | `pickFirst` returns the first value that is neither null nor undefined |
| ClaimsPage.TextOf | app/claims/page.tsx:44-46 | `String(pickFirst(...) ?? "")`: `String` of the first non-nullish value, the fallback when all are nullish |
| ClaimsPage.BilledAmount | app/claims/page.tsx:34 | `toNumberOrZero` of the first non-nullish of `billed_amount`, `billedAmount`, `billed`; 0 when all are nullish |
| ClaimsPage.ExpectedAmount | app/claims/page.tsx:35-37 | `toNumberOrZero` of the first non-nullish of the four expected keys, in order; 0 when all are nullish |
| ClaimsPage.ActualAmount | app/claims/page.tsx:38 | `toNumberOrNull` of the first non-nullish of `actual`, `actual_reimbursement`, `actualReimbursement`; null when all are nullish |
| ClaimsPage.ClaimId | app/claims/page.tsx:41 | `String` of `claim_id`, else of `id`, else "" |
| ClaimsPage.SubmittedDate | app/claims/page.tsx:53 | `String` of the first non-nullish of `submitted_date`, `created_at`, `date_of_service`, else the current time |
| ClaimsPage.MapBackendClaimToFrontend | app/claims/page.tsx:33-55 | every text field is `String` of the first non-nullish of its keys, in order, else ""; the patient id is "" iff nullish, else its `String`; variance is null iff actual is null, else actual minus expected; status is passed through |
| ClaimsPage.NonObjectRowGivesEmptyClaim | app/claims/page.tsx:33-55 | a row that is not an object maps to empty texts, zero amounts and the current time |
| ClaimsPage.StripTrailingSlash | app/claims/page.tsx:59 | one trailing slash is removed, nothing else |
| ClaimsPage.ClaimsUrl | app/claims/page.tsx:58-61 | one trailing slash of the configured URL (default `http://localhost:8000`) is removed, then `/claims` is appended |
| ClaimsPage.FetchErrorMessage | app/claims/page.tsx:62-64 | the message starts with "Failed to fetch claims: " followed by the status and its text |
| ClaimsPage.FetchErrorMessageInjective | app/claims/page.tsx:63 | the message determines both the status and the status text |
| ClaimsPage.ResponseRows | app/claims/page.tsx:66-70 | an array as is, the `data` array of an object, [] when `data` is nullish, and the `rows.map` TypeError otherwise |
| ClaimsPage.GetClaimsFromBackend | app/claims/page.tsx:57-71 | a non-ok reply throws the status message, a non-JSON body the parse error, a body without rows the `rows.map` TypeError; otherwise one claim per row, in order |
| ClaimsPage.DataWrapperIsTransparent | app/claims/page.tsx:67-68 | `{data: rows}` gives the same claims as `rows` |
| ClaimsTable.FilteredClaims | components/claims/claims-table.tsx:21-30 | exactly the claims matching search and status, in order, each with all its copies |
| ClaimsTable.InitialFilterShowsAll | components/claims/claims-table.tsx:18-30 | the initial empty search and "all" filter show every claim |
| ClaimsTable.SearchIgnoresQueryCase | components/claims/claims-table.tsx:23-25 | lower-casing the query changes nothing |
| ClaimsTable.StatusFilterIsExact | components/claims/claims-table.tsx:27 | with a filter other than "all", every shown claim has exactly that status |
| ClaimsTable.ShowingText | components/claims/claims-table.tsx:151 | starts with "Showing " and ends with " claims", with the two counts between; its length fixed by their digits |
| ClaimsTable.ShowingTextDeterminesCounts | components/claims/claims-table.tsx:151 | the line determines both the number of shown claims and the number of claims |
| ClaimsTable.GetStatusColor | components/claims/claims-table.tsx:32-47 | each badge colour iff its statuses, outline for anything else |
| ClaimsTable.FormatCurrency | components/claims/claims-table.tsx:49-55 | "-" for null, else the currency text |
| ClaimsTable.VarianceCellOf | components/claims/claims-table.tsx:126-132 | a dash iff no variance; otherwise the amount, marked as a shortfall iff negative |
| ClaimStats.PaidClaims | components/claims/claim-stats.tsx:13 | exactly the claims with an actual reimbursement, in order, each with all its copies |
| ClaimStats.PaidClaimsHaveVariance | components/claims/claim-stats.tsx:13-15 | for consistently mapped claims, the paid claims are exactly those with a variance |
| ClaimStats.DeniedCount | components/claims/claim-stats.tsx:17 | the number of claims whose status is "denied"; zero iff none is |
| ClaimStats.ProcessingCount | components/claims/claim-stats.tsx:18 | the number of claims whose status is "processing" or "submitted"; zero iff none is |
| ClaimStats.ActionRequired | components/claims/claim-stats.tsx:44 | denied plus pending, never more than the number of claims |
| ClaimStats.ActionSubtitle | components/claims/claim-stats.tsx:45 | ends with " pending"; its length fixed by the two counts' digits |
| ClaimStats.ActionSubtitleDeterminesCounts | components/claims/claim-stats.tsx:45 | the subtitle determines both counts it shows |
| ClaimStats.ExpectedSubtitle | components/claims/claim-stats.tsx:31 | the ratio only when something is billed, else the dash, so there is no division by zero |
| MockApi.MockClaimsConsistent | lib/mock-api.ts:44-105 | in the mock claims, variance is null iff actual is null, else actual minus expected |
| MockApi.ContractsGetById | lib/mock-api.ts:163-166 | the first contract with that id, or null iff there is none |
| MockApi.ClaimsGetById | lib/mock-api.ts:189-192 | the first claim with that id, or null iff there is none |
| MockApi.ContractsFoundByOwnId | lib/mock-api.ts:163-166 | every mock contract is found by its own id |
| MockApi.ClaimsFoundByOwnId | lib/mock-api.ts:189-192 | every mock claim is found by its own id |
| MockApi.PricingGetRules | lib/mock-api.ts:225-228 | exactly the rules of that contract, in order |
| MockApi.RulesOfMockContracts | lib/mock-api.ts:107-124 | ct-001 has both rules; every other contract has none |
| MockApi.ClaimsCreate | lib/mock-api.ts:194-201 | every draft field is kept; the id is "cl-" then the time's digits; the submitted date is the given time |
| MockApi.CreatedIdsDistinct | lib/mock-api.ts:198 | claims created at different milliseconds get different ids |
| MockApi.PricingCalculate | lib/mock-api.ts:205-223 | echoes the code; contract "ct-001"; a whole amount in 50..349; confidence in [0.85, 1) |
| MockApi.CalculateIgnoresPayer | lib/mock-api.ts:205-223 | the result does not depend on the payer |
| MockApi.ContractsUpload | lib/mock-api.ts:168-180 | always a success with a "ct-" id, payer "Sample Payer" and 50..249 procedures |
| ContractsPage.DaysUntilExpiration | app/contracts/page.tsx:17-19 | the whole days, rounded down, between now and the expiry |
| ContractsPage.ExpiringSoonWindow | app/contracts/page.tsx:16-21 | expiring soon iff at least one and fewer than 91 whole days remain |
| ContractsPage.ExpiredNeverExpiringSoon | app/contracts/page.tsx:20 | expired contracts, or those less than a day out, are never counted |
| ContractsPage.ActiveContracts | app/contracts/page.tsx:94 | exactly the active contracts, in order, each with all its copies |
| ContractsPage.ExpiringSoonContracts | app/contracts/page.tsx:16-21 | exactly the contracts expiring soon, in order, each with all its copies |
| ContractsPage.ContractStats | app/contracts/page.tsx:13-22 | total is the length; active is the number of active contracts and expiringSoon the number with 1 to 90 whole days left; active is zero iff none is active and equals the total iff all are |
| ContractsPage.TabContracts | app/contracts/page.tsx:72-99 | the Active tab lists the active contracts, the All tab lists all of them |
| ContractsPage.ActiveTabMatchesCard | app/contracts/page.tsx:94 | the Active tab lists as many contracts as the active card counts |
| ContractsPage.MockContractsAllActive | app/contracts/page.tsx:11-15 | with the mock contracts, all three are active |
| UploadZone.UploadUrl | components/contracts/upload-zone.tsx:56-57 | `${apiUrl}/upload` with the default base when unset |
| UploadZone.StatusFallback | components/contracts/upload-zone.tsx:66 | "Upload failed with status " followed by the status's digits |
| UploadZone.NonOkMessage | components/contracts/upload-zone.tsx:65-74 | `detail`, then `message`, then the fallback; a non-JSON or null body gives the status text, else the fallback |
| UploadZone.SuccessResult | components/contracts/upload-zone.tsx:77-88 | success, contract number = the reply's filename, 0 procedures |
| UploadZone.UploadAttempt | components/contracts/upload-zone.tsx:50-94 | a success iff the reply is ok with a non-null JSON body; each failure throws what the source throws, and only a rejected fetch can throw a non-`Error` |
| UploadZone.ClassifyUploadError | components/contracts/upload-zone.tsx:96-107 | network texts first, then CORS, else the error's own message; a non-Error gives the generic text |
| UploadZone.ResultOf | components/contracts/upload-zone.tsx:109-112 | a thrown error becomes an unsuccessful result holding the classified message |
| UploadZone.NetworkBeforeCors | components/contracts/upload-zone.tsx:102-105 | a message with both "Failed to fetch" and "CORS" is reported as a connection failure |
| UploadZone.BackendDetailShown | components/contracts/upload-zone.tsx:65-75 | an HTTP error reply `{detail: d}` is shown as d itself |
| UploadZone.BackendSuccessShowsUndefined | components/contracts/upload-zone.tsx:77-88 | the backend reply `{message}` shows `File "undefined" …` with contract number undefined |
| UploadZone.UploadZone.constructor | components/contracts/upload-zone.tsx:12-15 | not dragging, no file, not uploading, no result |
| UploadZone.UploadZone.HandleDragOver | components/contracts/upload-zone.tsx:17-20 | sets isDragging; nothing else changes |
| UploadZone.UploadZone.HandleDragLeave | components/contracts/upload-zone.tsx:22-25 | clears isDragging; nothing else changes |
| UploadZone.UploadZone.HandleDrop | components/contracts/upload-zone.tsx:27-36 | clears isDragging; a non-empty drop selects the first file and clears the result; an empty one changes nothing else |
| UploadZone.UploadZone.HandleFileSelect | components/contracts/upload-zone.tsx:38-44 | a non-empty selection takes the first file and clears the result; a null or empty list changes nothing |
| UploadZone.UploadZone.HandleUpload | components/contracts/upload-zone.tsx:46-116 | no file: no request and no change; otherwise uploading while pending, not afterwards, with the attempt's result stored |
| UploadZone.UploadZone.ClearFile | components/contracts/upload-zone.tsx:118-121 | no file and no result; the two flags unchanged |
| CalculatorForm.EffectiveCode | components/pricing/calculator-form.tsx:38 | the custom text when "custom" is selected, else the selected code |
| CalculatorForm.ButtonDisabled | components/pricing/calculator-form.tsx:118 | enabled iff not calculating and both code and payer are chosen |
| CalculatorForm.GuardImpliesEnabled | components/pricing/calculator-form.tsx:40 | whenever the guard would pass and nothing is running, the button is enabled |
| CalculatorForm.EnabledButGuarded | components/pricing/calculator-form.tsx:118 | "custom" with empty text enables the button but the guard stops the click |
| CalculatorForm.Band | components/pricing/calculator-form.tsx:198-202 | ≥ 0.9 very high, ≥ 0.75 high, otherwise moderate; exactly one band |
| CalculatorForm.BandText | components/pricing/calculator-form.tsx:198-202 | the text shown for each band |
| CalculatorForm.MockResultNeverModerate | components/pricing/calculator-form.tsx:198-202 | the mock calculator's results never fall in the moderate band |
| CalculatorForm.CalculatorForm.constructor | components/pricing/calculator-form.tsx:25-35 | empty code, custom text and payer; not calculating; no result |
| CalculatorForm.CalculatorForm.SelectProcedure | components/pricing/calculator-form.tsx:74 | sets the code only |
| CalculatorForm.CalculatorForm.EnterCustomProcedure | components/pricing/calculator-form.tsx:96 | sets the custom text only |
| CalculatorForm.CalculatorForm.SelectPayer | components/pricing/calculator-form.tsx:103 | sets the payer only |
| CalculatorForm.CalculatorForm.HandleCalculate | components/pricing/calculator-form.tsx:37-53 | guard fails: no request, no change; otherwise calculating with the result cleared while pending; afterwards not calculating, with the reply's result, or none on failure |
| CalculatorForm.CalculatorForm.ResetForm | components/pricing/calculator-form.tsx:55-60 | empty code, custom text and payer; no result; isCalculating unchanged |

## Left out

- The document-extraction client and the hosted store client are foreign services. Their behaviour is a parameter: a `Vendor` value, and an `accepts` function with its refusal texts.
- `backend/extract.py` and `backend/schemas.py` are not part of this model. `lib/types.ts` is reduced to the records the core uses.
- Temporary files, the `extracts/` writes, `await file.read()` and their failures are not modelled. Neither are logging, CORS middleware or dotenv loading. The "Unexpected error" branch of `backend/main.py:149-156` is therefore never taken.
- `POST /insert_extract` is not modelled. It reads `.extraction` from a parsed JSON dict, so as written it always fails.
- `GET/POST /claims` are not modelled. They call `ClaimBase` and `get_all_claims`, neither of which exists. Likewise the GET routes of `backend/main.py:215-263` are not modelled separately: each only returns the repository lookup modelled in `Database`. The constant `/` and `/health` replies are not modelled either.
- Concurrency is not modelled: asynchronous interleaving of React handlers and of requests. Each handler runs to completion atomically. `HandleUpload` and `HandleCalculate` report the pending-state flags through ghost out-parameters.
- The `setTimeout` callback that clears the upload widget 3 s after a success is not modelled (timers).
- The `delay` promises of the mock API are not modelled.
- `contractsAPI.getAll`, `claimsAPI.getAll` and `analyticsAPI.getDashboard` are not modelled separately; they return the constants.
- Floating-point error and engine number formatting are not modelled:
  - the sums and `toFixed` texts of the claim-stats cards;
  - `Intl` currency formatting;
  - the confidence percentage.
  Amounts are exact reals.
- ClaimStats.ExpectedSubtitle: takes `toFixed(1)` of the ratio as the parameter `fixed`, so it does not state the digits.
- Js.NumberOf: finite `Number(s)` only for the empty string and optionally negated decimal integers. Every other string, including decimals, exponents and surrounding whitespace, is treated as NaN.
- Js.ToLower: lowercases ASCII letters only.
- `new Date(s).getTime()` is the parameter `timeOf`; date-string parsing is not modelled.
- Presentation-only markup, icons and styling are not modelled.
- Ids of different tables: the store hands out ids from one shared counter, whereas each table of the hosted store has its own identity column. Relations between ids of different tables (the insured id following the other-insurance id, the patient id following the attestation id) are an artefact of that counter and are not claimed about the program.
- Store.Update, Store.Delete: updates and deletes never fail. The hosted store refuses an update that names an unknown column or carries an ill-typed value, and a delete that breaks a foreign key, and the client then raises; the model has no refusal oracle for them, so every dict patch is written and every matching row removed. A patch that carries `id` can also reassign ids; the fresh-id invariant is proved preserved only for patches without `id` (Store.UpdateKeepsIdsBelow).
- Store.SelectEq: selects never fail. A filter on a column the table lacks is modelled as matching nothing, whereas the hosted store reports an error for an unknown column (which the GET route would turn into a 500). The table schemas are not part of this model.
