/**
 * The FastAPI application: the `/upload` route that parses a claim form
 * with the document-extraction service and writes its four sections to
 * the repository, and the `/claim_upload` route that only validates.
 */
module Backend {
  import opened Wrappers
  import opened Store
  import opened Database

  const OTHER_KEY: string := "otherInsuranceInformation"
  const INSURED_KEY: string := "insuredInformation"
  const ATTESTATION_KEY: string := "attestation"
  const PATIENT_KEY: string := "patientInformation"

  /** The tables a claim form may write. */
  const CLAIM_TABLES: set<string> := {OTHER_INSURANCE, INSURED, ATTESTATION, PATIENT}

  /** Why the insert sequence stopped: a KeyError, a TypeError on item assignment, or a refused insert. */
  datatype InsertFailure = MissingKey(key: string) | NotADict(key: string, typeName: string) | Refused(table: string)

  /**
   * The state of the insert sequence of `/upload`: the store, the row each
   * table has received so far, and the failure that stopped it, if any.
   * Rows written before a failure stay written: there is no transaction.
   */
  datatype InsertRun = InsertRun(tables: Tables, other: Option<Row>, insured: Option<Row>,
                                 attestation: Option<Row>, patient: Option<Row>,
                                 failure: Option<InsertFailure>)

  /** The Python type name of a value that is not a dict. */
  function TypeName(o: ObjValue, modelName: string): string
  {
    if o.NoneVal? then "NoneType" else modelName
  }

  function AsSeq(o: Option<Row>): seq<Row>
  {
    if o.Some? then [o.value] else []
  }

  function IdOf(row: Row): Value
  {
    if ID in row then row[ID] else PyNone
  }

  function IdOrNone(o: Option<Row>): Value
  {
    if o.Some? then IdOf(o.value) else PyNone
  }

  function Count(o: Option<Row>): nat
  {
    if o.Some? then 1 else 0
  }

  /** The four tables hold their old rows plus the one each received; no other table changes. */
  ghost predicate Appends(t: Tables, r: InsertRun)
  {
    && RowsOf(r.tables, OTHER_INSURANCE) == RowsOf(t, OTHER_INSURANCE) + AsSeq(r.other)
    && RowsOf(r.tables, INSURED) == RowsOf(t, INSURED) + AsSeq(r.insured)
    && RowsOf(r.tables, ATTESTATION) == RowsOf(t, ATTESTATION) + AsSeq(r.attestation)
    && RowsOf(r.tables, PATIENT) == RowsOf(t, PATIENT) + AsSeq(r.patient)
    && (forall table :: table !in CLAIM_TABLES ==> RowsOf(r.tables, table) == RowsOf(t, table))
  }

  /** The foreign keys that link the rows of one claim form. */
  predicate Linked(r: InsertRun)
  {
    && (r.insured.Some? ==> Matches(r.insured.value, OTHER_ID_COLUMN, IdOrNone(r.other)))
    && (r.patient.Some? ==>
          && r.insured.Some? && r.attestation.Some?
          && Matches(r.patient.value, INSURED_ID_COLUMN, IdOf(r.insured.value))
          && Matches(r.patient.value, ATTESTATION_ID_COLUMN, IdOf(r.attestation.value)))
  }

  /** Lines 125-129: the other insurance row, only when the extraction has that key. */
  function OtherStep(t: Tables, ext: map<string, ObjValue>, accepts: (string, Row) -> bool): (r: InsertRun)
    ensures r.insured.None? && r.attestation.None? && r.patient.None?
    ensures r.other.Some? <==> OTHER_KEY in ext && r.failure.None?
    ensures r.failure.Some? ==> r.tables == t && OTHER_KEY in ext && r.failure == Some(Refused(OTHER_INSURANCE))
    ensures OTHER_KEY in ext ==>
              (r.failure.None? <==> ToInsertPayload(ext[OTHER_KEY]).Some?
                                    && accepts(OTHER_INSURANCE, ToInsertPayload(ext[OTHER_KEY]).value))
    ensures r.other.Some? ==> Matches(r.other.value, ID, PyInt(t.nextId))
    ensures r.tables.nextId == t.nextId + Count(r.other)
    ensures Appends(t, r)
  {
    if OTHER_KEY in ext then
      var (t1, other) := CreateOtherInsuranceSpec(t, ext[OTHER_KEY], accepts);
      if other.None? then InsertRun(t, None, None, None, None, Some(Refused(OTHER_INSURANCE)))
      else InsertRun(t1, other, None, None, None, None)
    else InsertRun(t, None, None, None, None, None)
  }

  /** Line 130: the insured row, carrying the other insurance id or None. */
  function InsuredStep(run: InsertRun, ext: map<string, ObjValue>, accepts: (string, Row) -> bool): (r: InsertRun)
    ensures run.failure.Some? ==> r == run
    ensures r.other == run.other && r.attestation == run.attestation && r.patient == run.patient
    ensures r.failure.None? ==> r.insured.Some? && r.tables.nextId == run.tables.nextId + 1
                                && Matches(r.insured.value, ID, PyInt(run.tables.nextId))
                                && Matches(r.insured.value, OTHER_ID_COLUMN, IdOrNone(run.other))
                                && RowsOf(r.tables, INSURED) == RowsOf(run.tables, INSURED) + [r.insured.value]
    ensures r.failure.Some? ==> r.tables == run.tables && r.insured == run.insured
    ensures run.failure.None? && INSURED_KEY !in ext ==> r.failure == Some(MissingKey(INSURED_KEY))
    ensures run.failure.None? && INSURED_KEY in ext ==>
              (r.failure.None? <==> ext[INSURED_KEY].DictVal?
                                    && accepts(INSURED, WithOtherInsuranceId(ext[INSURED_KEY].entries, IdOrNone(run.other))))
    ensures run.failure.None? && INSURED_KEY in ext && !ext[INSURED_KEY].DictVal? ==>
              r.failure == Some(NotADict(INSURED_KEY, TypeName(ext[INSURED_KEY], "InsuredInformationBase")))
    ensures run.failure.None? && INSURED_KEY in ext && ext[INSURED_KEY].DictVal? && r.failure.Some? ==>
              r.failure == Some(Refused(INSURED))
    ensures forall table :: table != INSURED ==> RowsOf(r.tables, table) == RowsOf(run.tables, table)
  {
    if run.failure.Some? then run
    else if INSURED_KEY !in ext then run.(failure := Some(MissingKey(INSURED_KEY)))
    else
      var (t2, insured) := CreateInsuredSpec(run.tables, ext[INSURED_KEY], IdOrNone(run.other), accepts);
      if insured.None? then
        run.(failure := Some(if ext[INSURED_KEY].DictVal? then Refused(INSURED) else NotADict(INSURED_KEY, TypeName(ext[INSURED_KEY], "InsuredInformationBase"))))
      else run.(tables := t2, insured := insured)
  }

  /** Line 131: the attestation row. */
  function AttestationStep(run: InsertRun, ext: map<string, ObjValue>, accepts: (string, Row) -> bool): (r: InsertRun)
    ensures run.failure.Some? ==> r == run
    ensures r.other == run.other && r.insured == run.insured && r.patient == run.patient
    ensures r.failure.None? ==> r.attestation.Some? && r.tables.nextId == run.tables.nextId + 1
                                && Matches(r.attestation.value, ID, PyInt(run.tables.nextId))
                                && RowsOf(r.tables, ATTESTATION) == RowsOf(run.tables, ATTESTATION) + [r.attestation.value]
    ensures r.failure.Some? ==> r.tables == run.tables && r.attestation == run.attestation
    ensures run.failure.None? && ATTESTATION_KEY !in ext ==> r.failure == Some(MissingKey(ATTESTATION_KEY))
    ensures run.failure.None? && ATTESTATION_KEY in ext ==>
              (r.failure.None? <==> ToInsertPayload(ext[ATTESTATION_KEY]).Some?
                                    && accepts(ATTESTATION, ToInsertPayload(ext[ATTESTATION_KEY]).value))
    ensures run.failure.None? && ATTESTATION_KEY in ext && r.failure.Some? ==> r.failure == Some(Refused(ATTESTATION))
    ensures forall table :: table != ATTESTATION ==> RowsOf(r.tables, table) == RowsOf(run.tables, table)
  {
    if run.failure.Some? then run
    else if ATTESTATION_KEY !in ext then run.(failure := Some(MissingKey(ATTESTATION_KEY)))
    else
      var (t3, att) := CreateAttestationSpec(run.tables, ext[ATTESTATION_KEY], accepts);
      if att.None? then run.(failure := Some(Refused(ATTESTATION)))
      else run.(tables := t3, attestation := att)
  }

  /** Line 133: the patient row, linked to the insured and attestation rows. */
  function PatientStep(run: InsertRun, ext: map<string, ObjValue>, accepts: (string, Row) -> bool): (r: InsertRun)
    requires run.failure.None? ==> run.insured.Some? && run.attestation.Some?
    ensures run.failure.Some? ==> r == run
    ensures r.other == run.other && r.insured == run.insured && r.attestation == run.attestation
    ensures r.failure.None? ==> r.patient.Some? && r.tables.nextId == run.tables.nextId + 1
                                && Matches(r.patient.value, ID, PyInt(run.tables.nextId))
                                && Matches(r.patient.value, INSURED_ID_COLUMN, IdOf(run.insured.value))
                                && Matches(r.patient.value, ATTESTATION_ID_COLUMN, IdOf(run.attestation.value))
                                && RowsOf(r.tables, PATIENT) == RowsOf(run.tables, PATIENT) + [r.patient.value]
    ensures r.failure.Some? ==> r.tables == run.tables && r.patient == run.patient
    ensures run.failure.None? && PATIENT_KEY !in ext ==> r.failure == Some(MissingKey(PATIENT_KEY))
    ensures run.failure.None? && PATIENT_KEY in ext ==>
              (r.failure.None? <==> ext[PATIENT_KEY].DictVal?
                                    && accepts(PATIENT, WithPatientKeys(ext[PATIENT_KEY].entries, IdOf(run.insured.value),
                                                                        IdOf(run.attestation.value))))
    ensures run.failure.None? && PATIENT_KEY in ext && !ext[PATIENT_KEY].DictVal? ==>
              r.failure == Some(NotADict(PATIENT_KEY, TypeName(ext[PATIENT_KEY], "PatientInformationBase")))
    ensures run.failure.None? && PATIENT_KEY in ext && ext[PATIENT_KEY].DictVal? && r.failure.Some? ==>
              r.failure == Some(Refused(PATIENT))
    ensures forall table :: table != PATIENT ==> RowsOf(r.tables, table) == RowsOf(run.tables, table)
  {
    if run.failure.Some? then run
    else if PATIENT_KEY !in ext then run.(failure := Some(MissingKey(PATIENT_KEY)))
    else
      var (t4, patient) := CreatePatientSpec(run.tables, ext[PATIENT_KEY], IdOf(run.insured.value),
                                             IdOf(run.attestation.value), accepts);
      if patient.None? then
        run.(failure := Some(if ext[PATIENT_KEY].DictVal? then Refused(PATIENT) else NotADict(PATIENT_KEY, TypeName(ext[PATIENT_KEY], "PatientInformationBase"))))
      else run.(tables := t4, patient := patient)
  }

  /**
   * When the whole insert sequence succeeds: the other insurance section,
   * if present, is accepted; the insured and patient sections are dicts and
   * accepted once their foreign keys are set (the ids the store hands out
   * next); the attestation section is present and accepted.
   */
  predicate InsertsSucceed(t: Tables, ext: map<string, ObjValue>, accepts: (string, Row) -> bool)
  {
    var hasOther := OTHER_KEY in ext;
    var otherId := if hasOther then PyInt(t.nextId) else PyNone;
    var insuredId := t.nextId + (if hasOther then 1 else 0);
    && (hasOther ==> ToInsertPayload(ext[OTHER_KEY]).Some?
                     && accepts(OTHER_INSURANCE, ToInsertPayload(ext[OTHER_KEY]).value))
    && INSURED_KEY in ext && ext[INSURED_KEY].DictVal?
    && accepts(INSURED, WithOtherInsuranceId(ext[INSURED_KEY].entries, otherId))
    && ATTESTATION_KEY in ext && ToInsertPayload(ext[ATTESTATION_KEY]).Some?
    && accepts(ATTESTATION, ToInsertPayload(ext[ATTESTATION_KEY]).value)
    && PATIENT_KEY in ext && ext[PATIENT_KEY].DictVal?
    && accepts(PATIENT, WithPatientKeys(ext[PATIENT_KEY].entries, PyInt(insuredId), PyInt(insuredId + 1)))
  }

  /** The first two inserts: other insurance, if present, then insured. */
  function OtherThenInsured(t: Tables, ext: map<string, ObjValue>, accepts: (string, Row) -> bool): (r: InsertRun)
    ensures Appends(t, r)
    ensures r.attestation.None? && r.patient.None?
    ensures r.failure.None? <==> r.insured.Some?
    ensures r.insured.Some? ==> Matches(r.insured.value, OTHER_ID_COLUMN, IdOrNone(r.other))
    ensures r.insured.Some? ==> (r.other.Some? <==> OTHER_KEY in ext)
    ensures r.other.Some? ==> OTHER_KEY in ext
    ensures r.tables.nextId == t.nextId + Count(r.other) + Count(r.insured)
    ensures r.other.Some? ==> Matches(r.other.value, ID, PyInt(t.nextId))
    ensures r.insured.Some? ==> Matches(r.insured.value, ID, PyInt(t.nextId + Count(r.other)))
  {
    InsuredStep(OtherStep(t, ext, accepts), ext, accepts)
  }

  /**
   * The insert sequence of `/upload` (lines 125-133), in the order of the
   * code, each `create_*` fed the ids returned by the previous ones.
   */
  function ClaimFormInserts(t: Tables, ext: map<string, ObjValue>, accepts: (string, Row) -> bool): (r: InsertRun)
    ensures Appends(t, r)
    ensures Linked(r)
    ensures r.failure.None? <==> r.patient.Some?
    ensures r.patient.Some? ==> r.attestation.Some?
    ensures r.attestation.Some? ==> r.insured.Some?
    ensures r.insured.Some? ==> (r.other.Some? <==> OTHER_KEY in ext)
    ensures r.other.Some? ==> OTHER_KEY in ext
    ensures r.tables.nextId == t.nextId + Count(r.other) + Count(r.insured) + Count(r.attestation) + Count(r.patient)
    ensures r.other.Some? ==> Matches(r.other.value, ID, PyInt(t.nextId))
    ensures r.insured.Some? ==> Matches(r.insured.value, ID, PyInt(t.nextId + Count(r.other)))
    ensures r.attestation.Some? ==> Matches(r.attestation.value, ID, PyInt(t.nextId + Count(r.other) + 1))
    ensures r.patient.Some? ==> Matches(r.patient.value, ID, PyInt(t.nextId + Count(r.other) + 2))
  {
    var r2 := OtherThenInsured(t, ext, accepts);
    var r3 := AttestationStep(r2, ext, accepts);
    assert r3.tables.nextId == t.nextId + Count(r3.other) + Count(r3.insured) + Count(r3.attestation);
    assert Appends(t, r3);
    PatientStep(r3, ext, accepts)
  }

  /** A KeyError always names a section the extraction lacks. */
  lemma KeyErrorNamesAbsentKey(t: Tables, ext: map<string, ObjValue>, accepts: (string, Row) -> bool)
    ensures var r := ClaimFormInserts(t, ext, accepts);
            r.failure.Some? && r.failure.value.MissingKey? ==> r.failure.value.key !in ext
  {
    var r1 := OtherStep(t, ext, accepts);
    var r2 := InsuredStep(r1, ext, accepts);
    assert OtherThenInsured(t, ext, accepts) == r2;
    assert r2.failure.Some? && r2.failure.value.MissingKey? ==> r2.failure.value.key !in ext;
    var r3 := AttestationStep(r2, ext, accepts);
    assert r3.failure.Some? && r3.failure.value.MissingKey? ==> r3.failure.value.key !in ext;
    assert ClaimFormInserts(t, ext, accepts) == PatientStep(r3, ext, accepts);
  }

  /** The insert sequence completes exactly under the conditions of InsertsSucceed. */
  lemma ClaimFormSucceedsExactly(t: Tables, ext: map<string, ObjValue>, accepts: (string, Row) -> bool)
    ensures ClaimFormInserts(t, ext, accepts).failure.None? <==> InsertsSucceed(t, ext, accepts)
  {
    var r1 := OtherStep(t, ext, accepts);
    var r2 := InsuredStep(r1, ext, accepts);
    assert OtherThenInsured(t, ext, accepts) == r2;
    var r3 := AttestationStep(r2, ext, accepts);
    var r4 := PatientStep(r3, ext, accepts);
    assert ClaimFormInserts(t, ext, accepts) == r4;
    assert r1.failure.None? ==> IdOrNone(r1.other) == if OTHER_KEY in ext then PyInt(t.nextId) else PyNone;
    if r3.failure.None? {
      assert IdOf(r3.insured.value) == PyInt(t.nextId + Count(r1.other));
      assert IdOf(r3.attestation.value) == PyInt(t.nextId + Count(r1.other) + 1);
    }
  }

  /** A Python object for an extraction value: a fresh dict, a model, or None. */
  method ToObj(v: ObjValue) returns (o: Obj)
    ensures fresh(Footprint(o))
    ensures Snapshot(o) == v
  {
    match v
    case DictVal(e) =>
      var d := new PyDict(e);
      o := DictObj(d);
    case ModelVal(f) =>
      o := ModelObj(f);
    case NoneVal =>
      o := NoneObj;
  }

  /** Lines 125-133 of `/upload`, run against the repository. */
  method InsertClaimForm(db: Database, ext: map<string, ObjValue>) returns (failure: Option<InsertFailure>)
    modifies db
    ensures var run := ClaimFormInserts(old(db.tables), ext, db.accepts);
            db.tables == run.tables && failure == run.failure
  {
    ghost var r1 := OtherStep(db.tables, ext, db.accepts);
    var otherRow: Option<Row> := None;
    if OTHER_KEY in ext {
      var obj := ToObj(ext[OTHER_KEY]);
      otherRow := db.CreateOtherInsuranceInformation(obj);
      if otherRow.None? {
        return Some(Refused(OTHER_INSURANCE));
      }
    }
    assert db.tables == r1.tables && otherRow == r1.other;
    ghost var r2 := InsuredStep(r1, ext, db.accepts);
    if INSURED_KEY !in ext {
      return Some(MissingKey(INSURED_KEY));
    }
    var insuredObj := ToObj(ext[INSURED_KEY]);
    var insured := db.CreateInsuredInformation(insuredObj, IdOrNone(otherRow));
    if insured.None? {
      return Some(if ext[INSURED_KEY].DictVal? then Refused(INSURED) else NotADict(INSURED_KEY, TypeName(ext[INSURED_KEY], "InsuredInformationBase")));
    }
    assert db.tables == r2.tables && insured == r2.insured;
    ghost var r3 := AttestationStep(r2, ext, db.accepts);
    if ATTESTATION_KEY !in ext {
      return Some(MissingKey(ATTESTATION_KEY));
    }
    var attObj := ToObj(ext[ATTESTATION_KEY]);
    var att := db.CreateAttestation(attObj);
    if att.None? {
      return Some(Refused(ATTESTATION));
    }
    assert db.tables == r3.tables && att == r3.attestation;
    if PATIENT_KEY !in ext {
      return Some(MissingKey(PATIENT_KEY));
    }
    var patientObj := ToObj(ext[PATIENT_KEY]);
    var patient := db.CreatePatientInformation(patientObj, IdOf(insured.value), IdOf(att.value));
    if patient.None? {
      return Some(if ext[PATIENT_KEY].DictVal? then Refused(PATIENT) else NotADict(PATIENT_KEY, TypeName(ext[PATIENT_KEY], "PatientInformationBase")));
    }
    return None;
  }

  // ---------------------------------------------------------------------
  // Properties of the insert sequence

  /** After a complete run the new patient is found by the id of the new insured row. */
  lemma PatientFoundByNewInsuredId(t: Tables, ext: map<string, ObjValue>, accepts: (string, Row) -> bool)
    ensures var r := ClaimFormInserts(t, ext, accepts);
            r.failure.None? ==>
              r.patient.value in SelectEq(RowsOf(r.tables, PATIENT), INSURED_ID_COLUMN, IdOf(r.insured.value))
  {
    var r := ClaimFormInserts(t, ext, accepts);
    if r.failure.None? {
      var rows := RowsOf(r.tables, PATIENT);
      assert rows[|rows| - 1] == r.patient.value;
    }
  }

  /**
   * With fresh ids in the store, the id of each new row finds that row
   * and nothing else, so the foreign keys are unambiguous.
   */
  lemma NewRowsHaveUniqueIds(t: Tables, ext: map<string, ObjValue>, accepts: (string, Row) -> bool)
    requires IdsBelow(t)
    ensures var r := ClaimFormInserts(t, ext, accepts);
            && (r.other.Some? ==> SelectEq(RowsOf(r.tables, OTHER_INSURANCE), ID, IdOf(r.other.value)) == [r.other.value])
            && (r.insured.Some? ==> SelectEq(RowsOf(r.tables, INSURED), ID, IdOf(r.insured.value)) == [r.insured.value])
            && (r.attestation.Some? ==>
                  SelectEq(RowsOf(r.tables, ATTESTATION), ID, IdOf(r.attestation.value)) == [r.attestation.value])
            && (r.patient.Some? ==> SelectEq(RowsOf(r.tables, PATIENT), ID, IdOf(r.patient.value)) == [r.patient.value])
  {
    RunRowsUnique(t, ClaimFormInserts(t, ext, accepts));
  }

  /** The same for any run that appends rows with ids from the counter on. */
  lemma RunRowsUnique(t: Tables, r: InsertRun)
    requires IdsBelow(t) && Appends(t, r)
    requires r.other.Some? ==> Matches(r.other.value, ID, PyInt(t.nextId))
    requires r.insured.Some? ==> Matches(r.insured.value, ID, PyInt(t.nextId + Count(r.other)))
    requires r.attestation.Some? ==> Matches(r.attestation.value, ID, PyInt(t.nextId + Count(r.other) + 1))
    requires r.patient.Some? ==> Matches(r.patient.value, ID, PyInt(t.nextId + Count(r.other) + 2))
    ensures r.other.Some? ==> SelectEq(RowsOf(r.tables, OTHER_INSURANCE), ID, IdOf(r.other.value)) == [r.other.value]
    ensures r.insured.Some? ==> SelectEq(RowsOf(r.tables, INSURED), ID, IdOf(r.insured.value)) == [r.insured.value]
    ensures r.attestation.Some? ==>
              SelectEq(RowsOf(r.tables, ATTESTATION), ID, IdOf(r.attestation.value)) == [r.attestation.value]
    ensures r.patient.Some? ==> SelectEq(RowsOf(r.tables, PATIENT), ID, IdOf(r.patient.value)) == [r.patient.value]
  {
    if r.other.Some? {
      NewRowUnique(t, OTHER_INSURANCE, RowsOf(r.tables, OTHER_INSURANCE), r.other.value, t.nextId);
    }
    if r.insured.Some? {
      NewRowUnique(t, INSURED, RowsOf(r.tables, INSURED), r.insured.value, t.nextId + Count(r.other));
    }
    if r.attestation.Some? {
      NewRowUnique(t, ATTESTATION, RowsOf(r.tables, ATTESTATION), r.attestation.value, t.nextId + Count(r.other) + 1);
    }
    if r.patient.Some? {
      NewRowUnique(t, PATIENT, RowsOf(r.tables, PATIENT), r.patient.value, t.nextId + Count(r.other) + 2);
    }
  }

  /** A row appended to a table of a store with fresh ids, with an id not below the counter, is the only row with that id. */
  lemma NewRowUnique(t: Tables, table: string, rows: seq<Row>, row: Row, m: int)
    requires IdsBelow(t) && rows == RowsOf(t, table) + [row]
    requires t.nextId <= m && Matches(row, ID, PyInt(m))
    ensures SelectEq(rows, ID, IdOf(row)) == [row]
  {
    IdsBelowRows(t, table);
    SelectFreshId(RowsOf(t, table), row, t.nextId, m);
  }

  /**
   * There is no rollback: when the extraction lacks `patientInformation`,
   * the insured and attestation rows written before the KeyError remain.
   */
  lemma OrphanRowsWithoutPatient(t: Tables, ext: map<string, ObjValue>, accepts: (string, Row) -> bool)
    requires OTHER_KEY !in ext && PATIENT_KEY !in ext
    requires INSURED_KEY in ext && ext[INSURED_KEY].DictVal?
    requires ATTESTATION_KEY in ext && ext[ATTESTATION_KEY].DictVal?
    requires forall table, row :: accepts(table, row)
    ensures var r := ClaimFormInserts(t, ext, accepts);
            && r.failure == Some(MissingKey(PATIENT_KEY))
            && |RowsOf(r.tables, INSURED)| == |RowsOf(t, INSURED)| + 1
            && |RowsOf(r.tables, ATTESTATION)| == |RowsOf(t, ATTESTATION)| + 1
            && RowsOf(r.tables, PATIENT) == RowsOf(t, PATIENT)
  {
  }

  // ---------------------------------------------------------------------
  // The routes

  /** An `UploadFile` as a route sees it: the client's file name and the bytes read. */
  datatype UploadedFile = UploadedFile(filename: Option<string>, content: seq<bv8>)

  /** What `client.parse` does: raise, return an object without `markdown`, or return the markdown. */
  datatype ParseResult = ParseFailed(error: string) | NoMarkdown | Markdown(text: string)

  /** What `client.extract` does: raise, or return the extraction dict. */
  datatype ExtractResult = ExtractFailed(error: string) | Extracted(extraction: map<string, ObjValue>)

  /** The behaviour of the document-extraction service for one request. */
  datatype Vendor = Vendor(initError: Option<string>, parse: ParseResult, extract: ExtractResult)

  /** A JSON reply `{"message": ...}`, or an HTTPException. */
  datatype Reply = Success(message: string) | HttpError(status: nat, detail: string)

  /** Python truthiness of an optional string. */
  predicate Truthy(s: Option<string>)
  {
    s.Some? && s.value != ""
  }

  const UPLOAD_SUCCESS: string := "Document uploaded successfully"
  const PARSE_PREFIX: string := "Failed to parse document: "
  const NO_MARKDOWN: string := "Parser response missing expected 'markdown' attribute"
  const INIT_PREFIX: string := "Failed to initialize document parser: "

  /** Lines 55-75 of `/upload`: file name, API key and file size, in that order. */
  function Validate(file: UploadedFile, apiKey: Option<string>): (r: Option<Reply>)
    ensures r.None? <==> Truthy(file.filename) && Truthy(apiKey) && |file.content| > 0
    ensures !Truthy(file.filename) ==> r == Some(HttpError(400, "No filename provided"))
    ensures Truthy(file.filename) && !Truthy(apiKey) ==>
              r == Some(HttpError(500, "VISION_AGENT_API_KEY environment variable not configured"))
    ensures Truthy(file.filename) && Truthy(apiKey) && |file.content| == 0 ==>
              r == Some(HttpError(400, "Uploaded file is empty"))
  {
    if !Truthy(file.filename) then Some(HttpError(400, "No filename provided"))
    else if !Truthy(apiKey) then Some(HttpError(500, "VISION_AGENT_API_KEY environment variable not configured"))
    else if |file.content| == 0 then Some(HttpError(400, "Uploaded file is empty"))
    else None
  }

  /**
   * `str(e)` for the exception that stops the insert sequence: a KeyError
   * shows the quoted key, a TypeError the type that refused item
   * assignment; the text of a refused insert comes from the client.
   */
  function FailureText(f: InsertFailure, refusedText: string -> string): (s: string)
    ensures f.MissingKey? ==> s == "'" + f.key + "'"
    ensures f.NotADict? ==> s == "'" + f.typeName + "' object does not support item assignment"
  {
    match f
    case MissingKey(k) => "'" + k + "'"
    case NotADict(_, typeName) => "'" + typeName + "' object does not support item assignment"
    case Refused(table) => refusedText(table)
  }

  /** The outcome of one `/upload` request: the reply, the markdown kept in memory, the store. */
  datatype UploadOutcome = UploadOutcome(reply: Reply, markdown: Option<string>, tables: Tables)

  /**
   * `/upload` on values. Everything raised after the client is built,
   * including the HTTPException for a missing `markdown` attribute, is
   * caught by the inner handler and becomes a 500 whose detail starts
   * with "Failed to parse document: ".
   */
  function UploadFileSpec(file: UploadedFile, apiKey: Option<string>, vendor: Vendor, t: Tables,
                          accepts: (string, Row) -> bool, refusedText: string -> string): (r: UploadOutcome)
    ensures r.reply.Success? <==>
              && Validate(file, apiKey).None? && vendor.initError.None?
              && vendor.parse.Markdown? && vendor.extract.Extracted?
              && ClaimFormInserts(t, vendor.extract.extraction, accepts).failure.None?
    ensures r.reply.Success? ==> r.reply.message == UPLOAD_SUCCESS
    ensures r.reply.HttpError? ==> r.reply.status == 400 || r.reply.status == 500
    ensures r.reply.HttpError? && r.reply.status == 400 ==> Validate(file, apiKey).Some?
    ensures Validate(file, apiKey).Some? ==> r == UploadOutcome(Validate(file, apiKey).value, None, t)
    ensures Validate(file, apiKey).None? && vendor.initError.Some? ==>
              r == UploadOutcome(HttpError(500, INIT_PREFIX + vendor.initError.value), None, t)
    ensures Validate(file, apiKey).None? && vendor.initError.None? && r.reply.HttpError? ==>
              PARSE_PREFIX <= r.reply.detail
    ensures Validate(file, apiKey).None? && vendor.initError.None? && vendor.parse.ParseFailed? ==>
              r.reply == HttpError(500, PARSE_PREFIX + vendor.parse.error)
    ensures Validate(file, apiKey).None? && vendor.initError.None? && vendor.parse.NoMarkdown? ==>
              r.reply == HttpError(500, PARSE_PREFIX + "500: " + NO_MARKDOWN)
    ensures r.markdown.Some? && vendor.extract.ExtractFailed? ==>
              r.reply == HttpError(500, PARSE_PREFIX + vendor.extract.error)
    ensures r.markdown.Some? && vendor.extract.Extracted? &&
            ClaimFormInserts(t, vendor.extract.extraction, accepts).failure.Some? ==>
              r.reply == HttpError(500, PARSE_PREFIX + FailureText(ClaimFormInserts(t, vendor.extract.extraction, accepts).failure.value, refusedText))
    ensures r.markdown.Some? <==> Validate(file, apiKey).None? && vendor.initError.None? && vendor.parse.Markdown?
    ensures r.markdown.Some? ==> r.markdown.value == vendor.parse.text
    ensures r.tables != t ==> r.markdown.Some? && vendor.extract.Extracted?
    ensures r.markdown.Some? && vendor.extract.Extracted? ==>
              r.tables == ClaimFormInserts(t, vendor.extract.extraction, accepts).tables
  {
    var check := Validate(file, apiKey);
    if check.Some? then UploadOutcome(check.value, None, t)
    else if vendor.initError.Some? then
      UploadOutcome(HttpError(500, INIT_PREFIX + vendor.initError.value), None, t)
    else
      match vendor.parse
      case ParseFailed(e) => UploadOutcome(HttpError(500, PARSE_PREFIX + e), None, t)
      case NoMarkdown => UploadOutcome(HttpError(500, PARSE_PREFIX + "500: " + NO_MARKDOWN), None, t)
      case Markdown(text) =>
        match vendor.extract
        case ExtractFailed(e) => UploadOutcome(HttpError(500, PARSE_PREFIX + e), Some(text), t)
        case Extracted(ext) =>
          var run := ClaimFormInserts(t, ext, accepts);
          if run.failure.None? then UploadOutcome(Success(UPLOAD_SUCCESS), Some(text), run.tables)
          else UploadOutcome(HttpError(500, PARSE_PREFIX + FailureText(run.failure.value, refusedText)),
                             Some(text), run.tables)
  }

  /** `/claim_upload`: the same two checks on the file, then a fixed reply. */
  function ClaimUpload(file: UploadedFile): (r: Reply)
    ensures r.Success? <==> Truthy(file.filename) && |file.content| > 0
    ensures r.Success? ==> r.message == "Claim uploaded successfully"
    ensures r.HttpError? ==> r.status == 400
  {
    if !Truthy(file.filename) then HttpError(400, "No filename provided")
    else if |file.content| == 0 then HttpError(400, "Uploaded file is empty")
    else Success("Claim uploaded successfully")
  }

  /** With an API key configured, both routes refuse the same files with the same replies. */
  lemma ClaimUploadAgreesWithUpload(file: UploadedFile, apiKey: Option<string>)
    requires Truthy(apiKey)
    ensures ClaimUpload(file).Success? <==> Validate(file, apiKey).None?
    ensures ClaimUpload(file).HttpError? ==> Validate(file, apiKey) == Some(ClaimUpload(file))
  {
  }

  /** The application: the in-memory document store and the repository. */
  class App {
    var uploadedDocuments: map<string, string>
    const database: Database

    constructor (database: Database)
      ensures uploadedDocuments == map[] && this.database == database
    {
      uploadedDocuments := map[];
      this.database := database;
    }

    /** `POST /upload`; file writes and logging are not modelled. */
    method UploadFile(file: UploadedFile, apiKey: Option<string>, vendor: Vendor, refusedText: string -> string)
      returns (reply: Reply)
      modifies this, database
      ensures var out := UploadFileSpec(file, apiKey, vendor, old(database.tables), database.accepts, refusedText);
              && reply == out.reply
              && database.tables == out.tables
              && uploadedDocuments == if out.markdown.Some? then old(uploadedDocuments)["default" := out.markdown.value]
                                      else old(uploadedDocuments)
    {
      var check := Validate(file, apiKey);
      if check.Some? {
        return check.value;
      }
      if vendor.initError.Some? {
        return HttpError(500, INIT_PREFIX + vendor.initError.value);
      }
      match vendor.parse {
        case ParseFailed(e) =>
          return HttpError(500, PARSE_PREFIX + e);
        case NoMarkdown =>
          return HttpError(500, PARSE_PREFIX + "500: " + NO_MARKDOWN);
        case Markdown(text) =>
          uploadedDocuments := uploadedDocuments["default" := text];
          match vendor.extract {
            case ExtractFailed(e) =>
              return HttpError(500, PARSE_PREFIX + e);
            case Extracted(ext) =>
              var failure := InsertClaimForm(database, ext);
              if failure.Some? {
                return HttpError(500, PARSE_PREFIX + FailureText(failure.value, refusedText));
              }
              return Success(UPLOAD_SUCCESS);
          }
      }
    }
  }
}
