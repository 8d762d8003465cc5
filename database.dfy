/**
 * The repository layer of the backend: one call per table and operation
 * against the hosted store. The extraction sections arrive as Python
 * dicts, which `create_insured_information` and
 * `create_patient_information` update in place before inserting them.
 */
module Database {
  import opened Wrappers
  import opened Store
  import Seqs

  const OTHER_INSURANCE: string := "Other_Insurance_Information"
  const ATTESTATION: string := "Attestation"
  const INSURED: string := "Insured_Information"
  const PATIENT: string := "Patient_Information"

  const OTHER_ID_COLUMN: string := "other_identification_number"
  const INSURED_ID_COLUMN: string := "insured_id"
  const ATTESTATION_ID_COLUMN: string := "attestation_id"

  /** The field names of OtherInsuranceInformationBase. */
  const OTHER_INSURANCE_FIELDS: set<string> := {
    "policy_holder_insurance_last_name", "policy_holder_insurance_first_name",
    "policy_holder_insurance_middle_initial", "policy_holder_insurance_date_of_birth",
    "policy_holder_identification_number", "policy_holder_insurance_plan_name",
    "policy_holder_insurance_gender", "policy_holder_phone_number", "policy_holder_employer_name"
  }

  /** A mutable Python dict. */
  class PyDict {
    var entries: Row

    constructor (entries: Row)
      ensures this.entries == entries
    {
      this.entries := entries;
    }
  }

  /** What a repository call may be handed: a dict, a SQLModel instance (its field values), or None. */
  datatype Obj = DictObj(dict: PyDict) | ModelObj(fields: Row) | NoneObj

  /** The same, as a value: the contents of the dict at one moment. */
  datatype ObjValue = DictVal(entries: Row) | ModelVal(fields: Row) | NoneVal

  function Footprint(o: Obj): set<object>
  {
    if o.DictObj? then {o.dict} else {}
  }

  function Snapshot(o: Obj): ObjValue
    reads Footprint(o)
  {
    match o
    case DictObj(d) => DictVal(d.entries)
    case ModelObj(f) => ModelVal(f)
    case NoneObj => NoneVal
  }

  /**
   * `_to_insert_payload`: a model becomes its dump without the None-valued
   * fields; anything else (a dict, None) is passed on unchanged.
   */
  function ToInsertPayload(o: ObjValue): (p: Option<Row>)
    ensures o.DictVal? ==> p == Some(o.entries)
    ensures o.NoneVal? ==> p.None?
    ensures o.ModelVal? ==> p.Some?
                            && (forall k :: k in p.value <==> k in o.fields && o.fields[k] != PyNone)
                            && (forall k :: k in p.value ==> p.value[k] == o.fields[k])
  {
    match o
    case DictVal(e) => Some(e)
    case ModelVal(f) => Some(map k | k in f && f[k] != PyNone :: f[k])
    case NoneVal => None
  }

  /** The dict after `insured_information["other_identification_number"] = other_insurance_id`. */
  function WithOtherInsuranceId(entries: Row, otherInsuranceId: Value): (r: Row)
    ensures Matches(r, OTHER_ID_COLUMN, otherInsuranceId)
    ensures forall k :: k != OTHER_ID_COLUMN ==> (k in r <==> k in entries)
    ensures forall k :: k != OTHER_ID_COLUMN && k in entries ==> r[k] == entries[k]
  {
    entries[OTHER_ID_COLUMN := otherInsuranceId]
  }

  /** The dict after setting `insured_id` and then `attestation_id`. */
  function WithPatientKeys(entries: Row, insuredId: Value, attestationId: Value): (r: Row)
    ensures Matches(r, INSURED_ID_COLUMN, insuredId) && Matches(r, ATTESTATION_ID_COLUMN, attestationId)
    ensures forall k :: k != INSURED_ID_COLUMN && k != ATTESTATION_ID_COLUMN ==> (k in r <==> k in entries)
    ensures forall k :: k != INSURED_ID_COLUMN && k != ATTESTATION_ID_COLUMN && k in entries ==> r[k] == entries[k]
  {
    entries[INSURED_ID_COLUMN := insuredId][ATTESTATION_ID_COLUMN := attestationId]
  }

  // ---------------------------------------------------------------------
  // The create_* calls, on values (the methods below are proved to agree)

  /** `create_other_insurance_information`: one insert into Other_Insurance_Information. */
  function CreateOtherInsuranceSpec(t: Tables, o: ObjValue, accepts: (string, Row) -> bool)
    : (r: (Tables, Option<Row>))
    ensures forall other :: other != OTHER_INSURANCE ==> RowsOf(r.0, other) == RowsOf(t, other)
    ensures r.1.Some? ==> Matches(r.1.value, ID, PyInt(t.nextId)) && r.0.nextId == t.nextId + 1
    ensures r.1.Some? ==> RowsOf(r.0, OTHER_INSURANCE) == RowsOf(t, OTHER_INSURANCE) + [r.1.value]
    ensures r.1.None? ==> r.0 == t
    ensures o.NoneVal? ==> r.1.None?
  {
    Insert(t, OTHER_INSURANCE, ToInsertPayload(o), accepts)
  }

  /** `create_attestation`: one insert into Attestation. */
  function CreateAttestationSpec(t: Tables, o: ObjValue, accepts: (string, Row) -> bool)
    : (r: (Tables, Option<Row>))
    ensures forall other :: other != ATTESTATION ==> RowsOf(r.0, other) == RowsOf(t, other)
    ensures r.1.Some? ==> Matches(r.1.value, ID, PyInt(t.nextId)) && r.0.nextId == t.nextId + 1
    ensures r.1.Some? ==> RowsOf(r.0, ATTESTATION) == RowsOf(t, ATTESTATION) + [r.1.value]
    ensures r.1.None? ==> r.0 == t
    ensures o.NoneVal? ==> r.1.None?
  {
    Insert(t, ATTESTATION, ToInsertPayload(o), accepts)
  }

  /**
   * `create_insured_information`: item assignment on a model or on None
   * raises TypeError before anything is sent; a dict gets the other
   * insurance id (None included) and is inserted into Insured_Information.
   */
  function CreateInsuredSpec(t: Tables, o: ObjValue, otherInsuranceId: Value, accepts: (string, Row) -> bool)
    : (r: (Tables, Option<Row>))
    ensures forall other :: other != INSURED ==> RowsOf(r.0, other) == RowsOf(t, other)
    ensures r.1.Some? ==> Matches(r.1.value, ID, PyInt(t.nextId)) && r.0.nextId == t.nextId + 1
    ensures r.1.Some? ==> RowsOf(r.0, INSURED) == RowsOf(t, INSURED) + [r.1.value]
                          && Matches(r.1.value, OTHER_ID_COLUMN, otherInsuranceId)
    ensures r.1.None? ==> r.0 == t
    ensures !o.DictVal? ==> r.1.None?
  {
    if o.DictVal? then Insert(t, INSURED, ToInsertPayload(DictVal(WithOtherInsuranceId(o.entries, otherInsuranceId))), accepts)
    else (t, None)
  }

  /**
   * `create_patient_information`: a dict gets both foreign keys and is
   * inserted into Patient_Information; a model or None raises TypeError.
   */
  function CreatePatientSpec(t: Tables, o: ObjValue, insuredId: Value, attestationId: Value,
                             accepts: (string, Row) -> bool)
    : (r: (Tables, Option<Row>))
    ensures forall other :: other != PATIENT ==> RowsOf(r.0, other) == RowsOf(t, other)
    ensures r.1.Some? ==> Matches(r.1.value, ID, PyInt(t.nextId)) && r.0.nextId == t.nextId + 1
    ensures r.1.Some? ==> RowsOf(r.0, PATIENT) == RowsOf(t, PATIENT) + [r.1.value]
                          && Matches(r.1.value, INSURED_ID_COLUMN, insuredId)
                          && Matches(r.1.value, ATTESTATION_ID_COLUMN, attestationId)
    ensures r.1.None? ==> r.0 == t
    ensures !o.DictVal? ==> r.1.None?
  {
    if o.DictVal? then
      Insert(t, PATIENT, ToInsertPayload(DictVal(WithPatientKeys(o.entries, insuredId, attestationId))), accepts)
    else (t, None)
  }

  /**
   * `update_*`: the object is handed to the client as it is. A dict's
   * entries, None values included, overwrite the matching rows; a model
   * or None cannot be serialised as a JSON object and the call fails.
   */
  function UpdateSpec(t: Tables, table: string, id: int, o: ObjValue): (r: (Tables, Option<seq<Row>>))
    ensures o.DictVal? ==> r.1.Some? && RowsOf(r.0, table) == UpdateEq(RowsOf(t, table), ID, PyInt(id), o.entries)
    ensures !o.DictVal? ==> r == (t, None)
    ensures forall other :: other != table ==> RowsOf(r.0, other) == RowsOf(t, other)
  {
    if o.DictVal? then
      var (t', rows) := Update(t, table, id, o.entries);
      (t', Some(rows))
    else (t, None)
  }

  // ---------------------------------------------------------------------
  // The repository

  class Database {
    var tables: Tables
    const accepts: (string, Row) -> bool

    constructor (accepts: (string, Row) -> bool)
      ensures tables == Empty && this.accepts == accepts
    {
      tables := Empty;
      this.accepts := accepts;
    }

    method CreateOtherInsuranceInformation(obj: Obj) returns (r: Option<Row>)
      modifies this
      ensures (tables, r) == CreateOtherInsuranceSpec(old(tables), old(Snapshot(obj)), accepts)
    {
      var outcome := Insert(tables, OTHER_INSURANCE, ToInsertPayload(Snapshot(obj)), accepts);
      tables, r := outcome.0, outcome.1;
    }

    method CreateAttestation(obj: Obj) returns (r: Option<Row>)
      modifies this
      ensures (tables, r) == CreateAttestationSpec(old(tables), old(Snapshot(obj)), accepts)
    {
      var outcome := Insert(tables, ATTESTATION, ToInsertPayload(Snapshot(obj)), accepts);
      tables, r := outcome.0, outcome.1;
    }

    method CreateInsuredInformation(obj: Obj, otherInsuranceId: Value) returns (r: Option<Row>)
      modifies this, Footprint(obj)
      ensures obj.DictObj? ==> obj.dict.entries == WithOtherInsuranceId(old(obj.dict.entries), otherInsuranceId)
      ensures (tables, r) == CreateInsuredSpec(old(tables), old(Snapshot(obj)), otherInsuranceId, accepts)
    {
      if !obj.DictObj? {
        return None;
      }
      obj.dict.entries := obj.dict.entries[OTHER_ID_COLUMN := otherInsuranceId];
      var outcome := Insert(tables, INSURED, ToInsertPayload(Snapshot(obj)), accepts);
      tables, r := outcome.0, outcome.1;
    }

    method CreatePatientInformation(obj: Obj, insuredId: Value, attestationId: Value) returns (r: Option<Row>)
      modifies this, Footprint(obj)
      ensures obj.DictObj? ==> obj.dict.entries == WithPatientKeys(old(obj.dict.entries), insuredId, attestationId)
      ensures (tables, r) == CreatePatientSpec(old(tables), old(Snapshot(obj)), insuredId, attestationId, accepts)
    {
      if !obj.DictObj? {
        return None;
      }
      obj.dict.entries := obj.dict.entries[INSURED_ID_COLUMN := insuredId];
      obj.dict.entries := obj.dict.entries[ATTESTATION_ID_COLUMN := attestationId];
      var outcome := Insert(tables, PATIENT, ToInsertPayload(Snapshot(obj)), accepts);
      tables, r := outcome.0, outcome.1;
    }

    // SELECT

    function GetAllPatientInformation(): (r: seq<Row>)
      reads this
      ensures r == RowsOf(tables, PATIENT)
    {
      RowsOf(tables, PATIENT)
    }

    function GetPatientInformation(patientId: int): (r: seq<Row>)
      reads this
      ensures Selected(r, RowsOf(tables, PATIENT), ID, PyInt(patientId))
    {
      SelectEq(RowsOf(tables, PATIENT), ID, PyInt(patientId))
    }

    function GetAllPatientInformationByPatientLastName(patientLastName: string): (r: seq<Row>)
      reads this
      ensures Selected(r, RowsOf(tables, PATIENT), "patient_last_name", PyStr(patientLastName))
    {
      SelectEq(RowsOf(tables, PATIENT), "patient_last_name", PyStr(patientLastName))
    }

    function GetAllPatientInformationByInsuredId(insuredId: int): (r: seq<Row>)
      reads this
      ensures Selected(r, RowsOf(tables, PATIENT), INSURED_ID_COLUMN, PyInt(insuredId))
    {
      SelectEq(RowsOf(tables, PATIENT), INSURED_ID_COLUMN, PyInt(insuredId))
    }

    function GetAllInsuredInformation(): (r: seq<Row>)
      reads this
      ensures r == RowsOf(tables, INSURED)
    {
      RowsOf(tables, INSURED)
    }

    function GetInsuredInformation(insuredId: int): (r: seq<Row>)
      reads this
      ensures Selected(r, RowsOf(tables, INSURED), ID, PyInt(insuredId))
    {
      SelectEq(RowsOf(tables, INSURED), ID, PyInt(insuredId))
    }

    function GetAllInsuredInformationByLastName(lastName: string): (r: seq<Row>)
      reads this
      ensures Selected(r, RowsOf(tables, INSURED), "last_name", PyStr(lastName))
    {
      SelectEq(RowsOf(tables, INSURED), "last_name", PyStr(lastName))
    }

    function GetAllInsuredInformationByOtherInsuranceId(otherInsuranceId: int): (r: seq<Row>)
      reads this
      ensures Selected(r, RowsOf(tables, INSURED), OTHER_ID_COLUMN, PyInt(otherInsuranceId))
    {
      SelectEq(RowsOf(tables, INSURED), OTHER_ID_COLUMN, PyInt(otherInsuranceId))
    }

    function GetAllOtherInsuranceInformation(): (r: seq<Row>)
      reads this
      ensures r == RowsOf(tables, OTHER_INSURANCE)
    {
      RowsOf(tables, OTHER_INSURANCE)
    }

    function GetOtherInsuranceInformation(otherInsuranceId: int): (r: seq<Row>)
      reads this
      ensures Selected(r, RowsOf(tables, OTHER_INSURANCE), ID, PyInt(otherInsuranceId))
    {
      SelectEq(RowsOf(tables, OTHER_INSURANCE), ID, PyInt(otherInsuranceId))
    }

    /** Filters on the column `policy_holder_last_name`, which is not a field of the schema. */
    function GetAllOtherInsuranceInformationByPolicyHolderLastName(policyHolderLastName: string): (r: seq<Row>)
      reads this
      ensures Selected(r, RowsOf(tables, OTHER_INSURANCE), "policy_holder_last_name", PyStr(policyHolderLastName))
    {
      SelectEq(RowsOf(tables, OTHER_INSURANCE), "policy_holder_last_name", PyStr(policyHolderLastName))
    }

    function GetAllAttestation(): (r: seq<Row>)
      reads this
      ensures r == RowsOf(tables, ATTESTATION)
    {
      RowsOf(tables, ATTESTATION)
    }

    function GetAttestation(attestationId: int): (r: seq<Row>)
      reads this
      ensures Selected(r, RowsOf(tables, ATTESTATION), ID, PyInt(attestationId))
    {
      SelectEq(RowsOf(tables, ATTESTATION), ID, PyInt(attestationId))
    }

    // UPDATE

    method UpdatePatientInformation(patientId: int, obj: Obj) returns (r: Option<seq<Row>>)
      modifies this
      ensures (tables, r) == UpdateSpec(old(tables), PATIENT, patientId, Snapshot(obj))
    {
      var outcome := UpdateSpec(tables, PATIENT, patientId, Snapshot(obj));
      tables, r := outcome.0, outcome.1;
    }

    method UpdateInsuredInformation(insuredId: int, obj: Obj) returns (r: Option<seq<Row>>)
      modifies this
      ensures (tables, r) == UpdateSpec(old(tables), INSURED, insuredId, Snapshot(obj))
    {
      var outcome := UpdateSpec(tables, INSURED, insuredId, Snapshot(obj));
      tables, r := outcome.0, outcome.1;
    }

    method UpdateOtherInsuranceInformation(otherInsuranceId: int, obj: Obj) returns (r: Option<seq<Row>>)
      modifies this
      ensures (tables, r) == UpdateSpec(old(tables), OTHER_INSURANCE, otherInsuranceId, Snapshot(obj))
    {
      var outcome := UpdateSpec(tables, OTHER_INSURANCE, otherInsuranceId, Snapshot(obj));
      tables, r := outcome.0, outcome.1;
    }

    method UpdateAttestation(attestationId: int, obj: Obj) returns (r: Option<seq<Row>>)
      modifies this
      ensures (tables, r) == UpdateSpec(old(tables), ATTESTATION, attestationId, Snapshot(obj))
    {
      var outcome := UpdateSpec(tables, ATTESTATION, attestationId, Snapshot(obj));
      tables, r := outcome.0, outcome.1;
    }

    // DELETE

    method DeletePatientInformation(patientId: int) returns (r: seq<Row>)
      modifies this
      ensures (tables, r) == Delete(old(tables), PATIENT, patientId)
    {
      var outcome := Delete(tables, PATIENT, patientId);
      tables, r := outcome.0, outcome.1;
    }

    method DeleteInsuredInformation(insuredId: int) returns (r: seq<Row>)
      modifies this
      ensures (tables, r) == Delete(old(tables), INSURED, insuredId)
    {
      var outcome := Delete(tables, INSURED, insuredId);
      tables, r := outcome.0, outcome.1;
    }

    method DeleteOtherInsuranceInformation(otherInsuranceId: int) returns (r: seq<Row>)
      modifies this
      ensures (tables, r) == Delete(old(tables), OTHER_INSURANCE, otherInsuranceId)
    {
      var outcome := Delete(tables, OTHER_INSURANCE, otherInsuranceId);
      tables, r := outcome.0, outcome.1;
    }

    method DeleteAttestation(attestationId: int) returns (r: seq<Row>)
      modifies this
      ensures (tables, r) == Delete(old(tables), ATTESTATION, attestationId)
    {
      var outcome := Delete(tables, ATTESTATION, attestationId);
      tables, r := outcome.0, outcome.1;
    }
  }

  // ---------------------------------------------------------------------
  // Properties of the repository

  /** A patient created with insured id k is returned by the lookup on `insured_id = k`. */
  lemma PatientFoundByInsuredId(t: Tables, o: ObjValue, k: int, attestationId: Value, accepts: (string, Row) -> bool)
    ensures var (t', row) := CreatePatientSpec(t, o, PyInt(k), attestationId, accepts);
            row.Some? ==> row.value in SelectEq(RowsOf(t', PATIENT), INSURED_ID_COLUMN, PyInt(k))
  {
    if o.DictVal? {
      var payload := WithPatientKeys(o.entries, PyInt(k), attestationId);
      if accepts(PATIENT, payload) {
        FoundAfterInsert(t, PATIENT, payload, accepts, INSURED_ID_COLUMN, PyInt(k));
      }
    }
  }

  /** An insured created with other-insurance id k is returned by the lookup on that column. */
  lemma InsuredFoundByOtherInsuranceId(t: Tables, o: ObjValue, k: int, accepts: (string, Row) -> bool)
    ensures var (t', row) := CreateInsuredSpec(t, o, PyInt(k), accepts);
            row.Some? ==> row.value in SelectEq(RowsOf(t', INSURED), OTHER_ID_COLUMN, PyInt(k))
  {
    if o.DictVal? {
      var payload := WithOtherInsuranceId(o.entries, PyInt(k));
      if accepts(INSURED, payload) {
        FoundAfterInsert(t, INSURED, payload, accepts, OTHER_ID_COLUMN, PyInt(k));
      }
    }
  }

  /**
   * A row created from an OtherInsuranceInformationBase model never matches
   * the policy-holder lookup, whose column is not one of the model's fields.
   */
  lemma PolicyHolderLookupMissesModelRows(t: Tables, fields: Row, name: string, accepts: (string, Row) -> bool)
    requires fields.Keys <= OTHER_INSURANCE_FIELDS
    ensures var (t', row) := CreateOtherInsuranceSpec(t, ModelVal(fields), accepts);
            row.Some? ==> row.value !in SelectEq(RowsOf(t', OTHER_INSURANCE), "policy_holder_last_name", PyStr(name))
  {
    var (t', row) := CreateOtherInsuranceSpec(t, ModelVal(fields), accepts);
    if row.Some? {
      assert "policy_holder_last_name" !in row.value;
    }
  }

  /** A model object is accepted by the create path but refused by the update path. */
  lemma ModelCreateButNotUpdate(t: Tables, fields: Row, table: string, id: int)
    ensures ToInsertPayload(ModelVal(fields)).Some?
    ensures UpdateSpec(t, table, id, ModelVal(fields)) == (t, None)
  {
  }

  /** An update writes a dict's None values through to every matching row. */
  lemma UpdateWritesNoneValues(t: Tables, table: string, id: int, entries: Row, column: string)
    requires column in entries && entries[column] == PyNone
    ensures var (t', _) := UpdateSpec(t, table, id, DictVal(entries));
            forall i :: 0 <= i < |RowsOf(t, table)| && Matches(RowsOf(t, table)[i], ID, PyInt(id))
                        ==> Matches(RowsOf(t', table)[i], column, PyNone)
  {
  }
}
