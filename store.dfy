/**
 * An abstract stand-in for the hosted relational backend the repository
 * layer talks to: a map from table name to its rows, in insertion order.
 * Every insert is given the next value of one store-wide counter as its
 * `id`. Whether the backend accepts an insert (schema, constraints,
 * network) is outside the model and is decided by an `accepts` oracle.
 */
module Store {
  import opened Wrappers
  import Seqs

  /** A scalar column value as the Python side sees it. */
  datatype Value = PyNone | PyInt(i: int) | PyStr(s: string) | PyBool(b: bool)

  type Row = map<string, Value>

  datatype Tables = Tables(rows: map<string, seq<Row>>, nextId: int)

  const ID: string := "id"

  const Empty: Tables := Tables(map[], 1)

  function RowsOf(t: Tables, table: string): seq<Row>
  {
    if table in t.rows then t.rows[table] else []
  }

  /** The row satisfies the PostgREST filter `column=eq.v`. */
  predicate Matches(row: Row, column: string, v: Value)
  {
    column in row && row[column] == v
  }

  /**
   * `r` is what a filter `column=eq.v` returns from `rows`: only matching
   * rows, every matching row, in table order.
   */
  predicate Selected(r: seq<Row>, rows: seq<Row>, column: string, v: Value)
  {
    && (forall i :: 0 <= i < |r| ==> r[i] in rows && Matches(r[i], column, v))
    && (forall i :: 0 <= i < |rows| && Matches(rows[i], column, v) ==> rows[i] in r)
    && Seqs.IsSubsequence(r, rows)
  }

  /** `select("*").eq(column, v)` over the rows of one table. */
  function SelectEq(rows: seq<Row>, column: string, v: Value): (r: seq<Row>)
    ensures |r| <= |rows|
    ensures Selected(r, rows, column, v)
  {
    Seqs.FilterIsSubsequence(rows, (row: Row) => Matches(row, column, v));
    Seqs.Filter(rows, (row: Row) => Matches(row, column, v))
  }

  /** Every row of every table carries an integer id below the counter. */
  ghost predicate IdsBelow(t: Tables)
  {
    forall table, i :: table in t.rows && 0 <= i < |t.rows[table]| ==>
      ID in t.rows[table][i] && t.rows[table][i][ID].PyInt? && t.rows[table][i][ID].i < t.nextId
  }

  /** The row the backend stores for `payload`: the payload with a fresh id. */
  function NewRow(t: Tables, payload: Row): (row: Row)
    ensures Matches(row, ID, PyInt(t.nextId))
    ensures forall k :: k in payload && k != ID ==> Matches(row, k, payload[k])
    ensures forall k :: k in row ==> k == ID || k in payload
  {
    payload[ID := PyInt(t.nextId)]
  }

  /**
   * `from_(table).insert(payload).execute()`: on success the new row is
   * appended to `table` and returned; on rejection nothing changes. A
   * None payload (Python's `None` sent as the body) is rejected.
   */
  function Insert(t: Tables, table: string, payload: Option<Row>, accepts: (string, Row) -> bool)
    : (r: (Tables, Option<Row>))
    ensures r.1.None? <==> payload.None? || !accepts(table, payload.value)
    ensures r.1.None? ==> r.0 == t
    ensures r.1.Some? ==> r.1.value == NewRow(t, payload.value)
                          && RowsOf(r.0, table) == RowsOf(t, table) + [r.1.value]
                          && r.0.nextId == t.nextId + 1
    ensures forall other :: other != table ==> RowsOf(r.0, other) == RowsOf(t, other)
  {
    if payload.None? || !accepts(table, payload.value) then (t, None)
    else
      var row := NewRow(t, payload.value);
      (Tables(t.rows[table := RowsOf(t, table) + [row]], t.nextId + 1), Some(row))
  }

  /** `row + patch`: the columns of `patch` overwrite those of `row`. */
  function Patched(row: Row, patch: Row): (r: Row)
    ensures forall k :: k in patch ==> Matches(r, k, patch[k])
    ensures forall k :: k in row && k !in patch ==> Matches(r, k, row[k])
    ensures forall k :: k in r ==> k in row || k in patch
  {
    row + patch
  }

  /** The rows of a table after `update(patch).eq(column, v)`. */
  function UpdateEq(rows: seq<Row>, column: string, v: Value, patch: Row): (r: seq<Row>)
    ensures |r| == |rows|
    ensures forall i :: 0 <= i < |rows| ==>
      r[i] == if Matches(rows[i], column, v) then Patched(rows[i], patch) else rows[i]
  {
    if rows == [] then []
    else
      [if Matches(rows[0], column, v) then Patched(rows[0], patch) else rows[0]]
      + UpdateEq(rows[1..], column, v, patch)
  }

  /** `from_(table).update(patch).eq("id", id).execute()`; returns the updated rows. */
  function Update(t: Tables, table: string, id: int, patch: Row): (r: (Tables, seq<Row>))
    ensures RowsOf(r.0, table) == UpdateEq(RowsOf(t, table), ID, PyInt(id), patch)
    ensures forall other :: other != table ==> RowsOf(r.0, other) == RowsOf(t, other)
    ensures r.0.nextId == t.nextId
    ensures |r.1| == |SelectEq(RowsOf(t, table), ID, PyInt(id))|
    ensures forall i :: 0 <= i < |r.1| ==> r.1[i] == Patched(SelectEq(RowsOf(t, table), ID, PyInt(id))[i], patch)
  {
    var old_ := RowsOf(t, table);
    (Tables(t.rows[table := UpdateEq(old_, ID, PyInt(id), patch)], t.nextId),
     seq(|SelectEq(old_, ID, PyInt(id))|, i requires 0 <= i < |SelectEq(old_, ID, PyInt(id))| =>
       Patched(SelectEq(old_, ID, PyInt(id))[i], patch)))
  }

  /** `from_(table).delete().eq("id", id).execute()`; returns the deleted rows. */
  function Delete(t: Tables, table: string, id: int): (r: (Tables, seq<Row>))
    ensures RowsOf(r.0, table) == Seqs.Filter(RowsOf(t, table), (row: Row) => !Matches(row, ID, PyInt(id)))
    ensures forall other :: other != table ==> RowsOf(r.0, other) == RowsOf(t, other)
    ensures r.0.nextId == t.nextId
    ensures r.1 == SelectEq(RowsOf(t, table), ID, PyInt(id))
  {
    var old_ := RowsOf(t, table);
    (Tables(t.rows[table := Seqs.Filter(old_, (row: Row) => !Matches(row, ID, PyInt(id)))], t.nextId),
     SelectEq(old_, ID, PyInt(id)))
  }

  // ---------------------------------------------------------------------
  // Properties of the store

  /** After an insert, a select on the same table sees exactly one more row if the new row matches. */
  lemma SelectAfterInsert(t: Tables, table: string, payload: Row, accepts: (string, Row) -> bool,
                          column: string, v: Value)
    requires accepts(table, payload)
    ensures var (t', row) := Insert(t, table, Some(payload), accepts);
            SelectEq(RowsOf(t', table), column, v)
            == SelectEq(RowsOf(t, table), column, v) + (if Matches(row.value, column, v) then [row.value] else [])
  {
    var (t', row) := Insert(t, table, Some(payload), accepts);
    var p := (r: Row) => Matches(r, column, v);
    Seqs.FilterAppend(RowsOf(t, table), [row.value], p);
  }

  /** A row inserted with `column = v` (other than the id) is found by `eq(column, v)`. */
  lemma FoundAfterInsert(t: Tables, table: string, payload: Row, accepts: (string, Row) -> bool,
                         column: string, v: Value)
    requires accepts(table, payload) && column != ID && Matches(payload, column, v)
    ensures var (t', row) := Insert(t, table, Some(payload), accepts);
            row.Some? && row.value in SelectEq(RowsOf(t', table), column, v)
  {
    SelectAfterInsert(t, table, payload, accepts, column, v);
  }

  /** With fresh ids, looking up the id of a new row finds that row and nothing else. */
  lemma GetByIdAfterInsert(t: Tables, table: string, payload: Row, accepts: (string, Row) -> bool)
    requires IdsBelow(t) && accepts(table, payload)
    ensures var (t', row) := Insert(t, table, Some(payload), accepts);
            SelectEq(RowsOf(t', table), ID, PyInt(t.nextId)) == [row.value]
  {
    var (t', row) := Insert(t, table, Some(payload), accepts);
    var p := (r: Row) => Matches(r, ID, PyInt(t.nextId));
    SelectAfterInsert(t, table, payload, accepts, ID, PyInt(t.nextId));
    var olds := RowsOf(t, table);
    forall i | 0 <= i < |olds| ensures !p(olds[i]) {
      assert table in t.rows;
      assert olds[i] == t.rows[table][i];
    }
    Seqs.FilterNone(olds, p);
  }

  /** Every row of every table of `t` has an integer id below `n`. */
  lemma IdsBelowRows(t: Tables, table: string)
    requires IdsBelow(t)
    ensures forall i :: 0 <= i < |RowsOf(t, table)| ==>
      ID in RowsOf(t, table)[i] && RowsOf(t, table)[i][ID].PyInt? && RowsOf(t, table)[i][ID].i < t.nextId
  {
    if table in t.rows {
      assert RowsOf(t, table) == t.rows[table];
    }
  }

  /** A row appended with an id no older row can have is the only row found by that id. */
  lemma SelectFreshId(rows: seq<Row>, row: Row, n: int, m: int)
    requires forall i :: 0 <= i < |rows| ==> ID in rows[i] && rows[i][ID].PyInt? && rows[i][ID].i < n
    requires n <= m && Matches(row, ID, PyInt(m))
    ensures SelectEq(rows + [row], ID, PyInt(m)) == [row]
  {
    var p := (r: Row) => Matches(r, ID, PyInt(m));
    Seqs.FilterAppend(rows, [row], p);
    Seqs.FilterNone(rows, p);
  }

  lemma InsertKeepsIdsBelow(t: Tables, table: string, payload: Option<Row>, accepts: (string, Row) -> bool)
    requires IdsBelow(t)
    ensures IdsBelow(Insert(t, table, payload, accepts).0)
  {
    var t' := Insert(t, table, payload, accepts).0;
    forall name, i | name in t'.rows && 0 <= i < |t'.rows[name]|
      ensures ID in t'.rows[name][i] && t'.rows[name][i][ID].PyInt? && t'.rows[name][i][ID].i < t'.nextId
    {
      if t' != t {
        assert RowsOf(t', name) == t'.rows[name];
        if name == table {
          if i < |RowsOf(t, table)| {
            assert t'.rows[name][i] == t.rows[table][i];
          }
        } else {
          assert t'.rows[name] == t.rows[name];
        }
      }
    }
  }

  /** An update whose patch leaves the `id` column alone preserves the fresh-id invariant. */
  lemma UpdateKeepsIdsBelow(t: Tables, table: string, id: int, patch: Row)
    requires IdsBelow(t) && ID !in patch
    ensures IdsBelow(Update(t, table, id, patch).0)
  {
    var t' := Update(t, table, id, patch).0;
    IdsBelowRows(t, table);
    forall name, i | name in t'.rows && 0 <= i < |t'.rows[name]|
      ensures ID in t'.rows[name][i] && t'.rows[name][i][ID].PyInt? && t'.rows[name][i][ID].i < t'.nextId
    {
      assert RowsOf(t', name) == t'.rows[name];
      if name == table {
        var x := RowsOf(t, table)[i];
        assert t'.rows[name][i] == if Matches(x, ID, PyInt(id)) then Patched(x, patch) else x;
      } else {
        assert t'.rows[name] == t.rows[name];
      }
    }
  }

  /** After a delete no row of that table has the id, and every other row remains, in order. */
  lemma DeleteRemovesOnlyMatching(t: Tables, table: string, id: int)
    ensures var (t', _) := Delete(t, table, id);
            SelectEq(RowsOf(t', table), ID, PyInt(id)) == []
            && Seqs.IsSubsequence(RowsOf(t', table), RowsOf(t, table))
  {
    var (t', _) := Delete(t, table, id);
    var keep := (row: Row) => !Matches(row, ID, PyInt(id));
    var rest := RowsOf(t', table);
    Seqs.FilterNone(rest, (row: Row) => Matches(row, ID, PyInt(id)));
    Seqs.FilterIsSubsequence(RowsOf(t, table), keep);
  }

  /** A delete removes exactly as many rows as a select by the same id returns. */
  lemma {:induction false} DeleteCount(rows: seq<Row>, id: int)
    ensures |Seqs.Filter(rows, (row: Row) => !Matches(row, ID, PyInt(id)))|
            + |SelectEq(rows, ID, PyInt(id))| == |rows|
  {
    if rows != [] {
      DeleteCount(rows[1..], id);
    }
  }

  lemma DeleteKeepsIdsBelow(t: Tables, table: string, id: int)
    requires IdsBelow(t)
    ensures IdsBelow(Delete(t, table, id).0)
  {
    var t' := Delete(t, table, id).0;
    forall name, i | name in t'.rows && 0 <= i < |t'.rows[name]|
      ensures ID in t'.rows[name][i] && t'.rows[name][i][ID].PyInt? && t'.rows[name][i][ID].i < t'.nextId
    {
      assert RowsOf(t', name) == t'.rows[name];
      if name == table {
        var x := t'.rows[name][i];
        assert x in RowsOf(t, table);
        var j :| 0 <= j < |RowsOf(t, table)| && RowsOf(t, table)[j] == x;
        assert table in t.rows;
        assert t.rows[table][j] == x;
      } else {
        assert t'.rows[name] == t.rows[name];
      }
    }
  }
}
