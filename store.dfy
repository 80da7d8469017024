/** An in-memory stand-in for the Django ORM as the generators use it:
    one table of rows per model, `objects.filter`, `objects.create`,
    `QuerySet.update`, `objects.get(pk=...)` and the native many-to-many
    `add`. Rows are never deleted, and primary keys count up from 1. */
module Store {
  import opened Values

  datatype Row = Row(pk: nat, fields: map<string, Value>)

  /** A pair in the auto-created junction table of a native many-to-many
      field `field` of `model`. */
  datatype Link = Link(model: string, field: string, owner: nat, target: nat)

  datatype Db = Db(tables: map<string, seq<Row>>, links: set<Link>)

  /** A conjunctive filter: every (field, value) pair must hold. */
  type Conditions = seq<(string, Value)>

  /** `objects.none()` or `objects.filter(Q(...) & ...)`. */
  datatype Query = NoRows | Where(conds: Conditions)

  function Rows(db: Db, model: string): seq<Row>
  {
    if model in db.tables then db.tables[model] else []
  }

  /** Primary keys are the 1-based positions of the rows. */
  ghost predicate WellKeyed(db: Db)
  {
    forall model, i :: model in db.tables && 0 <= i < |db.tables[model]| ==> db.tables[model][i].pk == i + 1
  }

  predicate RowMatches(row: Row, conds: Conditions)
  {
    forall c :: c in conds ==> c.0 in row.fields && row.fields[c.0] == c.1
  }

  /** The positions of the rows that satisfy `conds`, in increasing order
      (MatchPositionsMeaning). */
  ghost function MatchPositions(rows: seq<Row>, conds: Conditions): (idx: seq<nat>)
    ensures |idx| <= |rows|
    ensures forall j :: 0 <= j < |idx| ==> idx[j] < |rows|
  {
    if rows == [] then []
    else
      var rest := MatchPositions(rows[1..], conds);
      var shifted := seq(|rest|, k requires 0 <= k < |rest| => rest[k] + 1);
      if RowMatches(rows[0], conds) then [0] + shifted else shifted
  }

  /** The positions listed are exactly those of the matching rows, each
      once, in table order. */
  lemma MatchPositionsMeaning(rows: seq<Row>, conds: Conditions)
    ensures forall j :: 0 <= j < |MatchPositions(rows, conds)| ==> RowMatches(rows[MatchPositions(rows, conds)[j]], conds)
    ensures forall i :: 0 <= i < |rows| && RowMatches(rows[i], conds) ==> i in MatchPositions(rows, conds)
    ensures forall j, k :: 0 <= j < k < |MatchPositions(rows, conds)| ==> MatchPositions(rows, conds)[j] < MatchPositions(rows, conds)[k]
  {
    MatchPositionsSound(rows, conds);
    MatchPositionsComplete(rows, conds);
    MatchPositionsIncreasing(rows, conds);
  }

  lemma {:induction false} MatchPositionsSound(rows: seq<Row>, conds: Conditions)
    ensures forall j :: 0 <= j < |MatchPositions(rows, conds)| ==> RowMatches(rows[MatchPositions(rows, conds)[j]], conds)
  {
    if rows != [] {
      var rest := MatchPositions(rows[1..], conds);
      MatchPositionsSound(rows[1..], conds);
      var shifted := seq(|rest|, k requires 0 <= k < |rest| => rest[k] + 1);
      assert MatchPositions(rows, conds) == if RowMatches(rows[0], conds) then [0] + shifted else shifted;
      forall j | 0 <= j < |shifted|
        ensures RowMatches(rows[shifted[j]], conds)
      {
        assert RowMatches(rows[1..][rest[j]], conds);
        assert rows[shifted[j]] == rows[1..][rest[j]];
      }
    }
  }

  lemma {:induction false} MatchPositionsComplete(rows: seq<Row>, conds: Conditions)
    ensures forall i :: 0 <= i < |rows| && RowMatches(rows[i], conds) ==> i in MatchPositions(rows, conds)
  {
    if rows != [] {
      var rest := MatchPositions(rows[1..], conds);
      MatchPositionsComplete(rows[1..], conds);
      var shifted := seq(|rest|, k requires 0 <= k < |rest| => rest[k] + 1);
      forall i | 1 <= i < |rows| && RowMatches(rows[i], conds)
        ensures i in shifted
      {
        assert rows[1..][i - 1] == rows[i];
        var k :| 0 <= k < |rest| && rest[k] == i - 1;
        assert shifted[k] == i;
      }
    }
  }

  lemma {:induction false} MatchPositionsIncreasing(rows: seq<Row>, conds: Conditions)
    ensures forall j, k :: 0 <= j < k < |MatchPositions(rows, conds)| ==> MatchPositions(rows, conds)[j] < MatchPositions(rows, conds)[k]
  {
    if rows != [] {
      var rest := MatchPositions(rows[1..], conds);
      MatchPositionsIncreasing(rows[1..], conds);
      var shifted := seq(|rest|, k requires 0 <= k < |rest| => rest[k] + 1);
      assert forall j, k :: 0 <= j < k < |shifted| ==> shifted[j] < shifted[k];
      assert forall k :: 0 <= k < |shifted| ==> 0 < shifted[k];
      assert MatchPositions(rows, conds) == if RowMatches(rows[0], conds) then [0] + shifted else shifted;
    }
  }

  /** Primary keys of the rows selected by `conds`, in table order: one per
      matching row, so its length is the match count and its head the first
      match. */
  function Select(rows: seq<Row>, conds: Conditions): (pks: seq<nat>)
    ensures |pks| == |MatchPositions(rows, conds)|
    ensures forall j :: 0 <= j < |pks| ==> pks[j] == rows[MatchPositions(rows, conds)[j]].pk
    ensures |pks| <= |rows|
    ensures forall pk :: pk in pks <==> exists row :: row in rows && row.pk == pk && RowMatches(row, conds)
  {
    if rows == [] then []
    else
      var rest := Select(rows[1..], conds);
      assert forall row :: row in rows <==> row == rows[0] || row in rows[1..];
      if RowMatches(rows[0], conds) then [rows[0].pk] + rest else rest
  }

  /** What a query yields against a model's table. */
  function Evaluate(db: Db, model: string, q: Query): (pks: seq<nat>)
    ensures q.NoRows? ==> pks == []
  {
    match q
    case NoRows => []
    case Where(conds) => Select(Rows(db, model), conds)
  }

  /** `objects.create(**fields)`: a new row with the next primary key,
      holding the fields as given (no auto-set date is filled in). */
  function Insert(db: Db, model: string, fields: map<string, Value>): (r: (Db, Instance))
    ensures Rows(r.0, model) == Rows(db, model) + [Row(|Rows(db, model)| + 1, fields)]
    ensures r.1 == Instance(model, |Rows(db, model)| + 1)
    ensures forall other :: other != model ==> Rows(r.0, other) == Rows(db, other)
    ensures r.0.links == db.links
  {
    var pk := |Rows(db, model)| + 1;
    (Db(db.tables[model := Rows(db, model) + [Row(pk, fields)]], db.links), Instance(model, pk))
  }

  function WriteRows(rows: seq<Row>, pk: nat, fields: map<string, Value>): (r: seq<Row>)
    ensures |r| == |rows|
    ensures forall i :: 0 <= i < |rows| ==> r[i].pk == rows[i].pk
    ensures forall i :: 0 <= i < |rows| ==>
      r[i].fields == if rows[i].pk == pk then rows[i].fields + fields else rows[i].fields
  {
    if rows == [] then []
    else
      var row := rows[0];
      [if row.pk == pk then Row(pk, row.fields + fields) else row] + WriteRows(rows[1..], pk, fields)
  }

  /** `QuerySet.update(**fields)` on the queryset of one row, then `save()`:
      the row with that key takes the new values, other columns keep theirs. */
  function Write(db: Db, model: string, pk: nat, fields: map<string, Value>): (r: Db)
    ensures forall other :: other != model ==> Rows(r, other) == Rows(db, other)
    ensures Rows(r, model) == WriteRows(Rows(db, model), pk, fields)
    ensures r.links == db.links
  {
    if model in db.tables then Db(db.tables[model := WriteRows(db.tables[model], pk, fields)], db.links)
    else db
  }

  /** `QuerySet.update(**fields)`: every selected row takes the new values
      over its old ones; every other row, table and link stays. */
  function WriteAll(db: Db, model: string, pks: seq<nat>, fields: map<string, Value>): (r: Db)
    ensures forall other :: other != model ==> Rows(r, other) == Rows(db, other)
    ensures |Rows(r, model)| == |Rows(db, model)|
    ensures forall i :: 0 <= i < |Rows(db, model)| ==> Rows(r, model)[i].pk == Rows(db, model)[i].pk
    ensures forall i :: 0 <= i < |Rows(db, model)| ==>
      Rows(r, model)[i].fields == if Rows(db, model)[i].pk in pks then Rows(db, model)[i].fields + fields else Rows(db, model)[i].fields
    ensures r.links == db.links
    decreases |pks|
  {
    if pks == [] then db
    else
      var next := Write(db, model, pks[0], fields);
      var r := WriteAll(next, model, pks[1..], fields);
      assert forall i :: 0 <= i < |Rows(db, model)| ==>
        Rows(r, model)[i].fields == if Rows(db, model)[i].pk in pks then Rows(db, model)[i].fields + fields else Rows(db, model)[i].fields by {
        forall i | 0 <= i < |Rows(db, model)|
          ensures Rows(r, model)[i].fields == if Rows(db, model)[i].pk in pks then Rows(db, model)[i].fields + fields else Rows(db, model)[i].fields
        {
          var row := Rows(db, model)[i];
          assert row.pk in pks <==> row.pk == pks[0] || row.pk in pks[1..];
          if row.pk == pks[0] && row.pk in pks[1..] {
            assert row.fields + fields + fields == row.fields + fields;
          }
        }
      }
      r
  }

  /** A row of `inst.model` with key `inst.pk` exists. */
  predicate Present(db: Db, inst: Instance)
  {
    1 <= inst.pk <= |Rows(db, inst.model)|
  }

  /** Tables only grow: no operation of the engine deletes a row. */
  ghost predicate Grows(before: Db, after: Db)
  {
    forall name :: |Rows(before, name)| <= |Rows(after, name)|
  }

  /** `objects.get(pk=pk)`. */
  function Lookup(rows: seq<Row>, pk: int): (r: Option<Row>)
    ensures r.Some? ==> r.value in rows && r.value.pk == pk
    ensures r.None? ==> forall row :: row in rows ==> row.pk != pk
  {
    if rows == [] then None
    else if rows[0].pk == pk then Some(rows[0])
    else Lookup(rows[1..], pk)
  }

  /** `manager.add(*targets)` on a native many-to-many field; pairs already
      present are not duplicated. */
  function AddLinks(db: Db, model: string, field: string, owner: nat, targets: seq<nat>): (r: Db)
    ensures r.tables == db.tables
    ensures r.links == db.links + set t | t in targets :: Link(model, field, owner, t)
  {
    Db(db.tables, db.links + set t | t in targets :: Link(model, field, owner, t))
  }

  lemma InsertKeepsWellKeyed(db: Db, model: string, fields: map<string, Value>)
    requires WellKeyed(db)
    ensures WellKeyed(Insert(db, model, fields).0)
  {
    var db' := Insert(db, model, fields).0;
    forall m, i | m in db'.tables && 0 <= i < |db'.tables[m]|
      ensures db'.tables[m][i].pk == i + 1
    {
      assert db'.tables[m] == Rows(db', m);
      if m != model {
        assert Rows(db', m) == Rows(db, m);
      }
    }
  }

  lemma WriteKeepsWellKeyed(db: Db, model: string, pk: nat, fields: map<string, Value>)
    requires WellKeyed(db)
    ensures WellKeyed(Write(db, model, pk, fields))
  {
    var db' := Write(db, model, pk, fields);
    forall m, i | m in db'.tables && 0 <= i < |db'.tables[m]|
      ensures db'.tables[m][i].pk == i + 1
    {
      assert db'.tables[m] == Rows(db', m);
      assert m in db.tables && db.tables[m] == Rows(db, m);
    }
  }

  /** In a well-formed table the row with a given key sits at position key - 1. */
  lemma LookupFindsPosition(db: Db, model: string, pk: int)
    requires WellKeyed(db)
    ensures Lookup(Rows(db, model), pk).Some? <==> 1 <= pk <= |Rows(db, model)|
  {
    var rows := Rows(db, model);
    if 1 <= pk <= |rows| {
      assert rows[pk - 1] in rows;
    }
  }

  /** The row a write targets now holds every written value. */
  lemma WriteStores(db: Db, model: string, pk: nat, fields: map<string, Value>, k: string)
    requires WellKeyed(db) && 1 <= pk <= |Rows(db, model)| && k in fields
    ensures Rows(Write(db, model, pk, fields), model)[pk - 1].fields[k] == fields[k]
  {
  }

  lemma {:induction false} WriteAllKeepsWellKeyed(db: Db, model: string, pks: seq<nat>, fields: map<string, Value>)
    requires WellKeyed(db)
    ensures WellKeyed(WriteAll(db, model, pks, fields))
    decreases |pks|
  {
    if pks != [] {
      WriteKeepsWellKeyed(db, model, pks[0], fields);
      WriteAllKeepsWellKeyed(Write(db, model, pks[0], fields), model, pks[1..], fields);
    }
  }
}
