/** What the create-or-update decision promises: how the key is derived,
    what the key filter matches, the decision table, and what happens when
    the same record is reconciled twice. */
module ReconcileProperties {
  import opened Values
  import opened Schema
  import opened Store
  import opened Reconcile

  lemma HeadIn<T>(s: seq<T>)
    ensures |s| > 0 ==> s[0] in s
  {
  }

  /** A unique field other than `id`. */
  predicate KeyCandidate(f: Field)
  {
    f.unique && f.name != "id"
  }

  /** `get_unambiguous_fields`: the first `unique_together` tuple wins; with
      none, no unique field gives the empty key and two unique fields
      raise. */
  lemma KeyDerivation(m: Model)
    ensures m.uniqueTogether != [] ==> UnambiguousFields(m) == Success(m.uniqueTogether[0])
    ensures m.uniqueTogether == [] && (forall f :: f in m.fields ==> !KeyCandidate(f)) ==>
      UnambiguousFields(m) == Success([])
    ensures (m.uniqueTogether == [] &&
             exists f, g :: f in m.fields && g in m.fields && KeyCandidate(f) && KeyCandidate(g) && f.name != g.name) ==>
      UnambiguousFields(m) == Failure(AmbiguousUniqueFields(m.name))
  {
    if m.uniqueTogether == [] {
      HeadIn(UniqueFields(m.fields));
      if exists f, g :: f in m.fields && g in m.fields && KeyCandidate(f) && KeyCandidate(g) && f.name != g.name {
        var f, g :| f in m.fields && g in m.fields && KeyCandidate(f) && KeyCandidate(g) && f.name != g.name;
        TwoCandidates(m, f, g);
      }
    }
  }

  lemma TwoCandidates(m: Model, f: Field, g: Field)
    requires m.uniqueTogether == []
    requires f in m.fields && g in m.fields && KeyCandidate(f) && KeyCandidate(g) && f.name != g.name
    ensures UnambiguousFields(m) == Failure(AmbiguousUniqueFields(m.name))
  {
    var names := UniqueFields(m.fields);
    assert f.name in names && g.name in names;
    assert |names| > 1 by {
      if |names| <= 1 {
        HeadIn(names);
      }
    }
  }

  /** Exactly one unique field (besides `id`) is the key on its own. */
  lemma KeyOfSingleUniqueField(m: Model, f: Field)
    requires m.uniqueTogether == [] && DistinctNames(m.fields)
    requires f in m.fields && KeyCandidate(f)
    requires forall g :: g in m.fields && KeyCandidate(g) ==> g == f
    ensures UnambiguousFields(m) == Success([f.name])
  {
    UniqueFieldsSingle(m.fields, f);
  }

  lemma {:induction false} UniqueFieldsSingle(fields: seq<Field>, f: Field)
    requires DistinctNames(fields) && f in fields && KeyCandidate(f)
    requires forall g :: g in fields && KeyCandidate(g) ==> g == f
    ensures UniqueFields(fields) == [f.name]
  {
    var rest := fields[1..];
    assert forall g :: g in rest ==> g in fields;
    assert DistinctNames(rest) by {
      forall i, j | 0 <= i < j < |rest|
        ensures rest[i].name != rest[j].name
      {
        assert rest[i] == fields[i + 1] && rest[j] == fields[j + 1];
      }
    }
    if fields[0] == f {
      forall j | 0 <= j < |rest|
        ensures rest[j] != f
      {
        assert fields[0].name != fields[j + 1].name;
      }
      var names := UniqueFields(rest);
      HeadIn(names);
    } else {
      assert fields[0] != f && !KeyCandidate(fields[0]);
      assert f in rest;
      UniqueFieldsSingle(rest, f);
    }
  }

  /** The key filter: a row matches exactly when it agrees with the record on
      every key field whose value in the record is truthy; absent and falsy
      values constrain nothing. */
  lemma KeyFilter(row: Row, dic: map<string, Value>, names: seq<string>)
    ensures RowMatches(row, KeyConditions(dic, names)) <==>
      forall n :: n in names && n in dic && Truthy(dic[n]) ==> n in row.fields && row.fields[n] == dic[n]
  {
    var conds := KeyConditions(dic, names);
    if RowMatches(row, conds) {
      forall n | n in names && n in dic && Truthy(dic[n])
        ensures n in row.fields && row.fields[n] == dic[n]
      {
        assert (n, dic[n]) in conds;
      }
    }
  }

  /** The empty filter selects every row, in table order. */
  lemma {:induction false} SelectAll(rows: seq<Row>)
    ensures Select(rows, []) == seq(|rows|, i requires 0 <= i < |rows| => rows[i].pk)
  {
    if rows != [] {
      SelectAll(rows[1..]);
      assert RowMatches(rows[0], []);
    }
  }

  /** A key whose values in the record are all falsy or absent filters on
      nothing, so it matches every row of the table. */
  lemma FalsyKeyMatchesEveryRow(db: Db, model: string, fields: map<string, Value>, persistence: Value)
    requires WellKeyed(db)
    requires Truthy(persistence) && KeyNames(persistence).Some?
    requires forall n :: n in KeyNames(persistence).value && n in fields ==> !Truthy(fields[n])
    ensures PersistenceQuery(fields, persistence) == Success(Where([]))
    ensures Evaluate(db, model, Where([])) == seq(|Rows(db, model)|, i requires 0 <= i < |Rows(db, model)| => i + 1)
  {
    var conds := KeyConditions(fields, KeyNames(persistence).value);
    HeadIn(conds);
    var rows := Rows(db, model);
    SelectAll(rows);
    assert model in db.tables || rows == [];
  }

  /** The decision table, cases that change the store: no match with
      `create` on inserts one row holding the record and returns it as
      created; one match with `update` on writes the record into that row
      and returns it as updated. */
  lemma DecisionMutating(db: Db, m: Model, s: Settings, res: Option<Res>, fields: map<string, Value>)
    requires WellKeyed(db) && PersistenceQuery(fields, s.persistence).Success?
    ensures var matched := Evaluate(db, m.name, PersistenceQuery(fields, s.persistence).value);
      var rec := Applied(db, m, s, res, fields);
      var n := |Rows(db, m.name)|;
      && (|matched| == 0 && Truthy(s.create) ==>
            && rec.result == Success(Some(Instance(m.name, n + 1))) && rec.res == Some(Created)
            && Rows(rec.db, m.name) == Rows(db, m.name) + [Row(n + 1, fields)])
      && (|matched| == 1 && Truthy(s.update) ==>
            && rec.result == Success(Some(Instance(m.name, matched[0]))) && rec.res == Some(Updated)
            && 1 <= matched[0] <= n && |Rows(rec.db, m.name)| == n
            && forall k :: k in fields ==> Rows(rec.db, m.name)[matched[0] - 1].fields[k] == fields[k])
  {
    var q := PersistenceQuery(fields, s.persistence).value;
    var matched := Evaluate(db, m.name, q);
    if |matched| == 1 && Truthy(s.update) {
      assert q.Where?;
      assert matched[0] in matched;
      SelectedPresent(db, m.name, q.conds, matched[0]);
      forall k | k in fields
        ensures Rows(Write(db, m.name, matched[0], fields), m.name)[matched[0] - 1].fields[k] == fields[k]
      {
        WriteStores(db, m.name, matched[0], fields, k);
      }
    }
  }

  /** The decision table, cases that leave the store alone: one match with
      `update` off marks the record as existing and returns None; several
      matches raise a double entry; no match with `create` off returns None
      and keeps `res`. */
  lemma DecisionNonMutating(db: Db, m: Model, s: Settings, res: Option<Res>, fields: map<string, Value>)
    requires PersistenceQuery(fields, s.persistence).Success?
    ensures var matched := Evaluate(db, m.name, PersistenceQuery(fields, s.persistence).value);
      var rec := Applied(db, m, s, res, fields);
      && (|matched| == 1 && !Truthy(s.update) ==> rec == Reconciliation(db, Success(None), Some(Exists)))
      && (|matched| > 1 ==> rec == Reconciliation(db, Failure(DoubleEntry(s.persistence)), res))
      && (|matched| == 0 && !Truthy(s.create) ==> rec == Reconciliation(db, Success(None), res))
  {
  }

  /** No column of `m` besides the primary key is unique, alone or together
      with others, so the database accepts a row equal to one it holds. */
  predicate NoUniqueConstraint(m: Model)
  {
    m.uniqueTogether == [] && UniqueFields(m.fields) == []
  }

  /** A falsy key (the default `[]`, or no unique field) queries no rows:
      with `create` on, every record is inserted. On a model with a unique
      column the database could refuse the row, so none is allowed here, and
      the record does not choose its own primary key. */
  lemma EmptyKeyInserts(db: Db, m: Model, s: Settings, res: Option<Res>, fields: map<string, Value>)
    requires NoUniqueConstraint(m) && "id" !in fields
    requires !Truthy(s.persistence) && Truthy(s.create)
    ensures var rec := Applied(db, m, s, res, fields);
      && rec.result == Success(Some(Instance(m.name, |Rows(db, m.name)| + 1)))
      && rec.res == Some(Created)
      && Rows(rec.db, m.name) == Rows(db, m.name) + [Row(|Rows(db, m.name)| + 1, fields)]
  {
  }

  /** The settings and the field values a record is reconciled with. */
  function SettingsOf(m: Model, gen: Settings, dic: map<string, Value>): Settings
    requires EffectiveSettings(m, gen, dic).Success?
  {
    EffectiveSettings(m, gen, dic).value
  }

  function FieldsOf(m: Model, dic: map<string, Value>): map<string, Value>
  {
    OnlyFields(PopOptions(dic), FieldNames(m.fields))
  }

  /** With a falsy key, reconciling the same record twice inserts it twice:
      two rows, two distinct instances, both reported as created (on a model
      without unique columns, which the database would otherwise enforce). */
  lemma RepeatedRecordDuplicates(db: Db, m: Model, gen: Settings, res: Option<Res>, dic: map<string, Value>)
    requires NoUniqueConstraint(m) && "id" !in dic
    requires EffectiveSettings(m, gen, dic).Success?
    requires !Truthy(SettingsOf(m, gen, dic).persistence) && Truthy(SettingsOf(m, gen, dic).create)
    ensures var first := Reconciled(db, m, gen, res, dic);
      var second := Reconciled(first.db, m, gen, first.res, dic);
      && first.res == Some(Created) && second.res == Some(Created)
      && |Rows(second.db, m.name)| == |Rows(db, m.name)| + 2
      && first.result != second.result
  {
    var s := SettingsOf(m, gen, dic);
    var fields := FieldsOf(m, dic);
    EmptyKeyInserts(db, m, s, res, fields);
    var first := Reconciled(db, m, gen, res, dic);
    EmptyKeyInserts(first.db, m, s, first.res, fields);
  }

  /** A new row is selected by a filter exactly when it matches it. */
  lemma {:induction false} SelectAppend(rows: seq<Row>, row: Row, conds: Conditions)
    ensures Select(rows + [row], conds) == Select(rows, conds) + (if RowMatches(row, conds) then [row.pk] else [])
  {
    if rows == [] {
      assert rows + [row] == [row];
    } else {
      assert (rows + [row])[1..] == rows[1..] + [row];
      SelectAppend(rows[1..], row, conds);
    }
  }

  /** Writing into a row the values it already holds changes nothing. */
  lemma WriteRowsUnchanged(rows: seq<Row>, pk: nat, fields: map<string, Value>)
    requires forall i :: 0 <= i < |rows| && rows[i].pk == pk ==> rows[i].fields == fields
    ensures WriteRows(rows, pk, fields) == rows
  {
    var r := WriteRows(rows, pk, fields);
    forall i | 0 <= i < |rows|
      ensures r[i] == rows[i]
    {
      if rows[i].pk == pk {
        assert rows[i].fields + fields == fields;
      }
    }
  }

  /** A record the table does not hold yet, under a key its own values
      satisfy, is created by the first run; a second run with `update` on
      finds that very row, reports it as updated, returns the same instance
      and leaves the store as the first run left it (auto-set dates are not
      refreshed, since the store has no clock). */
  lemma SecondRunFindsCreatedRow(db: Db, m: Model, gen: Settings, res: Option<Res>, dic: map<string, Value>)
    requires WellKeyed(db)
    requires EffectiveSettings(m, gen, dic).Success?
    requires var s := SettingsOf(m, gen, dic);
      && Truthy(s.create) && Truthy(s.update)
      && PersistenceQuery(FieldsOf(m, dic), s.persistence).Success?
      && Evaluate(db, m.name, PersistenceQuery(FieldsOf(m, dic), s.persistence).value) == []
      && PersistenceQuery(FieldsOf(m, dic), s.persistence).value.Where?
    ensures var first := Reconciled(db, m, gen, res, dic);
      var second := Reconciled(first.db, m, gen, first.res, dic);
      && first.res == Some(Created)
      && second == Reconciliation(first.db, first.result, Some(Updated))
  {
    SecondApplyFindsCreatedRow(db, m, SettingsOf(m, gen, dic), res, FieldsOf(m, dic));
  }

  lemma SecondApplyFindsCreatedRow(db: Db, m: Model, s: Settings, res: Option<Res>, fields: map<string, Value>)
    requires WellKeyed(db) && Truthy(s.create) && Truthy(s.update)
    requires PersistenceQuery(fields, s.persistence).Success?
    requires PersistenceQuery(fields, s.persistence).value.Where?
    requires Evaluate(db, m.name, PersistenceQuery(fields, s.persistence).value) == []
    ensures var first := Applied(db, m, s, res, fields);
      var second := Applied(first.db, m, s, first.res, fields);
      && first.res == Some(Created)
      && second == Reconciliation(first.db, first.result, Some(Updated))
  {
    var q := PersistenceQuery(fields, s.persistence).value;
    var rows := Rows(db, m.name);
    var n := |rows|;
    var row := Row(n + 1, fields);
    var db' := Insert(db, m.name, fields).0;
    assert Rows(db', m.name) == rows + [row];
    OwnKeyMatches(fields, s.persistence);
    SelectAppend(rows, row, q.conds);
    assert Evaluate(db', m.name, q) == [n + 1];
    InsertKeepsWellKeyed(db, m.name, fields);
    WriteRowsUnchanged(rows + [row], n + 1, fields);
    assert Write(db', m.name, n + 1, fields) == db';
  }

  /** A record satisfies the filter built from its own values. */
  lemma OwnKeyMatches(fields: map<string, Value>, persistence: Value)
    requires PersistenceQuery(fields, persistence).Success? && PersistenceQuery(fields, persistence).value.Where?
    ensures forall pk :: RowMatches(Row(pk, fields), PersistenceQuery(fields, persistence).value.conds)
  {
    var names := KeyNames(persistence).value;
    assert PersistenceQuery(fields, persistence).value.conds == KeyConditions(fields, names);
  }

  /** A record that matches a row already stored never adds a row, whatever
      the flags: it updates, marks as existing, or raises. */
  lemma MatchedRecordAddsNoRow(db: Db, m: Model, gen: Settings, res: Option<Res>, dic: map<string, Value>)
    requires EffectiveSettings(m, gen, dic).Success?
    requires var s := SettingsOf(m, gen, dic);
      && PersistenceQuery(FieldsOf(m, dic), s.persistence).Success?
      && Evaluate(db, m.name, PersistenceQuery(FieldsOf(m, dic), s.persistence).value) != []
    ensures forall name :: |Rows(Reconciled(db, m, gen, res, dic).db, name)| == |Rows(db, name)|
  {
  }

  /** Per-record options win over the generator's, and the generator's key
      wins over the derived one; the derived key is computed (and may raise)
      whenever the generator has no key, even if the record brings one. */
  lemma Precedence(m: Model, gen: Settings, dic: map<string, Value>)
    ensures EffectiveSettings(m, gen, dic).Failure? <==> !Truthy(gen.persistence) && UnambiguousFields(m).Failure?
    ensures EffectiveSettings(m, gen, dic).Success? ==>
      var s := EffectiveSettings(m, gen, dic).value;
      && s.persistence == (if "etl_persistence" in dic then dic["etl_persistence"]
                           else if Truthy(gen.persistence) then gen.persistence
                           else VList(StrValues(UnambiguousFields(m).value)))
      && s.create == (if "etl_create" in dic then dic["etl_create"] else gen.create)
      && s.update == (if "etl_update" in dic then dic["etl_update"] else gen.update)
  {
  }

  /** Field names are never option keys, so popping the options does not
      change which values reach the query and the insert: exactly the
      record's values under the model's field names. */
  lemma FieldsOfRecord(m: Model, dic: map<string, Value>)
    requires forall f :: f in m.fields ==> f.name !in OptionKeys
    ensures FieldsOf(m, dic).Keys == set k | k in dic && k in FieldNames(m.fields)
    ensures forall k :: k in FieldsOf(m, dic) ==> FieldsOf(m, dic)[k] == dic[k]
  {
    var names := FieldNames(m.fields);
    forall k | k in dic && k in names
      ensures k in FieldsOf(m, dic)
    {
      var j :| 0 <= j < |names| && names[j] == k;
      assert m.fields[j] in m.fields;
    }
  }

  /** A junction record, once its two endpoint values are prepared, is
      keyed on exactly those two values through its own `etl_persistence`;
      the junction generator has no options, so the record is created the
      first time and found, not duplicated, the second time. */
  lemma JunctionReused(db: Db, m: Model, res: Option<Res>, e: map<string, Value>, source: string, target: string)
    requires WellKeyed(db) && UnambiguousFields(m).Success?
    requires source != target && source in FieldNames(m.fields) && target in FieldNames(m.fields)
    requires source !in OptionKeys && target !in OptionKeys
    requires e.Keys == {source, target, "etl_persistence"}
    requires e["etl_persistence"] == VList([VStr(source), VStr(target)])
    requires Truthy(e[source]) && Truthy(e[target])
    requires Evaluate(db, m.name, Where([(source, e[source]), (target, e[target])])) == []
    ensures EffectiveSettings(m, SettingsFrom(map[]), e).Success?
    ensures PersistenceQuery(FieldsOf(m, e), SettingsOf(m, SettingsFrom(map[]), e).persistence)
      == Success(Where([(source, e[source]), (target, e[target])]))
    ensures var first := Reconciled(db, m, SettingsFrom(map[]), res, e);
      var second := Reconciled(first.db, m, SettingsFrom(map[]), first.res, e);
      && first.res == Some(Created)
      && second == Reconciliation(first.db, first.result, Some(Updated))
  {
    var gen := SettingsFrom(map[]);
    var fields := FieldsOf(m, e);
    JunctionFields(m, e, source, target);
    assert SettingsOf(m, gen, e).persistence == e["etl_persistence"];
    JunctionQuery(fields, source, target, e[source], e[target]);
    SecondRunFindsCreatedRow(db, m, gen, res, e);
  }

  lemma JunctionFields(m: Model, e: map<string, Value>, source: string, target: string)
    requires source in FieldNames(m.fields) && target in FieldNames(m.fields)
    requires source !in OptionKeys && target !in OptionKeys
    requires e.Keys == {source, target, "etl_persistence"}
    ensures FieldsOf(m, e) == map[source := e[source], target := e[target]]
  {
  }

  lemma JunctionQuery(fields: map<string, Value>, source: string, target: string, a: Value, b: Value)
    requires source != target && fields == map[source := a, target := b] && Truthy(a) && Truthy(b)
    ensures PersistenceQuery(fields, VList([VStr(source), VStr(target)])) == Success(Where([(source, a), (target, b)]))
  {
    var names := [source, target];
    var sv := StrValues(names);
    assert sv[0] == VStr(source) && sv[1] == VStr(target);
    assert sv == [VStr(source), VStr(target)];
    KeyNamesOfStrValues(names);
    assert names[1..] == [target];
    assert KeyConditions(fields, [target]) == [(target, b)];
    assert KeyConditions(fields, names) == [(source, a), (target, b)];
  }

  /** A list of names handed over as a persistence value reads back as the
      same names: the derived key survives its trip through `VList`. */
  lemma KeyNamesOfStrValues(names: seq<string>)
    ensures KeyNames(VList(StrValues(names))) == Some(names)
  {
    var items := StrValues(names);
    assert forall j :: 0 <= j < |items| ==> items[j].VStr?;
    assert seq(|items|, j requires 0 <= j < |items| => items[j].s) == names;
  }
}
