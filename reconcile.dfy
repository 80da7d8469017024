/** The create-or-update decision of `BaseGenerator.instance_from_dic`
    (everything after `prepare`), as functions of the prepared record, the
    generator's options and the store: which key is used, which rows it
    matches, and which of created / updated / exists / nothing / double
    entry follows. */
module Reconcile {
  import opened Values
  import opened Schema
  import opened Store

  /** `generator.res` after a call. */
  datatype Res = Created | Updated | Exists

  /** The generator-level options: `persistence`, `create`, `update`. */
  datatype Settings = Settings(persistence: Value, create: Value, update: Value)

  /** What `BaseGenerator.__init__` reads from its keyword options. */
  function SettingsFrom(options: map<string, Value>): (s: Settings)
    ensures "persistence" !in options ==> s.persistence == VList([])
    ensures "create" !in options ==> s.create == VBool(true)
    ensures "update" !in options ==> s.update == VBool(true)
    ensures "persistence" in options ==> s.persistence == options["persistence"]
    ensures "create" in options ==> s.create == options["create"]
    ensures "update" in options ==> s.update == options["update"]
  {
    Settings(
      if "persistence" in options then options["persistence"] else VList([]),
      if "create" in options then options["create"] else VBool(true),
      if "update" in options then options["update"] else VBool(true))
  }

  /** `dict.get(key, default)`, also the value of `dict.pop(key, default)`. */
  function Get(dic: map<string, Value>, key: string, default: Value): Value
  {
    if key in dic then dic[key] else default
  }

  function StrValues(names: seq<string>): (v: seq<Value>)
    ensures |v| == |names| && forall j :: 0 <= j < |names| ==> v[j] == VStr(names[j])
  {
    if names == [] then [] else [VStr(names[0])] + StrValues(names[1..])
  }

  /** Lines 101-105: the key, create and update flags in force for one record.
      The derived key is computed, and may raise, only when the generator has
      no key of its own, even if the record brings `etl_persistence`. */
  function EffectiveSettings(m: Model, gen: Settings, dic: map<string, Value>): Result<Settings>
  {
    var fallback :- if Truthy(gen.persistence) then Success(gen.persistence)
                    else match UnambiguousFields(m)
                         case Success(names) => Success(VList(StrValues(names)))
                         case Failure(e) => Failure(e);
    Success(Settings(
      Get(dic, "etl_persistence", fallback),
      Get(dic, "etl_create", gen.create),
      Get(dic, "etl_update", gen.update)))
  }

  /** The record once the three option keys are popped. */
  function PopOptions(dic: map<string, Value>): (r: map<string, Value>)
    ensures r.Keys == dic.Keys - OptionKeys
    ensures forall k :: k in r ==> r[k] == dic[k]
  {
    dic - OptionKeys
  }

  /** Lines 106-107: the record restricted to the model's field names. */
  function OnlyFields(dic: map<string, Value>, names: seq<string>): (r: map<string, Value>)
    ensures forall k :: k in r <==> k in dic && k in names
    ensures forall k :: k in r ==> r[k] == dic[k]
  {
    map k | k in dic && k in names :: dic[k]
  }

  /** The field names a persistence value iterates over: a list of names,
      or the characters of a single string; None where iterating it in
      Python would not yield field names. */
  function KeyNames(persistence: Value): Option<seq<string>>
  {
    match persistence
    case VList(items) =>
      if forall j :: 0 <= j < |items| ==> items[j].VStr? then Some(seq(|items|, j requires 0 <= j < |items| => items[j].s))
      else None
    case VStr(s) => Some(seq(|s|, j requires 0 <= j < |s| => [s[j]]))
    case _ => None
  }

  /** The filter terms of `get_persistence_query`: one per key field whose
      record value is truthy, in key order. */
  function KeyConditions(dic: map<string, Value>, names: seq<string>): (conds: Conditions)
    ensures forall c :: c in conds <==> c.0 in names && c.0 in dic && Truthy(dic[c.0]) && c.1 == dic[c.0]
  {
    if names == [] then []
    else
      var rest := KeyConditions(dic, names[1..]);
      assert forall n :: n in names <==> n == names[0] || n in names[1..];
      if names[0] in dic && Truthy(dic[names[0]]) then [(names[0], dic[names[0]])] + rest else rest
  }

  /** `get_persistence_query`: no rows for a falsy key, otherwise the
      conjunction of the key conditions. */
  function PersistenceQuery(dic: map<string, Value>, persistence: Value): Result<Query>
  {
    if !Truthy(persistence) then Success(NoRows)
    else match KeyNames(persistence)
      case Some(names) => Success(Where(KeyConditions(dic, names)))
      case None => Failure(TypeError)
  }

  datatype Decision = NewRow | UpdateRow | MarkExists | Skip | Ambiguous

  /** Lines 109-123 as a table over the match count and the two flags. */
  function Decide(count: nat, create: bool, update: bool): (d: Decision)
    ensures d == NewRow <==> count == 0 && create
    ensures d == Skip <==> count == 0 && !create
    ensures d == UpdateRow <==> count == 1 && update
    ensures d == MarkExists <==> count == 1 && !update
    ensures d == Ambiguous <==> count > 1
  {
    if count == 0 && create then NewRow
    else if count == 1 then (if update then UpdateRow else MarkExists)
    else if count > 1 then Ambiguous
    else Skip
  }

  /** The effect of the decision part of instance_from_dic on the store, its
      return value and `res`. */
  datatype Reconciliation = Reconciliation(db: Db, result: Result<Option<Instance>>, res: Option<Res>)

  function Reconciled(db: Db, m: Model, gen: Settings, res: Option<Res>, dic: map<string, Value>): Reconciliation
  {
    match EffectiveSettings(m, gen, dic)
    case Failure(e) => Reconciliation(db, Failure(e), res)
    case Success(s) => Applied(db, m, s, res, OnlyFields(PopOptions(dic), FieldNames(m.fields)))
  }

  /** Lines 108-123 once the settings are known and the record is cut down to
      the model's fields. */
  function Applied(db: Db, m: Model, s: Settings, res: Option<Res>, fields: map<string, Value>): Reconciliation
  {
    match PersistenceQuery(fields, s.persistence)
    case Failure(e) => Reconciliation(db, Failure(e), res)
    case Success(q) =>
      var matched := Evaluate(db, m.name, q);
      match Decide(|matched|, Truthy(s.create), Truthy(s.update))
      case NewRow =>
        var (db', inst) := Insert(db, m.name, fields);
        Reconciliation(db', Success(Some(inst)), Some(Created))
      case UpdateRow =>
        Reconciliation(Write(db, m.name, matched[0], fields), Success(Some(Instance(m.name, matched[0]))), Some(Updated))
      case MarkExists => Reconciliation(db, Success(None), Some(Exists))
      case Skip => Reconciliation(db, Success(None), res)
      case Ambiguous => Reconciliation(db, Failure(DoubleEntry(s.persistence)), res)
  }

  /** Every key a selection returns names a row of the table. */
  lemma SelectedPresent(db: Db, model: string, conds: Conditions, pk: nat)
    requires WellKeyed(db) && pk in Select(Rows(db, model), conds)
    ensures Present(db, Instance(model, pk))
  {
    var rows := Rows(db, model);
    var row :| row in rows && row.pk == pk && RowMatches(row, conds);
    var i :| 0 <= i < |rows| && rows[i] == row;
    assert model in db.tables;
  }

  /** Reconciling keeps the store well keyed, deletes no row, and returns
      only an existing row of the model. */
  lemma ReconciledFacts(db: Db, m: Model, gen: Settings, res: Option<Res>, dic: map<string, Value>)
    requires WellKeyed(db)
    ensures var rec := Reconciled(db, m, gen, res, dic);
      && WellKeyed(rec.db) && Grows(db, rec.db)
      && (rec.result.Success? && rec.result.value.Some? ==>
            rec.result.value.value.model == m.name && Present(rec.db, rec.result.value.value))
  {
    match EffectiveSettings(m, gen, dic)
    case Failure(_) =>
    case Success(s) =>
      AppliedFacts(db, m, s, res, OnlyFields(PopOptions(dic), FieldNames(m.fields)));
  }

  lemma AppliedFacts(db: Db, m: Model, s: Settings, res: Option<Res>, fields: map<string, Value>)
    requires WellKeyed(db)
    ensures var rec := Applied(db, m, s, res, fields);
      && WellKeyed(rec.db) && Grows(db, rec.db)
      && (rec.result.Success? && rec.result.value.Some? ==>
            rec.result.value.value.model == m.name && Present(rec.db, rec.result.value.value))
  {
    match PersistenceQuery(fields, s.persistence)
    case Failure(_) =>
    case Success(q) =>
      var matched := Evaluate(db, m.name, q);
      match Decide(|matched|, Truthy(s.create), Truthy(s.update))
      case NewRow =>
        InsertKeepsWellKeyed(db, m.name, fields);
      case UpdateRow =>
        WriteKeepsWellKeyed(db, m.name, matched[0], fields);
        assert q.Where?;
        SelectedPresent(db, m.name, q.conds, matched[0]);
      case MarkExists =>
      case Skip =>
      case Ambiguous =>
  }
}
