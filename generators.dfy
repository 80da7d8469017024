/** `BaseGenerator` and `InstanceGenerator`: one generator per model, which
    turns a record (a dict), a primary key, a string or an instance into a
    row of its model, resolving relation fields through generators of the
    related models and attaching many-to-many targets once the row exists. */
module Generators {
  import opened Values
  import opened Schema
  import opened Store
  import opened Coercion
  import opened Reconcile

  /** A Python dict handed to the engine; `prepare` and `instance_from_dic`
      rewrite and pop its keys in place. */
  class Record {
    var entries: map<string, Value>

    constructor(entries: map<string, Value>)
      ensures this.entries == entries
    {
      this.entries := entries;
    }
  }

  /** The database every generator of a run writes to. */
  class Database {
    var db: Db

    constructor(db: Db)
      ensures this.db == db
    {
      this.db := db;
    }
  }

  /** A value `prepare_fk` may store: None or an instance of the target. */
  predicate FkValue(v: Value, target: string)
  {
    v == VNone || (v.VInstance? && v.inst.model == target)
  }

  predicate IsForeignKey(k: FieldKind)
  {
    k.ForeignKey? || k.OneToOneField?
  }

  /** The record carries no many-to-many field, so `prepare` defers
      nothing. */
  predicate NoM2MKeys(m: Model, entries: map<string, Value>)
  {
    forall f :: f in m.fields && f.name in entries ==> !f.kind.ManyToManyField?
  }

  /** A field of the record whose preparation may raise: one the table has no
      entry for, one resolved through another generator, or one whose value
      its preparation rejects. */
  predicate MayFail(env: Env, f: Field, entries: map<string, Value>)
  {
    && f.name in entries
    && (|| InternalType(f.kind) !in Preparations
        || IsRelation(f.kind)
        || (KindWf(f.kind) && PrepareValue(env, f, entries[f.name]).Failure?))
  }

  /** What `prepare` leaves under the name of field `f`: the original value
      while the loop has not reached `f`; afterwards nothing for a
      many-to-many field, the prepared value for any other field, and None
      or an instance of the target for a foreign key. */
  ghost predicate FieldPrepared(env: Env, f: Field, before: map<string, Value>, after: map<string, Value>, done: bool)
  {
    f.name in before ==>
      if !done then f.name in after && after[f.name] == before[f.name]
      else if f.kind.ManyToManyField? then f.name !in after
      else
        && f.name in after
        && (!IsRelation(f.kind) ==>
              && InternalType(f.kind) in Preparations
              && KindWf(f.kind)
              && PrepareValue(env, f, before[f.name]) == Success(after[f.name]))
        && (IsForeignKey(f.kind) ==> FkValue(after[f.name], Target(f.kind)))
  }

  /** The record after `prepare` has handled the first `n` fields; keys
      that are not field names are never touched. */
  ghost predicate PreparedUpTo(env: Env, fields: seq<Field>, before: map<string, Value>, after: map<string, Value>, n: nat)
  {
    && n <= |fields|
    && (forall k :: k in after ==> k in before)
    && (forall k :: k in before && k !in FieldNames(fields) ==> k in after && after[k] == before[k])
    && (forall j :: 0 <= j < |fields| ==> FieldPrepared(env, fields[j], before, after, j < n))
  }

  /** What a successful `prepare` leaves in the record. */
  ghost predicate PreparedFrom(env: Env, m: Model, before: map<string, Value>, after: map<string, Value>)
  {
    PreparedUpTo(env, m.fields, before, after, |m.fields|)
  }

  /** No other field shares the name of field `n`. */
  predicate NameUnique(fields: seq<Field>, n: nat)
    requires n < |fields|
  {
    forall j :: 0 <= j < |fields| && j != n ==> fields[j].name != fields[n].name
  }

  lemma DistinctNameUnique(fields: seq<Field>, n: nat)
    requires DistinctNames(fields) && n < |fields|
    ensures NameUnique(fields, n)
  {
  }

  /** Handling field `n` when the record lacks it changes nothing. */
  lemma PreparedSkip(env: Env, fields: seq<Field>, before: map<string, Value>, after: map<string, Value>, n: nat)
    requires PreparedUpTo(env, fields, before, after, n) && n < |fields| && fields[n].name !in before
    ensures PreparedUpTo(env, fields, before, after, n + 1)
  {
    forall j | 0 <= j < |fields|
      ensures FieldPrepared(env, fields[j], before, after, j < n + 1)
    {
      assert FieldPrepared(env, fields[j], before, after, j < n);
    }
  }

  /** Field `n` takes its prepared value. */
  lemma PreparedSet(env: Env, fields: seq<Field>, before: map<string, Value>, after: map<string, Value>, n: nat, v: Value)
    requires PreparedUpTo(env, fields, before, after, n) && n < |fields| && NameUnique(fields, n)
    requires fields[n].name in before && !fields[n].kind.ManyToManyField?
    requires !IsRelation(fields[n].kind) ==>
      && InternalType(fields[n].kind) in Preparations
      && KindWf(fields[n].kind)
      && PrepareValue(env, fields[n], before[fields[n].name]) == Success(v)
    requires IsForeignKey(fields[n].kind) ==> FkValue(v, Target(fields[n].kind))
    ensures PreparedUpTo(env, fields, before, after[fields[n].name := v], n + 1)
  {
    var after' := after[fields[n].name := v];
    forall j | 0 <= j < |fields|
      ensures FieldPrepared(env, fields[j], before, after', j < n + 1)
    {
      if j != n {
        assert FieldPrepared(env, fields[j], before, after, j < n);
      }
    }
    forall k | k in before && k !in FieldNames(fields)
      ensures k in after' && after'[k] == before[k]
    {
      assert k != FieldNames(fields)[n];
    }
  }

  /** A many-to-many field `n` leaves the record. */
  lemma PreparedDrop(env: Env, fields: seq<Field>, before: map<string, Value>, after: map<string, Value>, n: nat)
    requires PreparedUpTo(env, fields, before, after, n) && n < |fields| && NameUnique(fields, n)
    requires fields[n].name in before && fields[n].kind.ManyToManyField?
    ensures PreparedUpTo(env, fields, before, after - {fields[n].name}, n + 1)
  {
    var after' := after - {fields[n].name};
    forall j | 0 <= j < |fields|
      ensures FieldPrepared(env, fields[j], before, after', j < n + 1)
    {
      if j != n {
        assert FieldPrepared(env, fields[j], before, after, j < n);
      }
    }
    forall k | k in before && k !in FieldNames(fields)
      ensures k in after' && after'[k] == before[k]
    {
      assert k != FieldNames(fields)[n];
    }
  }

  /** The record holds no relation field, so preparing it starts no other
      generator. */
  predicate NoRelationKeys(m: Model, entries: map<string, Value>)
  {
    forall f :: f in m.fields && f.name in entries ==> !IsRelation(f.kind)
  }

  /** The links `add` creates for the deferred targets under `keys`. */
  ghost function NativeLinks(owner: Instance, related: map<string, seq<Option<Instance>>>, keys: set<string>): set<Link>
  {
    set k, j | k in keys && k in related && 0 <= j < |related[k]| && related[k][j].Some? ::
      Link(owner.model, k, owner.pk, related[k][j].value.pk)
  }

  /** `key` names a many-to-many field of `owner`'s model without a
      `through` model, and every target was resolved. */
  predicate NativeKey(s: Schema, owner: Instance, key: string, targets: seq<Option<Instance>>)
  {
    && owner.model in s.models
    && (var f := FieldNamed(s.models[owner.model].fields, key);
        f.Some? && f.value.kind.ManyToManyField? && f.value.kind.through.None?)
    && forall j :: 0 <= j < |targets| ==> targets[j].Some?
  }

  /** Every deferred key is native. */
  predicate AllNative(s: Schema, owner: Instance, related: map<string, seq<Option<Instance>>>)
  {
    forall k :: k in related ==> NativeKey(s, owner, k, related[k])
  }

  function Pks(targets: seq<Option<Instance>>): (pks: seq<nat>)
    requires forall j :: 0 <= j < |targets| ==> targets[j].Some?
    ensures |pks| == |targets| && forall j :: 0 <= j < |targets| ==> pks[j] == targets[j].value.pk
  {
    if targets == [] then [] else [targets[0].value.pk] + Pks(targets[1..])
  }

  function AsValue(inst: Option<Instance>): Value
  {
    match inst
    case None => VNone
    case Some(i) => VInstance(i)
  }

  /** The record `assign_related` hands to the junction generator for one
      target: both endpoint keys, and the pair of them as persistence key. */
  function JunctionRecord(through: Through, source: nat, target: nat): map<string, Value>
  {
    map[
      through.sourceField := VInt(source),
      through.targetField := VInt(target),
      "etl_persistence" := VList([VStr(through.sourceField), VStr(through.targetField)])]
  }

  /** A junction record resolves its endpoints from primary keys only, so it
      starts no nested record, and it holds no many-to-many key. */
  lemma JunctionRecordFlat(s: Schema, through: Through, owner: string, to: string, source: nat, target: nat)
    requires Wf(s)
    requires IsForeignKeyTo(s, through.model, through.sourceField, owner)
    requires IsForeignKeyTo(s, through.model, through.targetField, to)
    ensures var m := s.models[through.model];
      var e := JunctionRecord(through, source, target);
      RelationRank(m, e) == 0 && NoM2MKeys(m, e)
  {
    var m := s.models[through.model];
    var e := JunctionRecord(through, source, target);
    Registered(s, through.model);
    var fs := FieldNamed(m.fields, through.sourceField).value;
    var ft := FieldNamed(m.fields, through.targetField).value;
    forall j | 0 <= j < |m.fields| && m.fields[j].name in e
      ensures m.fields[j] == fs || m.fields[j] == ft
    {
      assert m.fields[j] in m.fields;
      if m.fields[j].name == through.sourceField {
        SameNameSameField(m.fields, fs, m.fields[j]);
      } else if m.fields[j].name == through.targetField {
        SameNameSameField(m.fields, ft, m.fields[j]);
      }
    }
    forall k | k in e && IsRelationKey(m, k)
      ensures Rank(e[k]) == 0
    {
      var g :| g in m.fields && g.name == k && IsRelation(g.kind);
    }
    RelationRankFlat(m, e);
  }

  /** Attaching the targets of one more native key extends the store's
      links by that key's pairs. */
  lemma NativeLinksStep(base: Db, db: Db, owner: Instance, related: map<string, seq<Option<Instance>>>, done: set<string>, key: string)
    requires key in related && forall j :: 0 <= j < |related[key]| ==> related[key][j].Some?
    requires db == Db(base.tables, base.links + NativeLinks(owner, related, done))
    ensures AddLinks(db, owner.model, key, owner.pk, Pks(related[key]))
      == Db(base.tables, base.links + NativeLinks(owner, related, done + {key}))
  {
    NativeLinksUnion(owner, related, done, key);
  }

  /** Taking `key` off the keys still to do adds it to those done. */
  lemma DoneStep(all: set<string>, todo: set<string>, key: string)
    requires key in todo && todo <= all
    ensures all - (todo - {key}) == (all - todo) + {key}
  {
  }

  /** The links of one more native key are that key's pairs. */
  lemma NativeLinksUnion(owner: Instance, related: map<string, seq<Option<Instance>>>, done: set<string>, key: string)
    requires key in related && forall j :: 0 <= j < |related[key]| ==> related[key][j].Some?
    ensures NativeLinks(owner, related, done) + (set t | t in Pks(related[key]) :: Link(owner.model, key, owner.pk, t))
      == NativeLinks(owner, related, done + {key})
  {
    var lst := related[key];
    var added := set t | t in Pks(lst) :: Link(owner.model, key, owner.pk, t);
    forall l | l in added
      ensures l in NativeLinks(owner, related, done + {key})
    {
      var t :| t in Pks(lst) && l == Link(owner.model, key, owner.pk, t);
      var j :| 0 <= j < |lst| && Pks(lst)[j] == t;
      assert l == Link(owner.model, key, owner.pk, related[key][j].value.pk);
    }
    forall l | l in NativeLinks(owner, related, done + {key}) && l !in NativeLinks(owner, related, done)
      ensures l in added
    {
      var k, j :| k in done + {key} && k in related && 0 <= j < |related[k]| && related[k][j].Some? &&
        l == Link(owner.model, k, owner.pk, related[k][j].value.pk);
      assert k == key;
      assert Pks(lst)[j] in Pks(lst);
    }
  }

  /** An int (or a bool, which Python counts as an int) as a primary key. */
  function IntOf(obj: Value): int
    requires obj.VInt? || obj.VBool?
  {
    if obj.VInt? then obj.i else if obj.b then 1 else 0
  }

  /** What `objects.get(pk=pk)` on `model` yields: the row with that key,
      or DoesNotExist. */
  ghost predicate IntResolved(model: string, db: Db, pk: int, r: Result<Option<Instance>>)
  {
    && (r.Success? <==> 1 <= pk <= |Rows(db, model)|)
    && (r.Success? ==> r.value == Some(Instance(model, pk)))
    && (r.Failure? ==> r.error == DoesNotExist(model, pk))
  }

  /** What `instance_from_str` does to the store, its result and `res`: the
      string fills the model's only unique CharField, truncated as
      `prepare_text` does, and the record is reconciled; with no such field,
      or more than one, nothing happens and the result is None. */
  function StrReconciled(m: Model, settings: Settings, db: Db, res: Option<Res>, s: string): Reconciliation
  {
    var candidates := UniqueCharFields(m.fields);
    if |candidates| == 1 && candidates[0].kind.CharField? then
      Reconciled(db, m, settings, res, map[candidates[0].name := VStr(PrepareText(candidates[0].kind.maxLength, VStr(s)))])
    else Reconciliation(db, Success(None), res)
  }

  /** What `get_instance` does with a dict `entries`, given the record
      `prepared` that `prepare` left (None when it raised) and the store
      `mid` at that point: either prepare failed on a field that may fail,
      or the result is that of reconciling the prepared record, unless
      `assign_related` raised afterwards. `quiet` says that nothing is
      deferred, so `assign_related` has nothing to do. */
  ghost predicate DictResolved(env: Env, m: Model, settings: Settings, res: Option<Res>, entries: map<string, Value>,
    r: Result<Option<Instance>>, after: Db, prepared: Option<map<string, Value>>, mid: Db, quiet: bool)
  {
    && (prepared.None? ==> r.Failure? && exists j :: 0 <= j < |m.fields| && MayFail(env, m.fields[j], entries))
    && (prepared.Some? ==>
          && PreparedFrom(env, m, entries, prepared.value)
          && var e := Reconciled(mid, m, settings, res, prepared.value);
             && (r.Success? ==> r == e.result)
             && (e.result.Failure? ==> r == e.result && after == e.db)
             && (quiet ==> r == e.result && after == e.db))
  }

  /** What `InstanceGenerator(m).get_instance(value)` does on a fresh
      generator (default options, no `res`, nothing deferred), by the kind
      of `value`: an instance of `m` is itself, an int is the row with that
      primary key, a string and a dict are reconciled, anything else is None;
      only a string or a dict changes the store. */
  ghost predicate ResolvedBy(env: Env, m: Model, before: Db, value: Value, r: Result<Option<Instance>>, after: Db,
    prepared: Option<map<string, Value>>, mid: Db)
  {
    match value
    case VDict(entries) =>
      DictResolved(env, m, SettingsFrom(map[]), None, entries, r, after, prepared, mid, NoM2MKeys(m, entries))
    case VStr(s) =>
      var e := StrReconciled(m, SettingsFrom(map[]), before, None, s);
      after == e.db && r == e.result
    case VInt(_) => after == before && IntResolved(m.name, before, IntOf(value), r)
    case VBool(_) => after == before && IntResolved(m.name, before, IntOf(value), r)
    case VInstance(inst) => after == before && r == Success(if inst.model == m.name then Some(inst) else None)
    case _ => after == before && r == Success(None)
  }

  /** A foreign key given as an instance of the target model or as that
      instance's primary key resolves to the same row, and the store is left
      as it was. */
  lemma ResolveInstanceOrPk(env: Env, m: Model, db: Db, inst: Instance,
    r1: Result<Option<Instance>>, after1: Db, p1: Option<map<string, Value>>, mid1: Db,
    r2: Result<Option<Instance>>, after2: Db, p2: Option<map<string, Value>>, mid2: Db)
    requires inst.model == m.name && Present(db, inst)
    requires ResolvedBy(env, m, db, VInstance(inst), r1, after1, p1, mid1)
    requires ResolvedBy(env, m, db, VInt(inst.pk), r2, after2, p2, mid2)
    ensures r1 == r2 == Success(Some(inst))
    ensures after1 == after2 == db
  {
  }

  /** The value `prepare_fk` writes back for what `get_instance` returned. */
  function FkResult(resolved: Result<Option<Instance>>): (r: Result<Value>)
    ensures r.Success? <==> resolved.Success?
  {
    match resolved
    case Success(inst) => Success(AsValue(inst))
    case Failure(e) => Failure(e)
  }

  class Generator {
    const schema: Schema
    const env: Env
    const model: Model
    const settings: Settings
    const store: Database
    var res: Option<Res>
    var relatedInstances: map<string, seq<Option<Instance>>>

    ghost predicate Valid()
    {
      && Wf(schema)
      && SchemaKindsWf(schema)
      && model.name in schema.models
      && schema.models[model.name] == model
    }

    /** `InstanceGenerator(model_class, **options)`. */
    constructor(schema: Schema, env: Env, name: string, options: map<string, Value>, store: Database)
      requires name in schema.models
      ensures this.schema == schema && this.env == env && model == schema.models[name]
      ensures settings == SettingsFrom(options) && this.store == store
      ensures res == None && relatedInstances == map[]
    {
      this.schema := schema;
      this.env := env;
      this.model := schema.models[name];
      this.settings := SettingsFrom(options);
      this.store := store;
      this.res := None;
      this.relatedInstances := map[];
    }

    /** `get_instance`: dispatch on the kind of `obj`. */
    method GetInstance(obj: Value) returns (r: Result<Option<Instance>>, ghost prepared: Option<map<string, Value>>, ghost mid: Db)
      requires Valid() && WellKeyed(store.db)
      modifies this, store
      decreases Rank(obj), 10, 0
      ensures WellKeyed(store.db) && Grows(old(store.db), store.db)
      ensures old(relatedInstances).Keys <= relatedInstances.Keys
      ensures !obj.VDict? ==> relatedInstances == old(relatedInstances)
      ensures !obj.VDict? && !obj.VStr? ==> store.db == old(store.db)
      ensures r.Success? && r.value.Some? ==> r.value.value.model == model.name
      ensures r.Success? && r.value.Some? && !obj.VInstance? ==> Present(store.db, r.value.value)
      ensures obj.VInstance? && obj.inst.model == model.name ==>
        r == Success(Some(obj.inst)) && res == Some(Exists)
      ensures obj.VInt? || obj.VBool? ==> res == Some(Exists) && IntResolved(model.name, store.db, IntOf(obj), r)
      ensures obj.VStr? ==>
        var expected := StrReconciled(model, settings, old(store.db), old(res), obj.s);
        store.db == expected.db && r == expected.result && res == expected.res
      ensures obj.VDict? ==>
        DictResolved(env, model, settings, old(res), obj.entries, r, store.db, prepared, mid,
          NoM2MKeys(model, obj.entries) && old(relatedInstances) == map[])
      ensures obj.VDict? && prepared.Some? ==> res == Reconciled(mid, model, settings, old(res), prepared.value).res
      ensures obj.VNone? || obj.VFloat? || obj.VList? || (obj.VInstance? && obj.inst.model != model.name) ==>
        r == Success(None) && res == old(res)
    {
      prepared, mid := None, store.db;
      if obj.VInstance? && obj.inst.model == model.name {
        res := Some(Exists);
        r := Success(Some(obj.inst));
        return;
      }
      if obj.VDict? {
        // The dict is copied: the caller's dict is not rewritten in place.
        var dic := new Record(obj.entries);
        RelationRankBelowRank(model, obj.entries);
        r, prepared, mid := InstanceFromDic(dic);
        if r.Failure? {
          return;
        }
        var attached := AssignRelated(r.value);
        if attached.Failure? {
          r := Failure(attached.error);
        }
        return;
      }
      if obj.VInt? || obj.VBool? {
        res := Some(Exists);
        r := InstanceFromInt(IntOf(obj));
        return;
      }
      if obj.VStr? {
        r := InstanceFromStr(obj.s);
        return;
      }
      r := Success(None);
    }

    /** `instance_from_int`: `objects.get(pk=pk)`. */
    method InstanceFromInt(pk: int) returns (r: Result<Option<Instance>>)
      requires WellKeyed(store.db)
      ensures r.Success? <==> 1 <= pk <= |Rows(store.db, model.name)|
      ensures r.Success? ==> r.value == Some(Instance(model.name, pk)) && Present(store.db, r.value.value)
      ensures r.Failure? ==> r.error == DoesNotExist(model.name, pk)
    {
      LookupFindsPosition(store.db, model.name, pk);
      var row := Lookup(Rows(store.db, model.name), pk);
      if row.None? {
        return Failure(DoesNotExist(model.name, pk));
      }
      return Success(Some(Instance(model.name, row.value.pk)));
    }

    /** `instance_from_str`. */
    method InstanceFromStr(s: string) returns (r: Result<Option<Instance>>)
      requires Valid() && WellKeyed(store.db)
      modifies this, store
      decreases 1, 9, 0
      ensures WellKeyed(store.db) && Grows(old(store.db), store.db)
      ensures relatedInstances == old(relatedInstances)
      ensures r.Success? && r.value.Some? ==> r.value.value.model == model.name && Present(store.db, r.value.value)
      ensures var expected := StrReconciled(model, settings, old(store.db), old(res), s);
        store.db == expected.db && r == expected.result && res == expected.res
    {
      var candidates := UniqueCharFields(model.fields);
      if |candidates| != 1 {
        return Success(None);
      }
      var f := candidates[0];
      assert f in model.fields;
      assert KindWf(f.kind) && f.kind.CharField?;
      var entries := map[f.name := VStr(s)];
      NoRelationInCharRecord(f, s);
      var dic := new Record(entries);
      ghost var prepared, mid;
      r, prepared, mid := InstanceFromDic(dic);
      CharRecordPrepared(f, s, prepared);
    }

    /** The one-field record of instance_from_str holds no relation field,
        so it starts no nested resolution, and its preparation cannot fail. */
    lemma NoRelationInCharRecord(f: Field, s: string)
      requires Valid() && f in model.fields && f.kind.CharField?
      ensures NoRelationKeys(model, map[f.name := VStr(s)])
      ensures RelationRank(model, map[f.name := VStr(s)]) == 0
      ensures forall j :: 0 <= j < |model.fields| ==> !MayFail(env, model.fields[j], map[f.name := VStr(s)])
    {
      var entries := map[f.name := VStr(s)];
      Registered(schema, model.name);
      forall g | g in model.fields && g.name == f.name
        ensures g == f
      {
        SameNameSameField(model.fields, f, g);
      }
      assert forall k :: k in entries ==> !IsRelationKey(model, k);
      RelationRankFlat(model, entries);
    }

    lemma CharRecordPrepared(f: Field, s: string, prepared: Option<map<string, Value>>)
      requires Valid() && f in model.fields && f.kind.CharField?
      requires prepared.None? ==> exists j :: 0 <= j < |model.fields| && MayFail(env, model.fields[j], map[f.name := VStr(s)])
      requires prepared.Some? ==> PreparedFrom(env, model, map[f.name := VStr(s)], prepared.value)
      ensures prepared == Some(map[f.name := VStr(PrepareText(f.kind.maxLength, VStr(s)))])
    {
      var entries := map[f.name := VStr(s)];
      NoRelationInCharRecord(f, s);
      assert prepared.Some?;
      var after := prepared.value;
      var j :| 0 <= j < |model.fields| && model.fields[j] == f;
      assert FieldPrepared(env, model.fields[j], entries, after, true);
      assert after[f.name] == VStr(PrepareText(f.kind.maxLength, VStr(s)));
      assert after.Keys == {f.name};
      assert after == map[f.name := VStr(PrepareText(f.kind.maxLength, VStr(s)))];
    }

    /** `instance_from_dic`: prepare the record in place, then reconcile it
        with the store. `prepared` is the record as `prepare` left it and
        `mid` the store at that point. */
    method InstanceFromDic(dic: Record) returns (r: Result<Option<Instance>>, ghost prepared: Option<map<string, Value>>, ghost mid: Db)
      requires Valid() && WellKeyed(store.db)
      modifies this, store, dic
      decreases 1 + RelationRank(model, dic.entries), 6, 0
      ensures WellKeyed(store.db) && Grows(old(store.db), store.db)
      ensures old(relatedInstances).Keys <= relatedInstances.Keys
      ensures NoM2MKeys(model, old(dic.entries)) ==> relatedInstances == old(relatedInstances)
      ensures NoRelationKeys(model, old(dic.entries)) ==> relatedInstances == old(relatedInstances) && mid == old(store.db)
      ensures WellKeyed(mid) && Grows(old(store.db), mid) && Grows(mid, store.db)
      ensures r.Success? && r.value.Some? ==> r.value.value.model == model.name && Present(store.db, r.value.value)
      ensures prepared.None? ==>
        r.Failure? && exists j :: 0 <= j < |model.fields| && MayFail(env, model.fields[j], old(dic.entries))
      ensures prepared.Some? ==>
        && PreparedFrom(env, model, old(dic.entries), prepared.value)
        && var expected := Reconciled(mid, model, settings, old(res), prepared.value);
           store.db == expected.db && r == expected.result && res == expected.res
    {
      prepared, mid := None, store.db;
      var p := Prepare(dic);
      if p.Failure? {
        return Failure(p.error), prepared, mid;
      }
      prepared, mid := Some(dic.entries), store.db;
      r := Reconcile(dic);
      ReconciledFacts(mid, model, settings, old(res), prepared.value);
    }

    /** `InstanceGenerator.prepare`: run every field the record carries
        through its entry of the preparation table, in field order; a
        many-to-many value is deferred to `relatedInstances` and its key
        deleted. */
    method Prepare(dic: Record) returns (r: Result<()>)
      requires Valid() && WellKeyed(store.db)
      modifies this, store, dic
      decreases 1 + RelationRank(model, dic.entries), 5, 0
      ensures WellKeyed(store.db) && Grows(old(store.db), store.db)
      ensures res == old(res)
      ensures old(relatedInstances).Keys <= relatedInstances.Keys
      ensures NoM2MKeys(model, old(dic.entries)) ==> relatedInstances == old(relatedInstances)
      ensures NoRelationKeys(model, old(dic.entries)) ==> relatedInstances == old(relatedInstances) && store.db == old(store.db)
      ensures r.Success? ==> PreparedFrom(env, model, old(dic.entries), dic.entries)
      ensures r.Failure? ==> exists j :: 0 <= j < |model.fields| && MayFail(env, model.fields[j], old(dic.entries))
    {
      ghost var before := dic.entries;
      var i := 0;
      while i < |model.fields|
        invariant 0 <= i <= |model.fields|
        invariant WellKeyed(store.db) && Grows(old(store.db), store.db)
        invariant res == old(res)
        invariant PreparedUpTo(env, model.fields, before, dic.entries, i)
        invariant old(relatedInstances).Keys <= relatedInstances.Keys
        invariant NoM2MKeys(model, before) ==> relatedInstances == old(relatedInstances)
        invariant NoRelationKeys(model, before) ==> relatedInstances == old(relatedInstances) && store.db == old(store.db)
      {
        r := PrepareField(dic, i, before);
        if r.Failure? {
          return;
        }
        i := i + 1;
      }
      return Success(());
    }

    /** One pass of the loop in `prepare`: field number `i` of the model, if
        the record carries it, is replaced by its prepared value, or, for a
        many-to-many field, deferred and deleted. */
    method PrepareField(dic: Record, i: nat, ghost before: map<string, Value>) returns (r: Result<()>)
      requires Valid() && WellKeyed(store.db) && i < |model.fields|
      requires PreparedUpTo(env, model.fields, before, dic.entries, i)
      modifies this, store, dic
      decreases 1 + RelationRank(model, before), 4, 0
      ensures WellKeyed(store.db) && Grows(old(store.db), store.db)
      ensures res == old(res)
      ensures r.Success? ==> PreparedUpTo(env, model.fields, before, dic.entries, i + 1)
      ensures r.Failure? ==> MayFail(env, model.fields[i], before)
      ensures old(relatedInstances).Keys <= relatedInstances.Keys
      ensures !(model.fields[i].kind.ManyToManyField? && model.fields[i].name in before) ==>
        relatedInstances == old(relatedInstances)
      ensures !(IsRelation(model.fields[i].kind) && model.fields[i].name in before) ==> store.db == old(store.db)
    {
      var f := model.fields[i];
      if f.name !in dic.entries {
        PreparedSkip(env, model.fields, before, dic.entries, i);
        return Success(());
      }
      var kind := InternalType(f.kind);
      if kind !in Preparations {
        return Failure(NoPreparation(kind));
      }
      r := PreparePresent(dic, i, before);
    }

    /** The pass of `prepare` for a field the record carries and the table
        knows. */
    method PreparePresent(dic: Record, i: nat, ghost before: map<string, Value>) returns (r: Result<()>)
      requires Valid() && WellKeyed(store.db) && i < |model.fields|
      requires PreparedUpTo(env, model.fields, before, dic.entries, i)
      requires model.fields[i].name in dic.entries && InternalType(model.fields[i].kind) in Preparations
      modifies this, store, dic
      decreases 1 + RelationRank(model, before), 3, 0
      ensures WellKeyed(store.db) && Grows(old(store.db), store.db)
      ensures res == old(res)
      ensures r.Success? ==> PreparedUpTo(env, model.fields, before, dic.entries, i + 1)
      ensures r.Failure? ==> MayFail(env, model.fields[i], before)
      ensures old(relatedInstances).Keys <= relatedInstances.Keys
      ensures !model.fields[i].kind.ManyToManyField? ==> relatedInstances == old(relatedInstances)
      ensures !IsRelation(model.fields[i].kind) ==> store.db == old(store.db)
    {
      var f := model.fields[i];
      assert FieldPrepared(env, f, before, dic.entries, false);
      KindOf(f);
      if IsRelation(f.kind) {
        RelationRankBound(model, before, f.name);
      }
      var v, _, _, _ := PrepareFunction(f, dic.entries[f.name]);
      if v.Failure? {
        return Failure(v.error);
      }
      WriteBack(dic, i, before, v.value);
      return Success(());
    }

    /** The end of a pass of `prepare`: the prepared value replaces the
        record's, and a many-to-many key, whose targets are deferred, is
        deleted. */
    method WriteBack(dic: Record, i: nat, ghost before: map<string, Value>, v: Value)
      requires Valid() && i < |model.fields|
      requires PreparedUpTo(env, model.fields, before, dic.entries, i)
      requires model.fields[i].name in before
      requires !IsRelation(model.fields[i].kind) ==>
        && InternalType(model.fields[i].kind) in Preparations
        && KindWf(model.fields[i].kind)
        && PrepareValue(env, model.fields[i], before[model.fields[i].name]) == Success(v)
      requires IsForeignKey(model.fields[i].kind) ==> FkValue(v, Target(model.fields[i].kind))
      modifies dic
      ensures PreparedUpTo(env, model.fields, before, dic.entries, i + 1)
    {
      var f := model.fields[i];
      KindOf(f);
      Registered(schema, model.name);
      DistinctNameUnique(model.fields, i);
      ghost var handled := dic.entries;
      dic.entries := dic.entries[f.name := v];
      if InternalType(f.kind) == "ManyToManyField" {
        PreparedDrop(env, model.fields, before, handled, i);
        dic.entries := dic.entries - {f.name};
        assert dic.entries == handled - {f.name};
      } else {
        PreparedSet(env, model.fields, before, handled, i, v);
      }
    }

    /** The kind of a field of this model poses as no table type it lacks. */
    lemma KindOf(f: Field)
      requires Valid() && f in model.fields
      ensures KindWf(f.kind)
      ensures InternalType(f.kind) == "ManyToManyField" <==> f.kind.ManyToManyField?
    {
    }

    /** `getattr(self, self.preparations[fieldtype], ...)(field, value)`:
        the preparation the table names for the field's internal type. A
        many-to-many field yields None, its targets being deferred. */
    method PrepareFunction(f: Field, value: Value)
      returns (r: Result<Value>, ghost resolved: Result<Option<Instance>>, ghost prepared: Option<map<string, Value>>, ghost mid: Db)
      requires Valid() && WellKeyed(store.db) && f in model.fields && InternalType(f.kind) in Preparations
      modifies this, store
      decreases if IsRelation(f.kind) then Rank(value) else 0, 12, 0
      ensures WellKeyed(store.db) && Grows(old(store.db), store.db)
      ensures res == old(res)
      ensures !IsRelation(f.kind) ==>
        && KindWf(f.kind)
        && r == PrepareValue(env, f, value)
        && store.db == old(store.db) && relatedInstances == old(relatedInstances)
      ensures IsForeignKey(f.kind) ==>
        && Target(f.kind) in schema.models
        && ResolvedBy(env, schema.models[Target(f.kind)], old(store.db), value, resolved, store.db, prepared, mid)
        && r == FkResult(resolved)
        && (r.Success? ==> FkValue(r.value, Target(f.kind)))
        && relatedInstances == old(relatedInstances)
      ensures f.kind.ManyToManyField? ==>
        && (r.Success? ==> r.value == VNone)
        && relatedInstances.Keys == old(relatedInstances).Keys + {f.name}
    {
      assert KindWf(f.kind);
      HandlerOfRelation(f.kind);
      resolved, prepared, mid := Success(None), None, store.db;
      match Preparations[InternalType(f.kind)] {
        case Fk =>
          r, resolved, prepared, mid := PrepareFk(f, value);
        case M2M =>
          var deferred := PrepareM2M(f, value);
          r := if deferred.Failure? then Failure(deferred.error) else Success(VNone);
        case _ =>
          r := PrepareValue(env, f, value);
      }
    }

    /** `prepare_fk`: resolve the value with a fresh generator of the
        target model; `resolved` is what that generator returned. */
    method PrepareFk(f: Field, value: Value)
      returns (r: Result<Value>, ghost resolved: Result<Option<Instance>>, ghost prepared: Option<map<string, Value>>, ghost mid: Db)
      requires Valid() && WellKeyed(store.db) && f in model.fields && IsForeignKey(f.kind)
      modifies store
      decreases Rank(value), 11, 0
      ensures WellKeyed(store.db) && Grows(old(store.db), store.db)
      ensures Target(f.kind) in schema.models
      ensures ResolvedBy(env, schema.models[Target(f.kind)], old(store.db), value, resolved, store.db, prepared, mid)
      ensures r == FkResult(resolved)
      ensures r.Success? ==> FkValue(r.value, Target(f.kind))
    {
      TargetRegistered(schema, model.name, f);
      var inst;
      inst, prepared, mid := Resolve(Target(f.kind), value);
      resolved := inst;
      r := FkResult(inst);
    }

    /** `InstanceGenerator(to).get_instance(value)` with default options. */
    method Resolve(to: string, value: Value)
      returns (r: Result<Option<Instance>>, ghost prepared: Option<map<string, Value>>, ghost mid: Db)
      requires Valid() && WellKeyed(store.db) && to in schema.models && schema.models[to].name == to
      modifies store
      decreases Rank(value), 10, 1
      ensures WellKeyed(store.db) && Grows(old(store.db), store.db)
      ensures r.Success? && r.value.Some? ==> r.value.value.model == to
      ensures ResolvedBy(env, schema.models[to], old(store.db), value, r, store.db, prepared, mid)
    {
      var generator := new Generator(schema, env, to, map[], store);
      r, prepared, mid := generator.GetInstance(value);
    }

    /** Resolve, keeping only what the loop of `prepare_m2m` relies on. */
    method ResolveTarget(to: string, value: Value) returns (r: Result<Option<Instance>>)
      requires Valid() && WellKeyed(store.db) && to in schema.models && schema.models[to].name == to
      modifies store
      decreases Rank(value), 10, 2
      ensures WellKeyed(store.db) && Grows(old(store.db), store.db)
      ensures r.Success? && r.value.Some? ==> r.value.value.model == to
    {
      var inst, _, _ := Resolve(to, value);
      r := inst;
    }

    /** `prepare_m2m`: resolve every element (a non-list value counts as a
        one-element list) with a fresh generator of the target model and
        defer the results, in input order, under the field's name. */
    method PrepareM2M(f: Field, value: Value) returns (r: Result<()>)
      requires Valid() && WellKeyed(store.db) && f in model.fields && f.kind.ManyToManyField?
      modifies this, store
      decreases Rank(value), 11, 0
      ensures WellKeyed(store.db) && Grows(old(store.db), store.db)
      ensures res == old(res)
      ensures f.name in relatedInstances && relatedInstances == old(relatedInstances)[f.name := relatedInstances[f.name]]
      ensures r.Success? ==> |relatedInstances[f.name]| == |ListOf(value)|
      ensures forall j :: 0 <= j < |relatedInstances[f.name]| && relatedInstances[f.name][j].Some? ==>
        relatedInstances[f.name][j].value.model == f.kind.to
    {
      TargetRegistered(schema, model.name, f);
      var items := ListOf(value);
      var resolved: seq<Option<Instance>> := [];
      relatedInstances := relatedInstances[f.name := resolved];
      var j := 0;
      while j < |items|
        invariant 0 <= j <= |items| && |resolved| == j
        invariant WellKeyed(store.db) && Grows(old(store.db), store.db)
        invariant res == old(res) && relatedInstances == old(relatedInstances)[f.name := resolved]
        invariant forall i :: 0 <= i < j && resolved[i].Some? ==> resolved[i].value.model == f.kind.to
      {
        if value.VList? {
          MaxRankSeqBound(items, j);
        }
        var inst := ResolveTarget(f.kind.to, items[j]);
        if inst.Failure? {
          return Failure(inst.error);
        }
        resolved := resolved + [inst.value];
        relatedInstances := relatedInstances[f.name := resolved];
        j := j + 1;
      }
      return Success(());
    }

    static function ListOf(value: Value): (items: seq<Value>)
      ensures !value.VList? ==> items == [value]
    {
      if value.VList? then value.items else [value]
    }

    /** Lines 101-123 of `instance_from_dic`: choose the key, pop the option
        keys, keep the model's fields, count the matches and create, update,
        mark as existing, do nothing or raise. */
    method Reconcile(dic: Record) returns (r: Result<Option<Instance>>)
      requires WellKeyed(store.db)
      modifies this, store, dic
      ensures relatedInstances == old(relatedInstances)
      ensures var expected := Reconciled(old(store.db), model, settings, old(res), old(dic.entries));
        store.db == expected.db && r == expected.result && res == expected.res
      ensures EffectiveSettings(model, settings, old(dic.entries)).Failure? ==> dic.entries == old(dic.entries)
      ensures EffectiveSettings(model, settings, old(dic.entries)).Success? ==> dic.entries == PopOptions(old(dic.entries))
    {
      var fallback: Value;
      if Truthy(settings.persistence) {
        fallback := settings.persistence;
      } else {
        var names :- UnambiguousFields(model);
        fallback := VList(StrValues(names));
      }
      var persistence := Get(dic.entries, "etl_persistence", fallback);
      dic.entries := dic.entries - {"etl_persistence"};
      var create := Get(dic.entries, "etl_create", settings.create);
      dic.entries := dic.entries - {"etl_create"};
      var update := Get(dic.entries, "etl_update", settings.update);
      dic.entries := dic.entries - {"etl_update"};
      assert dic.entries == PopOptions(old(dic.entries));
      var fields := OnlyFields(dic.entries, FieldNames(model.fields));
      r := Apply(fields, Settings(persistence, create, update));
    }

    /** Lines 108-123 of `instance_from_dic`: count the rows the key
        matches and create, update, mark as existing, do nothing or raise. */
    method Apply(fields: map<string, Value>, s: Settings) returns (r: Result<Option<Instance>>)
      requires WellKeyed(store.db)
      modifies this, store
      ensures relatedInstances == old(relatedInstances)
      ensures var expected := Applied(old(store.db), model, s, old(res), fields);
        store.db == expected.db && r == expected.result && res == expected.res
    {
      var query :- PersistenceQuery(fields, s.persistence);
      var matched := Evaluate(store.db, model.name, query);
      var count := |matched|;
      if count == 0 && Truthy(s.create) {
        var inst := CreateInDb(fields);
        res := Some(Created);
        return Success(Some(inst));
      }
      if count == 1 {
        if Truthy(s.update) {
          var inst := UpdateInDb(fields, matched);
          res := Some(Updated);
          return Success(Some(inst));
        } else {
          res := Some(Exists);
        }
      }
      if count > 1 {
        return Failure(DoubleEntry(s.persistence));
      }
      return Success(None);
    }

    /** `create_in_db`. */
    method CreateInDb(fields: map<string, Value>) returns (inst: Instance)
      modifies store
      ensures (store.db, inst) == Insert(old(store.db), model.name, fields)
    {
      var created := Insert(store.db, model.name, fields);
      store.db := created.0;
      return created.1;
    }

    /** `update_in_db`: update every selected row, save the first, return it. */
    method UpdateInDb(fields: map<string, Value>, selected: seq<nat>) returns (inst: Instance)
      requires selected != []
      modifies store
      ensures store.db == WriteAll(old(store.db), model.name, selected, fields)
      ensures inst == Instance(model.name, selected[0])
    {
      store.db := WriteAll(store.db, model.name, selected, fields);
      return Instance(model.name, selected[0]);
    }

    /** `assign_related`: attach the deferred many-to-many targets to
        `instance`. A native relation takes them with `add`; a relation with
        a `through` model gets one junction record per target, keyed on both
        ends. As in the source, `instance` is rebound to each junction row
        created, so a later target and a later key are attached to that row. */
    method AssignRelated(instance: Option<Instance>) returns (r: Result<()>)
      requires Valid() && WellKeyed(store.db)
      modifies store
      decreases 1, 7, 0
      ensures WellKeyed(store.db) && Grows(old(store.db), store.db)
      ensures relatedInstances == map[] ==> r == Success(()) && store.db == old(store.db)
      ensures instance.None? && relatedInstances != map[] ==>
        r.Failure? && r.error.AttributeError? && r.error.attribute in relatedInstances && store.db == old(store.db)
      ensures instance.Some? && AllNative(schema, instance.value, relatedInstances) ==>
        r.Success? && store.db == Db(old(store.db).tables, old(store.db).links + NativeLinks(instance.value, relatedInstances, relatedInstances.Keys))
    {
      ghost var native := instance.Some? && AllNative(schema, instance.value, relatedInstances);
      var todo := relatedInstances.Keys;
      var current := instance;
      while todo != {}
        invariant todo <= relatedInstances.Keys
        invariant WellKeyed(store.db) && Grows(old(store.db), store.db)
        invariant todo == relatedInstances.Keys ==> store.db == old(store.db)
        invariant instance.None? ==> current.None? && todo == relatedInstances.Keys
        invariant native ==>
          current == instance &&
          store.db == Db(old(store.db).tables, old(store.db).links + NativeLinks(instance.value, relatedInstances, relatedInstances.Keys - todo))
        decreases |todo|
      {
        var key :| key in todo;
        ghost var done := relatedInstances.Keys - todo;
        if native {
          NativeLinksStep(old(store.db), store.db, instance.value, relatedInstances, done, key);
          DoneStep(relatedInstances.Keys, todo, key);
        }
        var out := AttachKey(key, current);
        if out.Failure? {
          return Failure(out.error);
        }
        current := out.value;
        todo := todo - {key};
      }
      return Success(());
    }

    /** One pass of the loop in `assign_related`: attach the targets
        deferred under `key` to `current`. The result is the owner for the
        next key: `current` itself after `add`, the last junction row after a
        `through` relation. */
    method AttachKey(key: string, current: Option<Instance>) returns (r: Result<Option<Instance>>)
      requires Valid() && WellKeyed(store.db) && key in relatedInstances
      modifies store
      decreases 1, 6, 2
      ensures WellKeyed(store.db) && Grows(old(store.db), store.db)
      ensures current.None? ==> r == Failure(AttributeError(key)) && store.db == old(store.db)
      ensures current.Some? && NativeKey(schema, current.value, key, relatedInstances[key]) ==>
        && r == Success(current)
        && store.db == AddLinks(old(store.db), current.value.model, key, current.value.pk, Pks(relatedInstances[key]))
    {
      var targets := relatedInstances[key];
      if current.None? {
        return Failure(AttributeError(key));
      }
      var owner := current.value;
      if owner.model !in schema.models {
        return Failure(AttributeError(key));
      }
      var field := FieldNamed(schema.models[owner.model].fields, key);
      if field.None? {
        return Failure(AttributeError(key));
      }
      if !field.value.kind.ManyToManyField? {
        // the attribute is not a related manager: `add`, then `through`, are missing
        return Failure(AttributeError("through"));
      }
      match field.value.kind.through {
        case None =>
          if exists j :: 0 <= j < |targets| && targets[j].None? {
            return Failure(IntegrityError);
          }
          store.db := AddLinks(store.db, owner.model, key, owner.pk, Pks(targets));
          return Success(current);
        case Some(through) =>
          ThroughRegistered(schema, owner.model, field.value);
          r := AttachThrough(through, owner.model, field.value.kind.to, owner, targets);
      }
    }

    /** The `through` branch of `assign_related`: one junction record per
        target, reconciled by a generator of the junction model; each row
        created becomes the owner the next target is attached to. The result
        is the owner after the last target. */
    method AttachThrough(through: Through, ownerModel: string, to: string, owner: Instance, targets: seq<Option<Instance>>)
      returns (r: Result<Option<Instance>>)
      requires Valid() && WellKeyed(store.db)
      requires IsForeignKeyTo(schema, through.model, through.sourceField, ownerModel)
      requires IsForeignKeyTo(schema, through.model, through.targetField, to)
      requires schema.models[through.model].name == through.model
      modifies store
      decreases 1, 6, 1
      ensures WellKeyed(store.db) && Grows(old(store.db), store.db)
      ensures targets == [] ==> r == Success(Some(owner)) && store.db == old(store.db)
      ensures r.Success? && r.value.Some? && targets != [] ==> r.value.value.model == through.model
    {
      var junction := new Generator(schema, env, through.model, map[], store);
      var current := Some(owner);
      var j := 0;
      while j < |targets|
        invariant 0 <= j <= |targets|
        invariant WellKeyed(store.db) && Grows(old(store.db), store.db)
        invariant j == 0 ==> current == Some(owner) && store.db == old(store.db)
        invariant j > 0 && current.Some? ==> current.value.model == through.model
        invariant junction.relatedInstances == map[]
      {
        if current.None? || targets[j].None? {
          return Failure(AttributeError("pk"));
        }
        var entries := JunctionRecord(through, current.value.pk, targets[j].value.pk);
        JunctionRecordFlat(schema, through, ownerModel, to, current.value.pk, targets[j].value.pk);
        var dic := new Record(entries);
        var out;
        ghost var prepared, mid;
        out, prepared, mid := junction.InstanceFromDic(dic);
        // get_instance goes on with the junction generator's assign_related,
        // which has nothing to do: a junction record holds no many-to-many key
        if out.Failure? {
          return Failure(out.error);
        }
        current := out.value;
        j := j + 1;
      }
      return Success(current);
    }
  }
}
