/** Model metadata read by the generators: a model's field list with each
    field's Django internal type, its `unique` flag and `unique_together`.
    The Django version shims (`get_fields`, `get_internal_type`) are replaced
    by this data. */
module Schema {
  import opened Values

  /** The junction model of a many-to-many relation declared with
      `through=`, with the names of its two endpoint foreign keys. */
  datatype Through = Through(model: string, sourceField: string, targetField: string)

  datatype FieldKind =
    | AutoField
    | ForeignKey(to: string)
    | OneToOneField(to: string)
    | ManyToManyField(to: string, through: Option<Through>)
    | DateTimeField(autoNow: bool, autoNowAdd: bool, nullable: bool)
    | GeometryField(dim: nat)
    | CharField(maxLength: Option<nat>)
    | TextField(maxLength: Option<nat>)
    | BooleanField
    | IntegerField
    | BigIntegerField
    | FloatField
    | OtherField(internalType: string)

  datatype Field = Field(name: string, kind: FieldKind, unique: bool)

  /** `fields` are in `_meta.get_fields()` order (concrete fields, then
      many-to-many fields); `uniqueTogether` is Django's normalised
      `unique_together`: a list of field-name tuples. */
  datatype Model = Model(name: string, fields: seq<Field>, uniqueTogether: seq<seq<string>>)

  datatype Schema = Schema(models: map<string, Model>)

  /** `field.get_internal_type()`. */
  function InternalType(k: FieldKind): string
  {
    match k
    case AutoField => "AutoField"
    case ForeignKey(_) => "ForeignKey"
    case OneToOneField(_) => "OneToOneField"
    case ManyToManyField(_, _) => "ManyToManyField"
    case DateTimeField(_, _, _) => "DateTimeField"
    case GeometryField(_) => "GeometryField"
    case CharField(_) => "CharField"
    case TextField(_) => "TextField"
    case BooleanField => "BooleanField"
    case IntegerField => "IntegerField"
    case BigIntegerField => "BigIntegerField"
    case FloatField => "FloatField"
    case OtherField(t) => t
  }

  /** A relation field: its value is resolved by another generator. */
  predicate IsRelation(k: FieldKind)
  {
    k.ForeignKey? || k.OneToOneField? || k.ManyToManyField?
  }

  /** The model a relation field points to (`field.rel.to`). */
  function Target(k: FieldKind): string
    requires IsRelation(k)
  {
    match k
    case ForeignKey(to) => to
    case OneToOneField(to) => to
    case ManyToManyField(to, _) => to
  }

  function FieldNames(fields: seq<Field>): (names: seq<string>)
    ensures |names| == |fields|
    ensures forall j :: 0 <= j < |fields| ==> names[j] == fields[j].name
  {
    if fields == [] then [] else [fields[0].name] + FieldNames(fields[1..])
  }

  /** `get_unique_fields`: names of the fields with unique=True, `id` excluded,
      in declaration order. */
  function UniqueFields(fields: seq<Field>): (names: seq<string>)
    ensures forall n :: n in names <==> exists f :: f in fields && f.unique && f.name != "id" && f.name == n
    ensures |names| <= |fields|
  {
    if fields == [] then []
    else
      var rest := UniqueFields(fields[1..]);
      assert forall f :: f in fields[1..] ==> f in fields;
      assert forall f :: f in fields ==> f == fields[0] || f in fields[1..];
      if fields[0].unique && fields[0].name != "id" then [fields[0].name] + rest else rest
  }

  /** `get_unambiguous_fields`: the persistence criterion derived from the
      model. The first `unique_together` tuple wins; otherwise no unique
      field gives the empty key, one gives that field, and more than one is
      a ValidationError. */
  function UnambiguousFields(m: Model): Result<seq<string>>
  {
    if m.uniqueTogether != [] then Success(m.uniqueTogether[0])
    else
      var unique := UniqueFields(m.fields);
      if |unique| == 0 then Success([])
      else if |unique| == 1 then Success(unique)
      else Failure(AmbiguousUniqueFields(m.name))
  }

  /** The fields `instance_from_str` may fill from a bare string: unique
      fields whose internal type is CharField. */
  function UniqueCharFields(fields: seq<Field>): (r: seq<Field>)
    ensures forall f :: f in r <==> f in fields && f.unique && InternalType(f.kind) == "CharField"
  {
    if fields == [] then []
    else
      var rest := UniqueCharFields(fields[1..]);
      assert forall f :: f in fields[1..] ==> f in fields;
      assert forall f :: f in fields ==> f == fields[0] || f in fields[1..];
      if fields[0].unique && InternalType(fields[0].kind) == "CharField" then [fields[0]] + rest else rest
  }

  /** The per-record option keys; no model may declare a field of that name. */
  const OptionKeys: set<string> := {"etl_persistence", "etl_create", "etl_update"}

  predicate DistinctNames(fields: seq<Field>)
  {
    forall i, j :: 0 <= i < j < |fields| ==> fields[i].name != fields[j].name
  }

  /** The field of `m` called `name`, if any. */
  function FieldNamed(fields: seq<Field>, name: string): (r: Option<Field>)
    ensures r.Some? ==> r.value in fields && r.value.name == name
    ensures r.None? ==> forall f :: f in fields ==> f.name != name
  {
    if fields == [] then None
    else if fields[0].name == name then Some(fields[0])
    else FieldNamed(fields[1..], name)
  }

  /** A foreign key of `through` pointing at `to`. */
  predicate IsForeignKeyTo(s: Schema, through: string, name: string, to: string)
  {
    through in s.models &&
    var f := FieldNamed(s.models[through].fields, name);
    f.Some? && f.value.kind == ForeignKey(to)
  }

  /** What Django's model checks guarantee and the engine relies on: every
      model is registered under its name, field names are distinct and are
      not option keys, relations point at registered models, and a junction
      model holds a foreign key to each end of its relation. */
  ghost predicate Wf(s: Schema)
  {
    forall name {:trigger ModelWf(s, name)} :: name in s.models ==> ModelWf(s, name)
  }

  ghost predicate ModelWf(s: Schema, name: string)
    requires name in s.models
  {
    var m := s.models[name];
    && m.name == name
    && DistinctNames(m.fields)
    && forall f :: f in m.fields ==>
         && f.name !in OptionKeys
         && (IsRelation(f.kind) ==> Target(f.kind) in s.models)
         && (f.kind.ManyToManyField? && f.kind.through.Some? ==>
              var t := f.kind.through.value;
              && t.sourceField != t.targetField
              && IsForeignKeyTo(s, t.model, t.sourceField, name)
              && IsForeignKeyTo(s, t.model, t.targetField, f.kind.to))
  }

  /** A relation field of `m` named `k`. */
  predicate IsRelationKey(m: Model, k: string)
  {
    exists f :: f in m.fields && f.name == k && IsRelation(f.kind)
  }

  /** The depth of the relation values of a record: only these are handed to
      other generators, so only these bound the recursion. */
  ghost function RelationRank(m: Model, entries: map<string, Value>): nat
  {
    MaxRankOver(VDict(entries), RelationKeys(m, entries))
  }

  ghost function RelationKeys(m: Model, entries: map<string, Value>): (ks: set<string>)
    ensures ks <= entries.Keys
  {
    set k | k in entries && IsRelationKey(m, k)
  }

  lemma RelationRankBound(m: Model, entries: map<string, Value>, k: string)
    requires k in entries && IsRelationKey(m, k)
    ensures Rank(entries[k]) <= RelationRank(m, entries)
  {
    MaxRankOverBound(VDict(entries), RelationKeys(m, entries), k);
  }

  lemma RelationRankBelowRank(m: Model, entries: map<string, Value>)
    ensures RelationRank(m, entries) < Rank(VDict(entries))
  {
    var d := VDict(entries);
    forall k | k in entries && IsRelationKey(m, k)
      ensures Rank(entries[k]) <= MaxRankOver(d, entries.Keys)
    {
      MaxRankOverBound(d, entries.Keys, k);
    }
    MaxRankOverAtMost(d, RelationKeys(m, entries), MaxRankOver(d, entries.Keys));
  }

  /** A record whose relation values are all scalars (ints, instances, ...)
      starts no nested record resolution. */
  lemma RelationRankFlat(m: Model, entries: map<string, Value>)
    requires forall k :: k in entries && IsRelationKey(m, k) ==> Rank(entries[k]) == 0
    ensures RelationRank(m, entries) == 0
  {
    MaxRankOverAtMost(VDict(entries), RelationKeys(m, entries), 0);
  }

  /** Field names are distinct, so a name determines the field. */
  lemma SameNameSameField(fields: seq<Field>, f: Field, g: Field)
    requires DistinctNames(fields) && f in fields && g in fields && f.name == g.name
    ensures f == g
  {
    var i :| 0 <= i < |fields| && fields[i] == f;
    var j :| 0 <= j < |fields| && fields[j] == g;
  }

  /** A registered model is filed under its own name, with distinct field
      names none of which is an option key. */
  lemma Registered(s: Schema, name: string)
    requires Wf(s) && name in s.models
    ensures s.models[name].name == name && DistinctNames(s.models[name].fields)
    ensures forall f :: f in s.models[name].fields ==> f.name !in OptionKeys
  {
    assert ModelWf(s, name);
  }

  /** The target of a relation field is a registered model. */
  lemma TargetRegistered(s: Schema, name: string, f: Field)
    requires Wf(s) && name in s.models && f in s.models[name].fields && IsRelation(f.kind)
    ensures Target(f.kind) in s.models && s.models[Target(f.kind)].name == Target(f.kind)
  {
    assert ModelWf(s, name);
    assert ModelWf(s, Target(f.kind));
  }

  /** The junction model of a `through` relation is registered and holds a
      foreign key to each end. */
  lemma ThroughRegistered(s: Schema, name: string, f: Field)
    requires Wf(s) && name in s.models && f in s.models[name].fields
    requires f.kind.ManyToManyField? && f.kind.through.Some?
    ensures var t := f.kind.through.value;
      && t.model in s.models && s.models[t.model].name == t.model
      && IsForeignKeyTo(s, t.model, t.sourceField, name)
      && IsForeignKeyTo(s, t.model, t.targetField, f.kind.to)
  {
    assert ModelWf(s, name);
    assert ModelWf(s, f.kind.through.value.model);
  }
}
