/** The test models of the package as schema data. Fields are listed in
    the order `_meta.get_fields()` yields them, which is the order `prepare`
    visits them: Django's implicit `id` primary key, the other concrete
    fields as declared, then the many-to-many fields. `null`, `blank` and
    `to_field` do not affect the engine and are dropped, except that a
    DateTimeField keeps its `null` flag, which decides whether an empty
    value is accepted. */
module Fixtures {
  import opened Values
  import opened Schema
  import opened Coercion
  import opened Store
  import opened Reconcile
  import ReconcileProperties
  import Generators

  const Id := Field("id", AutoField, true)

  function Char(name: string, maxLength: nat, unique: bool): Field
  {
    Field(name, CharField(Some(maxLength)), unique)
  }

  function Fk(name: string, to: string): Field
  {
    Field(name, ForeignKey(to), false)
  }

  const TestModelWoFk := Model("TestModelWoFk", [Id, Char("record", 10, false), Char("name", 10, false), Char("zahl", 10, false),
    Field("date", DateTimeField(true, false, false), false)], [])

  const Nombre := Model("Nombre", [Id, Char("name", 10, true)], [])

  const SimpleFkModel := Model("SimpleFkModel", [Id, Fk("fk", "Nombre"), Char("name", 10, false)], [])

  const Numero := Model("Numero", [Id, Char("name", 10, false)], [])

  const Polish := Model("Polish", [Id, Char("record", 10, true), Char("ilosc", 10, false)], [])

  const ElNumero := Model("ElNumero", [Id, Char("rec", 10, true), Char("name", 10, false), Char("nochwas", 2, false)], [])

  const TestModel := Model("TestModel", [Id, Char("record", 10, true), Char("name", 10, false), Char("zahl", 10, false),
    Fk("nombre", "Nombre"), Fk("numero", "Numero"), Fk("elnumero", "ElNumero"),
    Field("date", DateTimeField(false, false, true), false),
    Field("related", ManyToManyField("Polish", None), false)], [])

  const TestOnetoOneModel := Model("TestOnetoOneModel", [Id, Char("record", 10, true), Char("name", 10, false), Char("zahl", 10, false),
    Field("nombre", OneToOneField("Nombre"), true), Fk("numero", "Numero"), Fk("elnumero", "ElNumero"),
    Field("date", DateTimeField(false, false, true), false),
    Field("related", ManyToManyField("Polish", None), false)], [])

  const HashTestModel := Model("HashTestModel", [Id, Char("record", 10, false), Fk("numero", "Numero"), Char("zahl", 10, false),
    Char("md5", 32, false), Field("related", ManyToManyField("Polish", None), false)], [])

  const AnotherModel := Model("AnotherModel", [Id, Char("record", 10, true), Char("last_name", 10, false)], [])

  const LnamesThrough := Through("IntermediateModel", "somemodel", "anothermodel")

  const SomeModel := Model("SomeModel", [Id, Char("record", 10, true), Char("name", 10, false),
    Field("lnames", ManyToManyField("AnotherModel", Some(LnamesThrough)), false)], [])

  const IntermediateModel := Model("IntermediateModel", [Id, Fk("somemodel", "SomeModel"), Fk("anothermodel", "AnotherModel"), Char("attribute", 10, false)], [])

  const GeometryModel := Model("GeometryModel", [Id, Char("name", 10, false), Field("geom2d", GeometryField(2), false), Field("geom3d", GeometryField(3), false)], [])

  const DateTimeModel := Model("DateTimeModel", [Id, Field("datetimenotnull", DateTimeField(false, false, false), false),
    Field("datetimenull", DateTimeField(false, false, true), false)], [])

  const WellDefinedModel := Model("WellDefinedModel",
    [Id, Char("something", 20, false), Field("somenumber", IntegerField, false)],
    [["something", "somenumber"]])

  const ParentModel := Model("ParentModel", [Id, Fk("well_defined", "WellDefinedModel")], [])

  const TwoUnique := Model("TwoUnique", [Id, Char("record", 2, true), Char("anotherfield", 2, true)], [])

  const Tests := Schema(map[
    "TestModelWoFk" := TestModelWoFk,
    "Nombre" := Nombre,
    "SimpleFkModel" := SimpleFkModel,
    "Numero" := Numero,
    "Polish" := Polish,
    "ElNumero" := ElNumero,
    "TestModel" := TestModel,
    "TestOnetoOneModel" := TestOnetoOneModel,
    "HashTestModel" := HashTestModel,
    "AnotherModel" := AnotherModel,
    "SomeModel" := SomeModel,
    "IntermediateModel" := IntermediateModel,
    "GeometryModel" := GeometryModel,
    "DateTimeModel" := DateTimeModel,
    "WellDefinedModel" := WellDefinedModel,
    "ParentModel" := ParentModel,
    "TwoUnique" := TwoUnique])

  /** A model with two unique fields and no `unique_together` has no key of
      its own: a generator without `persistence` raises for every record. */
  lemma TwoUniqueIsAmbiguous()
    ensures UnambiguousFields(TwoUnique) == Failure(AmbiguousUniqueFields("TwoUnique"))
  {
    ReconcileProperties.KeyDerivation(TwoUnique);
    assert ReconcileProperties.KeyCandidate(TwoUnique.fields[1]);
    assert ReconcileProperties.KeyCandidate(TwoUnique.fields[2]);
  }

  /** `unique_together` decides the key, as a list of its first tuple. */
  lemma WellDefinedKey()
    ensures UnambiguousFields(WellDefinedModel) == Success(["something", "somenumber"])
  {
  }

  /** The implicit `id` never counts as a unique key field: a model whose
      only unique field is `id` has the empty key, so every record is
      inserted. */
  lemma WoFkHasEmptyKey()
    ensures UnambiguousFields(TestModelWoFk) == Success([])
  {
    ReconcileProperties.KeyDerivation(TestModelWoFk);
  }

  /** The single unique field besides `id` is the key. */
  lemma TestModelKey()
    ensures UnambiguousFields(TestModel) == Success(["record"])
  {
    ReconcileProperties.KeyOfSingleUniqueField(TestModel, TestModel.fields[1]);
  }

  /** A one-to-one field is unique, so it joins `record` and makes the key
      ambiguous. */
  lemma OneToOneIsAmbiguous()
    ensures UnambiguousFields(TestOnetoOneModel) == Failure(AmbiguousUniqueFields("TestOnetoOneModel"))
  {
    ReconcileProperties.KeyDerivation(TestOnetoOneModel);
    assert ReconcileProperties.KeyCandidate(TestOnetoOneModel.fields[1]);
    assert ReconcileProperties.KeyCandidate(TestOnetoOneModel.fields[4]);
  }

  /** A bare string names a Polish row by its one unique CharField, while
      TestModelWoFk (none) and TwoUnique (two) have no such field to fill,
      so `instance_from_str` gives None for them. */
  lemma StringLookupFields()
    ensures UniqueCharFields(Polish.fields) == [Polish.fields[1]]
    ensures UniqueCharFields(TestModelWoFk.fields) == []
    ensures |UniqueCharFields(TwoUnique.fields)| == 2
  {
    assert UniqueCharFields(Polish.fields[2..]) == [];
    assert UniqueCharFields(Polish.fields[1..]) == [Polish.fields[1]];
    var w := TestModelWoFk.fields;
    assert UniqueCharFields(w[4..]) == [];
    assert UniqueCharFields(w[3..]) == [];
    assert UniqueCharFields(w[2..]) == [];
    assert UniqueCharFields(w[1..]) == [];
    var t := TwoUnique.fields;
    assert UniqueCharFields(t[2..]) == [t[2]];
    assert UniqueCharFields(t[1..]) == [t[1], t[2]];
  }

  /** An auto_now date prepares to None whatever the record holds (the time
      Django's save then stores there comes from a clock, not modelled). */
  lemma AutoNowDateIsCleared(env: Env, v: Value)
    ensures PrepareValue(env, TestModelWoFk.fields[4], v) == Success(VNone)
  {
  }

  /** The test schema satisfies what Django's model checks guarantee, and
      every field kind is one the preparation table treats faithfully. */
  lemma TestsWf()
    ensures Wf(Tests) && SchemaKindsWf(Tests)
  {
    forall name | name in Tests.models
      ensures ModelWf(Tests, name) && KindsWf(Tests.models[name])
    {
      TestsModelWf(name);
    }
  }

  predicate KindsWf(m: Model)
  {
    forall f :: f in m.fields ==> KindWf(f.kind)
  }

  lemma TestsModelWf(name: string)
    requires name in Tests.models
    ensures ModelWf(Tests, name) && KindsWf(Tests.models[name])
  {
    if name in {"TestModelWoFk", "Nombre", "SimpleFkModel", "Numero", "Polish"} { Group1Wf(name); }
    else if name in {"ElNumero", "TestModel", "TestOnetoOneModel", "HashTestModel"} { Group2Wf(name); }
    else if name in {"AnotherModel", "SomeModel", "IntermediateModel", "GeometryModel"} { Group3Wf(name); }
    else if name in {"DateTimeModel", "WellDefinedModel", "ParentModel", "TwoUnique"} { Group4Wf(name); }
  }

  lemma Group1Wf(name: string)
    requires name in {"TestModelWoFk", "Nombre", "SimpleFkModel", "Numero", "Polish"}
    ensures name in Tests.models && ModelWf(Tests, name) && KindsWf(Tests.models[name])
  {
    if name == "TestModelWoFk" { TestModelWoFkWf(); }
    else if name == "Nombre" { NombreWf(); }
    else if name == "SimpleFkModel" { SimpleFkModelWf(); }
    else if name == "Numero" { NumeroWf(); }
    else if name == "Polish" { PolishWf(); }
  }

  lemma Group2Wf(name: string)
    requires name in {"ElNumero", "TestModel", "TestOnetoOneModel", "HashTestModel"}
    ensures name in Tests.models && ModelWf(Tests, name) && KindsWf(Tests.models[name])
  {
    if name == "ElNumero" { ElNumeroWf(); }
    else if name == "TestModel" { TestModelWf(); }
    else if name == "TestOnetoOneModel" { TestOnetoOneModelWf(); }
    else if name == "HashTestModel" { HashTestModelWf(); }
  }

  lemma Group3Wf(name: string)
    requires name in {"AnotherModel", "SomeModel", "IntermediateModel", "GeometryModel"}
    ensures name in Tests.models && ModelWf(Tests, name) && KindsWf(Tests.models[name])
  {
    if name == "AnotherModel" { AnotherModelWf(); }
    else if name == "SomeModel" { SomeModelWf(); }
    else if name == "IntermediateModel" { IntermediateModelWf(); }
    else if name == "GeometryModel" { GeometryModelWf(); }
  }

  lemma Group4Wf(name: string)
    requires name in {"DateTimeModel", "WellDefinedModel", "ParentModel", "TwoUnique"}
    ensures name in Tests.models && ModelWf(Tests, name) && KindsWf(Tests.models[name])
  {
    if name == "DateTimeModel" { DateTimeModelWf(); }
    else if name == "WellDefinedModel" { WellDefinedModelWf(); }
    else if name == "ParentModel" { ParentModelWf(); }
    else if name == "TwoUnique" { TwoUniqueWf(); }
  }

  /** What ModelWf asks of a model that declares no `through` relation,
      with the relation targets collected in `targets`. */
  predicate PlainModel(m: Model, targets: set<string>)
  {
    DistinctNames(m.fields) && forall j :: 0 <= j < |m.fields| ==> PlainField(m.fields[j], targets)
  }

  predicate PlainField(f: Field, targets: set<string>)
  {
    && f.name !in OptionKeys
    && (IsRelation(f.kind) ==> Target(f.kind) in targets)
    && !(f.kind.ManyToManyField? && f.kind.through.Some?)
    && KindWf(f.kind)
  }

  lemma PlainModelWf(s: Schema, name: string, targets: set<string>)
    requires name in s.models && s.models[name].name == name
    requires PlainModel(s.models[name], targets) && targets <= s.models.Keys
    ensures ModelWf(s, name) && KindsWf(s.models[name])
  {
    forall f | f in s.models[name].fields
      ensures PlainField(f, targets)
    {
      var j :| 0 <= j < |s.models[name].fields| && s.models[name].fields[j] == f;
    }
  }

  lemma TestModelWoFkWf()
    ensures "TestModelWoFk" in Tests.models && ModelWf(Tests, "TestModelWoFk") && KindsWf(Tests.models["TestModelWoFk"])
  {
    assert Tests.models["TestModelWoFk"] == TestModelWoFk;
    TestModelWoFkPlain();
    PlainModelWf(Tests, "TestModelWoFk", {});
  }

  lemma TestModelWoFkPlain()
    ensures PlainModel(TestModelWoFk, {})
  {
    TestModelWoFkFields();
  }

  lemma TestModelWoFkFields()
    ensures forall j :: 0 <= j < |TestModelWoFk.fields| ==> PlainField(TestModelWoFk.fields[j], {})
  {
  }

  lemma NombreWf()
    ensures "Nombre" in Tests.models && ModelWf(Tests, "Nombre") && KindsWf(Tests.models["Nombre"])
  {
    assert Tests.models["Nombre"] == Nombre;
    NombrePlain();
    PlainModelWf(Tests, "Nombre", {});
  }

  lemma NombrePlain()
    ensures PlainModel(Nombre, {})
  {
    NombreFields();
  }

  lemma NombreFields()
    ensures forall j :: 0 <= j < |Nombre.fields| ==> PlainField(Nombre.fields[j], {})
  {
  }

  lemma SimpleFkModelWf()
    ensures "SimpleFkModel" in Tests.models && ModelWf(Tests, "SimpleFkModel") && KindsWf(Tests.models["SimpleFkModel"])
  {
    assert Tests.models["SimpleFkModel"] == SimpleFkModel;
    SimpleFkModelPlain();
    PlainModelWf(Tests, "SimpleFkModel", {"Nombre"});
  }

  lemma SimpleFkModelPlain()
    ensures PlainModel(SimpleFkModel, {"Nombre"})
  {
    SimpleFkModelFields();
  }

  lemma SimpleFkModelFields()
    ensures forall j :: 0 <= j < |SimpleFkModel.fields| ==> PlainField(SimpleFkModel.fields[j], {"Nombre"})
  {
  }

  lemma NumeroWf()
    ensures "Numero" in Tests.models && ModelWf(Tests, "Numero") && KindsWf(Tests.models["Numero"])
  {
    assert Tests.models["Numero"] == Numero;
    NumeroPlain();
    PlainModelWf(Tests, "Numero", {});
  }

  lemma NumeroPlain()
    ensures PlainModel(Numero, {})
  {
    NumeroFields();
  }

  lemma NumeroFields()
    ensures forall j :: 0 <= j < |Numero.fields| ==> PlainField(Numero.fields[j], {})
  {
  }

  lemma PolishWf()
    ensures "Polish" in Tests.models && ModelWf(Tests, "Polish") && KindsWf(Tests.models["Polish"])
  {
    assert Tests.models["Polish"] == Polish;
    PolishPlain();
    PlainModelWf(Tests, "Polish", {});
  }

  lemma PolishPlain()
    ensures PlainModel(Polish, {})
  {
    PolishFields();
  }

  lemma PolishFields()
    ensures forall j :: 0 <= j < |Polish.fields| ==> PlainField(Polish.fields[j], {})
  {
  }

  lemma ElNumeroWf()
    ensures "ElNumero" in Tests.models && ModelWf(Tests, "ElNumero") && KindsWf(Tests.models["ElNumero"])
  {
    assert Tests.models["ElNumero"] == ElNumero;
    ElNumeroPlain();
    PlainModelWf(Tests, "ElNumero", {});
  }

  lemma ElNumeroPlain()
    ensures PlainModel(ElNumero, {})
  {
    ElNumeroFields();
  }

  lemma ElNumeroFields()
    ensures forall j :: 0 <= j < |ElNumero.fields| ==> PlainField(ElNumero.fields[j], {})
  {
  }

  lemma TestModelWf()
    ensures "TestModel" in Tests.models && ModelWf(Tests, "TestModel") && KindsWf(Tests.models["TestModel"])
  {
    assert Tests.models["TestModel"] == TestModel;
    TestModelPlain();
    PlainModelWf(Tests, "TestModel", {"Nombre", "Numero", "ElNumero", "Polish"});
  }

  lemma TestModelPlain()
    ensures PlainModel(TestModel, {"Nombre", "Numero", "ElNumero", "Polish"})
  {
    TestModelFields();
  }

  lemma TestModelFields()
    ensures forall j :: 0 <= j < |TestModel.fields| ==> PlainField(TestModel.fields[j], {"Nombre", "Numero", "ElNumero", "Polish"})
  {
  }

  lemma TestOnetoOneModelWf()
    ensures "TestOnetoOneModel" in Tests.models && ModelWf(Tests, "TestOnetoOneModel") && KindsWf(Tests.models["TestOnetoOneModel"])
  {
    assert Tests.models["TestOnetoOneModel"] == TestOnetoOneModel;
    TestOnetoOneModelPlain();
    PlainModelWf(Tests, "TestOnetoOneModel", {"Nombre", "Numero", "ElNumero", "Polish"});
  }

  lemma TestOnetoOneModelPlain()
    ensures PlainModel(TestOnetoOneModel, {"Nombre", "Numero", "ElNumero", "Polish"})
  {
    TestOnetoOneModelFields();
  }

  lemma TestOnetoOneModelFields()
    ensures forall j :: 0 <= j < |TestOnetoOneModel.fields| ==> PlainField(TestOnetoOneModel.fields[j], {"Nombre", "Numero", "ElNumero", "Polish"})
  {
  }

  lemma HashTestModelWf()
    ensures "HashTestModel" in Tests.models && ModelWf(Tests, "HashTestModel") && KindsWf(Tests.models["HashTestModel"])
  {
    assert Tests.models["HashTestModel"] == HashTestModel;
    HashTestModelPlain();
    PlainModelWf(Tests, "HashTestModel", {"Numero", "Polish"});
  }

  lemma HashTestModelPlain()
    ensures PlainModel(HashTestModel, {"Numero", "Polish"})
  {
    HashTestModelFields();
  }

  lemma HashTestModelFields()
    ensures forall j :: 0 <= j < |HashTestModel.fields| ==> PlainField(HashTestModel.fields[j], {"Numero", "Polish"})
  {
  }

  lemma AnotherModelWf()
    ensures "AnotherModel" in Tests.models && ModelWf(Tests, "AnotherModel") && KindsWf(Tests.models["AnotherModel"])
  {
    assert Tests.models["AnotherModel"] == AnotherModel;
    AnotherModelPlain();
    PlainModelWf(Tests, "AnotherModel", {});
  }

  lemma AnotherModelPlain()
    ensures PlainModel(AnotherModel, {})
  {
    AnotherModelFields();
  }

  lemma AnotherModelFields()
    ensures forall j :: 0 <= j < |AnotherModel.fields| ==> PlainField(AnotherModel.fields[j], {})
  {
  }

  lemma IntermediateModelWf()
    ensures "IntermediateModel" in Tests.models && ModelWf(Tests, "IntermediateModel") && KindsWf(Tests.models["IntermediateModel"])
  {
    assert Tests.models["IntermediateModel"] == IntermediateModel;
    IntermediateModelPlain();
    PlainModelWf(Tests, "IntermediateModel", {"SomeModel", "AnotherModel"});
  }

  lemma IntermediateModelPlain()
    ensures PlainModel(IntermediateModel, {"SomeModel", "AnotherModel"})
  {
    IntermediateModelFields();
  }

  lemma IntermediateModelFields()
    ensures forall j :: 0 <= j < |IntermediateModel.fields| ==> PlainField(IntermediateModel.fields[j], {"SomeModel", "AnotherModel"})
  {
  }

  lemma GeometryModelWf()
    ensures "GeometryModel" in Tests.models && ModelWf(Tests, "GeometryModel") && KindsWf(Tests.models["GeometryModel"])
  {
    assert Tests.models["GeometryModel"] == GeometryModel;
    GeometryModelPlain();
    PlainModelWf(Tests, "GeometryModel", {});
  }

  lemma GeometryModelPlain()
    ensures PlainModel(GeometryModel, {})
  {
    GeometryModelFields();
  }

  lemma GeometryModelFields()
    ensures forall j :: 0 <= j < |GeometryModel.fields| ==> PlainField(GeometryModel.fields[j], {})
  {
  }

  lemma DateTimeModelWf()
    ensures "DateTimeModel" in Tests.models && ModelWf(Tests, "DateTimeModel") && KindsWf(Tests.models["DateTimeModel"])
  {
    assert Tests.models["DateTimeModel"] == DateTimeModel;
    DateTimeModelPlain();
    PlainModelWf(Tests, "DateTimeModel", {});
  }

  lemma DateTimeModelPlain()
    ensures PlainModel(DateTimeModel, {})
  {
    DateTimeModelFields();
  }

  lemma DateTimeModelFields()
    ensures forall j :: 0 <= j < |DateTimeModel.fields| ==> PlainField(DateTimeModel.fields[j], {})
  {
  }

  lemma WellDefinedModelWf()
    ensures "WellDefinedModel" in Tests.models && ModelWf(Tests, "WellDefinedModel") && KindsWf(Tests.models["WellDefinedModel"])
  {
    assert Tests.models["WellDefinedModel"] == WellDefinedModel;
    WellDefinedModelPlain();
    PlainModelWf(Tests, "WellDefinedModel", {});
  }

  lemma WellDefinedModelPlain()
    ensures PlainModel(WellDefinedModel, {})
  {
    WellDefinedModelFields();
  }

  lemma WellDefinedModelFields()
    ensures forall j :: 0 <= j < |WellDefinedModel.fields| ==> PlainField(WellDefinedModel.fields[j], {})
  {
  }

  lemma ParentModelWf()
    ensures "ParentModel" in Tests.models && ModelWf(Tests, "ParentModel") && KindsWf(Tests.models["ParentModel"])
  {
    assert Tests.models["ParentModel"] == ParentModel;
    ParentModelPlain();
    PlainModelWf(Tests, "ParentModel", {"WellDefinedModel"});
  }

  lemma ParentModelPlain()
    ensures PlainModel(ParentModel, {"WellDefinedModel"})
  {
    ParentModelFields();
  }

  lemma ParentModelFields()
    ensures forall j :: 0 <= j < |ParentModel.fields| ==> PlainField(ParentModel.fields[j], {"WellDefinedModel"})
  {
  }

  lemma TwoUniqueWf()
    ensures "TwoUnique" in Tests.models && ModelWf(Tests, "TwoUnique") && KindsWf(Tests.models["TwoUnique"])
  {
    assert Tests.models["TwoUnique"] == TwoUnique;
    TwoUniquePlain();
    PlainModelWf(Tests, "TwoUnique", {});
  }

  lemma TwoUniquePlain()
    ensures PlainModel(TwoUnique, {})
  {
    TwoUniqueFields();
  }

  lemma TwoUniqueFields()
    ensures forall j :: 0 <= j < |TwoUnique.fields| ==> PlainField(TwoUnique.fields[j], {})
  {
  }

  lemma SomeModelWf()
    ensures "SomeModel" in Tests.models && ModelWf(Tests, "SomeModel") && KindsWf(Tests.models["SomeModel"])
  {
    assert Tests.models["SomeModel"] == SomeModel;
    assert Tests.models["IntermediateModel"] == IntermediateModel;
    assert "AnotherModel" in Tests.models;
    SomeModelWfIn(Tests);
  }

  lemma SomeModelWfIn(s: Schema)
    requires "SomeModel" in s.models && s.models["SomeModel"] == SomeModel
    requires "IntermediateModel" in s.models && s.models["IntermediateModel"] == IntermediateModel
    requires "AnotherModel" in s.models
    ensures ModelWf(s, "SomeModel") && KindsWf(s.models["SomeModel"])
  {
    JunctionEnds();
    assert IsForeignKeyTo(s, "IntermediateModel", "somemodel", "SomeModel");
    assert IsForeignKeyTo(s, "IntermediateModel", "anothermodel", "AnotherModel");
    SomeModelPlain();
    forall f | f in SomeModel.fields
      ensures f.name !in OptionKeys && KindWf(f.kind)
      ensures IsRelation(f.kind) ==> Target(f.kind) in s.models
      ensures f.kind.ManyToManyField? && f.kind.through.Some? ==> f == SomeModel.fields[3]
    {
      var j :| 0 <= j < |SomeModel.fields| && SomeModel.fields[j] == f;
    }
  }

  lemma SomeModelPlain()
    ensures DistinctNames(SomeModel.fields)
    ensures forall j :: 0 <= j < 3 ==> PlainField(SomeModel.fields[j], {})
  {
  }

  lemma JunctionEnds()
    ensures FieldNamed(IntermediateModel.fields, "somemodel") == Some(IntermediateModel.fields[1])
    ensures FieldNamed(IntermediateModel.fields, "anothermodel") == Some(IntermediateModel.fields[2])
  {
    var fs := IntermediateModel.fields;
    assert FieldNamed(fs[1..], "somemodel") == Some(fs[1]);
    assert FieldNamed(fs[2..], "anothermodel") == Some(fs[2]);
    assert FieldNamed(fs[1..], "anothermodel") == Some(fs[2]);
  }

  /** Neither end of the junction is unique, so IntermediateModel has the
      empty derived key and its generator needs the record's own key. */
  lemma IntermediateHasEmptyKey()
    ensures UnambiguousFields(IntermediateModel) == Success([])
  {
    var fs := IntermediateModel.fields;
    assert forall j :: 0 <= j < |fs| ==> !ReconcileProperties.KeyCandidate(fs[j]);
    ReconcileProperties.KeyDerivation(IntermediateModel);
  }

  /** Linking a SomeModel row `a` to an AnotherModel row `b` twice writes
      one IntermediateModel row: the prepared junction record holds both
      instances and is keyed on them, so the second link finds the first. */
  lemma LnamesJunctionReused(db: Db, res: Option<Res>, a: Instance, b: Instance)
    requires WellKeyed(db)
    requires Evaluate(db, "IntermediateModel", Where([("somemodel", VInstance(a)), ("anothermodel", VInstance(b))])) == []
    ensures var e := map["somemodel" := VInstance(a), "anothermodel" := VInstance(b),
                         "etl_persistence" := VList([VStr("somemodel"), VStr("anothermodel")])];
      var first := Reconciled(db, IntermediateModel, SettingsFrom(map[]), res, e);
      var second := Reconciled(first.db, IntermediateModel, SettingsFrom(map[]), first.res, e);
      && first.res == Some(Created)
      && second == Reconciliation(first.db, first.result, Some(Updated))
  {
    var e := map["somemodel" := VInstance(a), "anothermodel" := VInstance(b),
                 "etl_persistence" := VList([VStr("somemodel"), VStr("anothermodel")])];
    IntermediateHasEmptyKey();
    var names := FieldNames(IntermediateModel.fields);
    assert names[1] == "somemodel" && names[2] == "anothermodel";
    ReconcileProperties.JunctionReused(db, IntermediateModel, res, e, "somemodel", "anothermodel");
  }
}
