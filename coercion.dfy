/** The per-type preparation table of InstanceGenerator and the value
    preparations that do not resolve relations: text truncation, boolean
    tokens, lenient integer and float parsing, date cleaning, geometry. */
module Coercion {
  import opened Values
  import opened Schema

  /** The preparation methods named in the table. */
  datatype Handler = Fk | M2M | Date | Geometry | Text | Boolean | Integer | Float

  /** `InstanceGenerator.preparations`, keyed by internal field type. */
  const Preparations: map<string, Handler> := map[
    "ForeignKey" := Fk,
    "OneToOneField" := Fk,
    "ManyToManyField" := M2M,
    "DateTimeField" := Date,
    "GeometryField" := Geometry,
    "CharField" := Text,
    "TextField" := Text,
    "BooleanField" := Boolean,
    "IntegerField" := Integer,
    "BigIntegerField" := Integer,
    "FloatField" := Float]

  /** Parsers the engine borrows from libraries: Django's DateTimeField
      parser, Python's float() on a string, and GEOS' reduction of a
      geometry to the field's dimension. */
  datatype Env = Env(
    parseDate: Value -> Option<Value>,
    parseFloat: string -> Option<real>,
    reduceGeometry: (Value, nat) -> Value)

  /** A field kind whose internal type is not a table key must not pose as
      one (an OtherField is any type the table does not know). */
  predicate KindWf(k: FieldKind)
  {
    k.OtherField? ==> k.internalType !in Preparations
  }

  ghost predicate SchemaKindsWf(s: Schema)
  {
    forall name, f :: name in s.models && f in s.models[name].fields ==> KindWf(f.kind)
  }

  /** The table sends exactly the relation fields to prepare_fk/prepare_m2m,
      and only ManyToManyField to prepare_m2m. */
  lemma HandlerOfRelation(k: FieldKind)
    requires KindWf(k) && InternalType(k) in Preparations
    ensures Preparations[InternalType(k)] in {Fk, M2M} <==> IsRelation(k)
    ensures Preparations[InternalType(k)] == M2M <==> k.ManyToManyField?
    ensures Preparations[InternalType(k)] == Fk <==> k.ForeignKey? || k.OneToOneField?
  {
  }

  /** An `id` primary key, or any type the table lacks, makes prepare raise. */
  lemma NoHandlerForAutoField()
    ensures InternalType(AutoField) !in Preparations
  {
  }

  function Min(a: nat, b: nat): nat
  {
    if a < b then a else b
  }

  /** `prepare_text`: the stringified value cut to `max_length` characters. */
  function PrepareText(maxLength: Option<nat>, v: Value): (r: string)
    ensures r <= ToText(v)
    ensures maxLength.Some? ==> |r| == Min(maxLength.value, |ToText(v)|)
    ensures maxLength.None? ==> r == ToText(v)
  {
    var t := ToText(v);
    match maxLength
    case None => t
    case Some(n) => if n < |t| then t[..n] else t
  }

  /** The tokens `prepare_boolean` accepts as true: [1, '1', 'True', 'true', 't']. */
  const BooleanTokens: seq<Value> := [VInt(1), VStr("1"), VStr("True"), VStr("true"), VStr("t")]

  /** `prepare_boolean`. */
  function PrepareBoolean(v: Value): bool
  {
    if Truthy(v) then PyIn(v, BooleanTokens) else false
  }

  /** The values `prepare_boolean` maps to True: the four strings, and
      whatever Python finds equal to 1 (1, True and 1.0). */
  lemma PrepareBooleanTrueExactly(v: Value)
    ensures PrepareBoolean(v) <==>
      v in {VStr("1"), VStr("True"), VStr("true"), VStr("t"), VInt(1), VBool(true), VFloat(1.0)}
  {
    if v in {VStr("1"), VStr("True"), VStr("true"), VStr("t"), VInt(1), VBool(true), VFloat(1.0)} {
      var j := match v
        case VStr(s) => if s == "1" then 1 else if s == "True" then 2 else if s == "true" then 3 else 4
        case _ => 0;
      assert PyEquals(v, BooleanTokens[j]);
    }
  }

  /** Python's whitespace among ASCII characters (what int() strips). */
  predicate IsSpace(c: char)
  {
    c in {' ', '\t', '\n', '\r', '\U{B}', '\U{C}', '\U{1C}', '\U{1D}', '\U{1E}', '\U{1F}'}
  }

  predicate IsDigit(c: char)
  {
    '0' <= c <= '9'
  }

  function StripLeft(s: string): (r: string)
    ensures |r| <= |s| && r == s[|s| - |r|..]
    ensures r != [] ==> !IsSpace(r[0])
  {
    if s != [] && IsSpace(s[0]) then StripLeft(s[1..]) else s
  }

  function StripRight(s: string): (r: string)
    ensures |r| <= |s| && r == s[..|r|]
    ensures r != [] ==> !IsSpace(r[|r| - 1])
  {
    if s != [] && IsSpace(s[|s| - 1]) then StripRight(s[..|s| - 1]) else s
  }

  function Strip(s: string): string
  {
    StripRight(StripLeft(s))
  }

  predicate AllDigits(ds: string)
  {
    forall k :: 0 <= k < |ds| ==> IsDigit(ds[k])
  }

  /** The number a string of decimal digits spells. */
  function DigitsValue(ds: string): nat
    requires AllDigits(ds)
  {
    if ds == [] then 0
    else DigitsValue(ds[..|ds| - 1]) * 10 + (ds[|ds| - 1] as int - '0' as int)
  }

  /** Python 2's `int(s)` on a string: surrounding whitespace, an optional
      sign, whitespace again after the sign, then one or more decimal digits;
      anything else is a ValueError (None). */
  function ParseInt(s: string): Option<int>
  {
    ParseSignedDigits(Strip(s))
  }

  function ParseSignedDigits(t: string): Option<int>
  {
    if t == [] then None
    else
      var signed := t[0] == '-' || t[0] == '+';
      var ds := if signed then StripLeft(t[1..]) else t;
      if ds == [] || !AllDigits(ds) then None
      else
        var n: int := DigitsValue(ds);
        Some(if t[0] == '-' then -n else n)
  }

  /** Python's `int(x)` on a float truncates toward zero. */
  function Truncate(x: real): (r: int)
    ensures x >= 0.0 ==> 0 <= r && r as real <= x < r as real + 1.0
    ensures x < 0.0 ==> r <= 0 && x <= r as real < x + 1.0
  {
    if x >= 0.0 then x.Floor else -((-x).Floor)
  }

  /** `prepare_integer`: `int(value)`, or None where int() raises ValueError
      or TypeError. */
  function PrepareInteger(v: Value): (r: Value)
    ensures r.VInt? || r == VNone
    ensures v.VInt? ==> r == v
    ensures v.VBool? ==> r == VInt(if v.b then 1 else 0)
    ensures v.VFloat? ==> r == VInt(Truncate(v.x))
    ensures v.VStr? ==> forall n :: r == VInt(n) <==> ParseInt(v.s) == Some(n)
    ensures v.VNone? || v.VList? || v.VDict? || v.VInstance? ==> r == VNone
  {
    match v
    case VInt(i) => VInt(i)
    case VBool(b) => VInt(if b then 1 else 0)
    case VFloat(x) => VInt(Truncate(x))
    case VStr(s) => (match ParseInt(s) case Some(n) => VInt(n) case None => VNone)
    case _ => VNone
  }

  /** `prepare_float`: `float(value)`, or None where float() raises. */
  function PrepareFloat(env: Env, v: Value): (r: Value)
    ensures r.VFloat? || r == VNone
  {
    match v
    case VFloat(x) => VFloat(x)
    case VInt(i) => VFloat(i as real)
    case VBool(b) => VFloat(if b then 1.0 else 0.0)
    case VStr(s) => (match env.parseFloat(s) case Some(x) => VFloat(x) case None => VNone)
    case _ => VNone
  }

  /** Django's EMPTY_VALUES: None, '', [], (), {}. */
  predicate IsEmptyValue(v: Value)
  {
    v == VNone || v == VStr("") || v == VList([]) || v == VDict(map[])
  }

  /** `DateTimeField(required=...).clean(value)`. */
  function CleanDate(env: Env, field: string, required: bool, v: Value): (r: Result<Value>)
    ensures IsEmptyValue(v) && required ==> r == Failure(InvalidValue(field))
    ensures IsEmptyValue(v) && !required ==> r == Success(VNone)
  {
    if IsEmptyValue(v) then
      if required then Failure(InvalidValue(field)) else Success(VNone)
    else
      match env.parseDate(v)
      case Some(d) => Success(d)
      case None => Failure(InvalidValue(field))
  }

  /** `prepare_date`: an auto_now / auto_now_add field yields None, whatever
      the record held; any other field is cleaned, required unless nullable. */
  function PrepareDate(env: Env, field: string, autoNow: bool, autoNowAdd: bool, nullable: bool, v: Value): (r: Result<Value>)
    ensures autoNow || autoNowAdd ==> r == Success(VNone)
  {
    if autoNow || autoNowAdd then Success(VNone) else CleanDate(env, field, !nullable, v)
  }

  /** The value a non-relation field's preparation writes back into the
      record, chosen by the field's entry in the table. */
  function PrepareValue(env: Env, f: Field, v: Value): (r: Result<Value>)
    requires KindWf(f.kind) && InternalType(f.kind) in Preparations && !IsRelation(f.kind)
  {
    match f.kind
    case CharField(ml) => Success(VStr(PrepareText(ml, v)))
    case TextField(ml) => Success(VStr(PrepareText(ml, v)))
    case BooleanField => Success(VBool(PrepareBoolean(v)))
    case IntegerField => Success(PrepareInteger(v))
    case BigIntegerField => Success(PrepareInteger(v))
    case FloatField => Success(PrepareFloat(env, v))
    case DateTimeField(autoNow, autoNowAdd, nullable) => PrepareDate(env, f.name, autoNow, autoNowAdd, nullable, v)
    case GeometryField(dim) => Success(env.reduceGeometry(v, dim))
    case AutoField => assert false; Failure(NoPreparation("AutoField"))
    case OtherField(t) => assert false; Failure(NoPreparation(t))
  }

  lemma DigitCharValue(d: nat)
    requires d < 10
    ensures IsDigit(DigitChar(d)) && DigitChar(d) as int - '0' as int == d
  {
  }

  lemma {:induction false} DigitsValueOfNat(n: nat)
    ensures AllDigits(NatToString(n)) && DigitsValue(NatToString(n)) == n
    decreases n
  {
    var s := NatToString(n);
    if n < 10 {
      DigitCharValue(n);
      assert s == [DigitChar(n)];
      assert s[..|s| - 1] == [];
    } else {
      var prefix := NatToString(n / 10);
      DigitsValueOfNat(n / 10);
      DigitCharValue(n % 10);
      assert s == prefix + [DigitChar(n % 10)];
      assert s[..|s| - 1] == prefix;
      assert DigitsValue(s) == DigitsValue(prefix) * 10 + (n % 10);
    }
  }

  /** `prepare_integer` reads back every integer written in decimal: the
      parse inverts Python's spelling of an integer. */
  lemma ParseIntRoundTrip(i: int)
    ensures ParseInt(IntToString(i)) == Some(i)
    ensures PrepareInteger(VStr(IntToString(i))) == VInt(i)
  {
    var s := IntToString(i);
    var n: nat := if i < 0 then -i else i;
    var digits := NatToString(n);
    DigitsValueOfNat(n);
    if i < 0 {
      assert s == "-" + digits;
      ParseSigned(digits);
    } else {
      assert s == digits;
      ParseUnsigned(digits);
    }
    assert ParseInt(s) == Some(i);
    PrepareIntegerParsed(s, i);
  }

  lemma PrepareIntegerParsed(s: string, i: int)
    requires ParseInt(s) == Some(i)
    ensures PrepareInteger(VStr(s)) == VInt(i)
  {
  }

  lemma ParseUnsigned(ds: string)
    requires ds != [] && AllDigits(ds)
    ensures ParseInt(ds) == Some(DigitsValue(ds))
  {
    assert IsDigit(ds[0]) && IsDigit(ds[|ds| - 1]);
    StripUnpadded(ds);
  }

  lemma ParseSigned(ds: string)
    requires ds != [] && AllDigits(ds)
    ensures ParseInt("-" + ds) == Some(0 - DigitsValue(ds) as int)
  {
    var s := "-" + ds;
    assert s[0] == '-' && s[1..] == ds;
    assert s[|s| - 1] == ds[|ds| - 1];
    assert IsDigit(ds[|ds| - 1]);
    StripUnpadded(s);
    SignedDigits(s, ds);
  }

  lemma SignedDigits(t: string, ds: string)
    requires t != [] && t[0] == '-' && t[1..] == ds && ds != [] && AllDigits(ds)
    ensures ParseSignedDigits(t) == Some(0 - DigitsValue(ds) as int)
  {
    assert IsDigit(ds[0]);
    assert StripLeft(t[1..]) == ds;
  }

  /** Python 2 skips whitespace between the sign and the digits, so a cell
      such as "- 5" prepares to -5. */
  lemma SpaceAfterSign()
    ensures ParseInt("- 5") == Some(-5)
    ensures PrepareInteger(VStr("- 5")) == VInt(-5)
  {
    var t := "- 5";
    assert !IsSpace(t[0]);
    assert StripLeft(t) == t;
    assert !IsSpace(t[2]);
    assert StripRight(t) == t;
    assert Strip(t) == t;
    assert StripLeft(t[1..]) == "5" by {
      assert t[1..] == " 5";
      assert StripLeft(" 5") == "5";
    }
    assert AllDigits("5");
    assert DigitsValue("5") == 5 by {
      assert "5"[..0] == [];
    }
    PrepareIntegerParsed(t, -5);
  }

  lemma StripUnpadded(s: string)
    requires s != [] && !IsSpace(s[0]) && !IsSpace(s[|s| - 1])
    ensures Strip(s) == s
  {
    assert StripLeft(s) == s;
  }

  /** A cell without a single digit never becomes an integer: prepare_integer
      yields None and the record goes on with that field set to None. */
  lemma PrepareIntegerWithoutDigits(s: string)
    requires forall k :: 0 <= k < |s| ==> !IsDigit(s[k])
    ensures PrepareInteger(VStr(s)) == VNone
  {
    var l := StripLeft(s);
    var t := StripRight(l);
    if t != [] {
      var signed := t[0] == '-' || t[0] == '+';
      var ds := if signed then StripLeft(t[1..]) else t;
      if ds != [] {
        var k := if signed then 1 + (|t| - 1 - |ds|) else 0;
        assert ds[0] == t[k] == l[k] == s[|s| - |l| + k];
        assert !AllDigits(ds);
      }
    }
    assert ParseInt(s) == None;
    PrepareIntegerUnparsed(s);
  }

  lemma PrepareIntegerUnparsed(s: string)
    requires ParseInt(s) == None
    ensures PrepareInteger(VStr(s)) == VNone
  {
  }
}
