/** Python runtime values as the reconciliation engine sees them, the
    exceptions it raises, and the two conversions it borrows from Python:
    truthiness and `unicode(value)` (Python 2, as the package declares). */
module Values {

  datatype Option<+T> = None | Some(value: T)

  /** A model instance: a row of `model` identified by its primary key. */
  datatype Instance = Instance(model: string, pk: nat)

  /** A loosely typed value held by a record (a CSV cell, a nested record,
      a list of related records, or an already resolved instance). Python
      floats are represented by reals; IEEE rounding is not modelled. */
  datatype Value =
    | VNone
    | VBool(b: bool)
    | VInt(i: int)
    | VFloat(x: real)
    | VStr(s: string)
    | VList(items: seq<Value>)
    | VDict(entries: map<string, Value>)
    | VInstance(inst: Instance)

  /** The exceptions the engine lets escape. */
  datatype Error =
    | AmbiguousUniqueFields(model: string)   // ValidationError from get_unambiguous_fields
    | DoubleEntry(persistence: Value)         // ValidationError from instance_from_dic
    | NoPreparation(internalType: string)     // KeyError from the preparations table
    | DoesNotExist(model: string, pk: int)    // Model.DoesNotExist from objects.get
    | InvalidValue(field: string)             // ValidationError from a form field's clean
    | AttributeError(attribute: string)
    | TypeError
    | IntegrityError                          // a NULL target added to a relation

  datatype Result<+T> = Success(value: T) | Failure(error: Error) {
    predicate IsFailure() { Failure? }
    function PropagateFailure<U>(): Result<U>
      requires Failure?
    {
      Failure(error)
    }
    function Extract(): T
      requires Success?
    {
      value
    }
  }

  /** Python's truth value of a value. An instance is always true. */
  predicate Truthy(v: Value)
  {
    match v
    case VNone => false
    case VBool(b) => b
    case VInt(i) => i != 0
    case VFloat(x) => x != 0.0
    case VStr(s) => s != ""
    case VList(xs) => xs != []
    case VDict(m) => m != map[]
    case VInstance(_) => true
  }

  /** Python's `==`, which makes `True == 1` and `1.0 == 1`. */
  predicate PyEquals(a: Value, b: Value)
  {
    match (a, b)
    case (VBool(x), VBool(y)) => x == y
    case (VBool(x), VInt(j)) => (if x then 1 else 0) == j
    case (VInt(i), VBool(y)) => i == (if y then 1 else 0)
    case (VBool(x), VFloat(r)) => (if x then 1.0 else 0.0) == r
    case (VFloat(r), VBool(y)) => r == (if y then 1.0 else 0.0)
    case (VInt(i), VFloat(r)) => i as real == r
    case (VFloat(r), VInt(j)) => r == j as real
    case _ => a == b
  }

  /** Python's `value in candidates`. */
  predicate PyIn(v: Value, candidates: seq<Value>)
  {
    exists j :: 0 <= j < |candidates| && PyEquals(v, candidates[j])
  }

  function DigitChar(d: nat): char
    requires d < 10
  {
    "0123456789"[d]
  }

  /** Decimal notation of a natural number, without leading zeros. */
  function NatToString(n: nat): (s: string)
    ensures |s| >= 1
    ensures forall k :: 0 <= k < |s| ==> '0' <= s[k] <= '9'
    ensures n >= 10 ==> s[0] != '0'
    decreases n
  {
    if n < 10 then [DigitChar(n)] else NatToString(n / 10) + [DigitChar(n % 10)]
  }

  /** Python's `unicode(i)` for an integer. */
  function IntToString(i: int): (s: string)
    ensures |s| >= 1
    ensures i < 0 <==> s[0] == '-'
  {
    if i < 0 then "-" + NatToString(-i) else NatToString(i)
  }

  /** Python 2's `unicode(value)`. Strings are kept, `None`, booleans and
      integers are spelt as Python spells them; a Django instance prints as
      Django's default `__unicode__` does, "<Model> object". Floats, lists and
      dicts get a placeholder spelling. */
  function ToText(v: Value): string
  {
    match v
    case VNone => "None"
    case VBool(b) => if b then "True" else "False"
    case VInt(i) => IntToString(i)
    case VFloat(_) => "<float>"
    case VStr(s) => s
    case VList(_) => "<list>"
    case VDict(_) => "<dict>"
    case VInstance(inst) => inst.model + " object"
  }

  /** How deeply a value nests records and lists; a string counts one level
      because it may stand for a one-field record (instance_from_str). */
  ghost function Rank(v: Value): nat
    decreases v, 1
  {
    match v
    case VDict(m) => 1 + MaxRankOver(v, m.Keys)
    case VList(xs) => 1 + MaxRankSeq(xs)
    case VStr(_) => 1
    case _ => 0
  }

  ghost function MaxRankSeq(xs: seq<Value>): nat
    decreases xs
  {
    if xs == [] then 0
    else
      var a := Rank(xs[0]);
      var b := MaxRankSeq(xs[1..]);
      if a > b then a else b
  }

  /** The largest rank among the entries of dict `d` whose keys are in `ks`. */
  ghost function MaxRankOver(d: Value, ks: set<string>): nat
    requires d.VDict? && ks <= d.entries.Keys
    decreases d, 0, ks
  {
    if ks == {} then 0
    else
      var k :| k in ks;
      var a := Rank(d.entries[k]);
      var b := MaxRankOver(d, ks - {k});
      if a > b then a else b
  }

  lemma {:induction false} MaxRankSeqBound(xs: seq<Value>, j: nat)
    requires j < |xs|
    ensures Rank(xs[j]) <= MaxRankSeq(xs)
    decreases xs
  {
    if j > 0 {
      MaxRankSeqBound(xs[1..], j - 1);
    }
  }

  lemma {:induction false} MaxRankOverBound(d: Value, ks: set<string>, k: string)
    requires d.VDict? && ks <= d.entries.Keys && k in ks
    ensures Rank(d.entries[k]) <= MaxRankOver(d, ks)
    decreases ks
  {
    var k' :| k' in ks && MaxRankOver(d, ks) == (
      var a := Rank(d.entries[k']);
      var b := MaxRankOver(d, ks - {k'});
      if a > b then a else b);
    if k != k' {
      MaxRankOverBound(d, ks - {k'}, k);
    }
  }

  lemma {:induction false} MaxRankOverAtMost(d: Value, ks: set<string>, bound: nat)
    requires d.VDict? && ks <= d.entries.Keys
    requires forall k :: k in ks ==> Rank(d.entries[k]) <= bound
    ensures MaxRankOver(d, ks) <= bound
    decreases ks
  {
    if ks != {} {
      var k' :| k' in ks && MaxRankOver(d, ks) == (
        var a := Rank(d.entries[k']);
        var b := MaxRankOver(d, ks - {k'});
        if a > b then a else b);
      MaxRankOverAtMost(d, ks - {k'}, bound);
    }
  }
}
