/** The record clean-up of `etl_sync/mappers.py`: blank strings become None,
    the `Mapper` options are read from keyword arguments, and `transform`
    merges a record over the default values. */
module Mappers {
  import opened Values
  import Generators

  /** `s.replace(' ', '')`: the string without its space characters. */
  function WithoutSpaces(s: string): (r: string)
    ensures ' ' !in r
    ensures |r| <= |s|
  {
    if s == [] then [] else (if s[0] == ' ' then [] else [s[0]]) + WithoutSpaces(s[1..])
  }

  /** A string made of spaces only, the empty string included. */
  predicate Blank(s: string)
  {
    forall j :: 0 <= j < |s| ==> s[j] == ' '
  }

  /** Removing the spaces leaves nothing exactly when there was nothing but
      spaces: a tab, a newline or any other character survives. */
  lemma {:induction false} WithoutSpacesEmpty(s: string)
    ensures WithoutSpaces(s) == [] <==> Blank(s)
  {
    if s != [] {
      WithoutSpacesEmpty(s[1..]);
      if s[0] == ' ' {
        assert Blank(s) <==> Blank(s[1..]) by {
          if Blank(s[1..]) {
            forall j | 0 <= j < |s|
              ensures s[j] == ' '
            {
              if j > 0 { assert s[j] == s[1..][j - 1]; }
            }
          }
        }
      } else {
        assert !Blank(s) by { assert s[0] != ' '; }
      }
    }
  }

  /** What line 16 leaves under a key: None for a blank string, the value
      itself otherwise; a value without `replace` raises AttributeError,
      which is swallowed. */
  function Cleaned(v: Value): Value
  {
    if v.VStr? && WithoutSpaces(v.s) == [] then VNone else v
  }

  function CleanedEntries(d: map<string, Value>): map<string, Value>
  {
    map k | k in d :: Cleaned(d[k])
  }

  /** `replace_empty_string_with_none`: every value of the dict, rewritten
      in place; the same dict is returned. */
  method ReplaceEmptyStringWithNone(dic: Generators.Record) returns (r: Generators.Record)
    modifies dic
    ensures r == dic
    ensures dic.entries == CleanedEntries(old(dic.entries))
  {
    ghost var original := dic.entries;
    var todo := dic.entries.Keys;
    while todo != {}
      invariant todo <= original.Keys && dic.entries.Keys == original.Keys
      invariant forall k :: k in original ==> dic.entries[k] == if k in todo then original[k] else Cleaned(original[k])
      decreases |todo|
    {
      var k :| k in todo;
      var v := dic.entries[k];
      if v.VStr? {
        dic.entries := dic.entries[k := if WithoutSpaces(v.s) == [] then VNone else v];
      }
      todo := todo - {k};
    }
    assert dic.entries == CleanedEntries(original);
    return dic;
  }

  /** Blank strings, and only they, become None; every other value is left
      as it is, and cleaning twice changes nothing more. */
  lemma CleanedMeaning(v: Value)
    ensures Cleaned(v) == (if v.VStr? && Blank(v.s) then VNone else v)
    ensures Cleaned(v) != v <==> v.VStr? && Blank(v.s)
    ensures Cleaned(Cleaned(v)) == Cleaned(v)
  {
    if v.VStr? {
      WithoutSpacesEmpty(v.s);
    }
  }

  /** The rewritten dict has the same keys; a key holds None afterwards
      exactly when it held None or a blank string before, and applying the
      helper again is the identity. */
  lemma CleanedEntriesMeaning(d: map<string, Value>)
    ensures CleanedEntries(d).Keys == d.Keys
    ensures forall k :: k in d ==> (CleanedEntries(d)[k] == VNone <==> d[k] == VNone || (d[k].VStr? && Blank(d[k].s)))
    ensures forall k :: k in d && !(d[k].VStr? && Blank(d[k].s)) ==> CleanedEntries(d)[k] == d[k]
    ensures CleanedEntries(CleanedEntries(d)) == CleanedEntries(d)
  {
    forall k | k in d
      ensures Cleaned(Cleaned(d[k])) == Cleaned(d[k])
      ensures Cleaned(d[k]) == (if d[k].VStr? && Blank(d[k].s) then VNone else d[k])
    {
      CleanedMeaning(d[k]);
    }
  }

  /** The class attributes of `Mapper` and their class-level values. */
  const Defaults: map<string, Value> := map[
    "reader_class" := VNone,
    "model_class" := VNone,
    "filename" := VNone,
    "encoding" := VStr("utf-8"),
    "slice_begin" := VNone,
    "slice_end" := VNone,
    "default_values" := VDict(map[]),
    "logfile" := VNone,
    "create_new" := VBool(true),
    "update" := VBool(true),
    "create_foreign_key" := VBool(true),
    "etl_persistence" := VList([VStr("record")]),
    "message" := VStr("Data Extraction"),
    "result" := VNone]

  /** The methods of `Mapper`, which `hasattr` also finds. */
  const MethodNames: set<string> := {"is_valid", "transform", "load"}

  /** The encoding once `__init__` has run: a truthy `encoding` option, or
      'utf-8' (the class value, or the reset of a falsy option). */
  function EncodingOf(kwargs: map<string, Value>): Value
  {
    if "encoding" in kwargs && Truthy(kwargs["encoding"]) then kwargs["encoding"] else VStr("utf-8")
  }

  /** The data attributes once `__init__` has run with `kwargs`, whatever
      order the keyword dict is iterated in. */
  function Configured(kwargs: map<string, Value>): map<string, Value>
  {
    map k | k in Defaults :: if k == "encoding" then EncodingOf(kwargs) else if k in kwargs then kwargs[k] else Defaults[k]
  }

  function Restrict(kwargs: map<string, Value>, names: set<string>): (r: map<string, Value>)
    ensures r.Keys == kwargs.Keys * names
  {
    map k | k in kwargs && k in names :: kwargs[k]
  }

  /** Keyword options set existing attributes only, other attributes keep
      their class value, and the encoding is never left falsy. */
  lemma ConfiguredMeaning(kwargs: map<string, Value>)
    ensures Configured(kwargs).Keys == Defaults.Keys
    ensures forall k :: k in kwargs && k in Defaults && k != "encoding" ==> Configured(kwargs)[k] == kwargs[k]
    ensures forall k :: k in Defaults && k !in kwargs ==> Configured(kwargs)[k] == Defaults[k]
    ensures Truthy(Configured(kwargs)["encoding"])
    ensures "encoding" in kwargs && Truthy(kwargs["encoding"]) ==> Configured(kwargs)["encoding"] == kwargs["encoding"]
  {
  }

  class Mapper {
    /** The data attributes of the instance (class values until set). */
    var attrs: map<string, Value>
    /** Methods shadowed by a keyword option of the same name. */
    var shadowed: map<string, Value>
    /** Keyword options that named no attribute: each one raised a warning. */
    var ignored: set<string>

    ghost predicate Valid()
      reads this
    {
      attrs.Keys == Defaults.Keys
    }

    /** `Mapper(*args, **kwargs)`: positional arguments are ignored. */
    constructor(kwargs: map<string, Value>)
      ensures Valid()
      ensures attrs == Configured(kwargs)
      ensures shadowed == Shadowed(kwargs, kwargs.Keys)
      ensures ignored == Ignored(kwargs, kwargs.Keys)
    {
      var a, sh, ig := ReadOptions(kwargs);
      attrs := a;
      shadowed := sh;
      ignored := ig;
      ConfiguredMeaning(kwargs);
    }

    /** `is_valid`: every record is accepted. */
    function IsValid(dictionary: map<string, Value>): (accepted: bool)
      ensures accepted
    {
      true
    }

    /** `transform`: a copy of the default values (when they are a dict)
        updated with the record; the defaults themselves are not changed. */
    function Transform(dictionary: map<string, Value>): (r: map<string, Value>)
      reads this
      requires Valid()
      ensures attrs["default_values"].VDict? ==>
        var defaults := attrs["default_values"].entries;
        && r.Keys == defaults.Keys + dictionary.Keys
        && (forall k :: k in dictionary ==> r[k] == dictionary[k])
        && (forall k :: k in defaults && k !in dictionary ==> r[k] == defaults[k])
      ensures !attrs["default_values"].VDict? ==> r == dictionary
    {
      var dic := if attrs["default_values"].VDict? then attrs["default_values"].entries else map[];
      dic + dictionary
    }
  }

  /** The loop of `__init__` over the keyword options, in whatever order
      the dict yields them, starting from the class values: `setattr` for
      an attribute (a method is shadowed), a warning otherwise, then the
      encoding reset. */
  method ReadOptions(kwargs: map<string, Value>) returns (attrs: map<string, Value>, shadowed: map<string, Value>, ignored: set<string>)
    ensures attrs == Configured(kwargs)
    ensures shadowed == Shadowed(kwargs, kwargs.Keys) && ignored == Ignored(kwargs, kwargs.Keys)
  {
    attrs, shadowed, ignored := Defaults, map[], {};
    ConfiguredNone(kwargs);
    var todo := kwargs.Keys;
    ghost var done: set<string> := {};
    while todo != {}
      invariant done + todo == kwargs.Keys && done !! todo
      invariant attrs == Configured(Restrict(kwargs, done))
      invariant shadowed == Shadowed(kwargs, done) && ignored == Ignored(kwargs, done)
      decreases |todo|
    {
      var k :| k in todo;
      attrs, shadowed, ignored := ReadOption(kwargs, done, k, attrs, shadowed, ignored);
      Advance(kwargs.Keys, done, todo, k);
      done := done + {k};
      todo := todo - {k};
    }
    RestrictAll(kwargs);
  }

  /** One pass of that loop, for the option `k`. */
  method ReadOption(kwargs: map<string, Value>, ghost done: set<string>, k: string,
                    attrs: map<string, Value>, shadowed: map<string, Value>, ignored: set<string>)
    returns (attrs': map<string, Value>, shadowed': map<string, Value>, ignored': set<string>)
    requires k in kwargs && k !in done
    requires attrs == Configured(Restrict(kwargs, done))
    requires shadowed == Shadowed(kwargs, done) && ignored == Ignored(kwargs, done)
    ensures attrs' == Configured(Restrict(kwargs, done + {k}))
    ensures shadowed' == Shadowed(kwargs, done + {k}) && ignored' == Ignored(kwargs, done + {k})
  {
    ConfiguredStep(kwargs, done, k);
    OptionStep(kwargs, done, k);
    attrs', shadowed', ignored' := attrs, shadowed, ignored;
    if k in Defaults {
      attrs' := attrs'[k := kwargs[k]];
    } else if k in MethodNames {
      shadowed' := shadowed'[k := kwargs[k]];
    } else {
      ignored' := ignored' + {k};
    }
    if !Truthy(attrs'["encoding"]) {
      attrs' := attrs'["encoding" := VStr("utf-8")];
    }
  }

  /** One more keyword option processed by the loop of `__init__`. */
  lemma ConfiguredStep(kwargs: map<string, Value>, done: set<string>, k: string)
    requires k in kwargs && k !in done
    ensures var before := Configured(Restrict(kwargs, done));
      var updated := if k in Defaults then before[k := kwargs[k]] else before;
      var after := if !Truthy(updated["encoding"]) then updated["encoding" := VStr("utf-8")] else updated;
      after == Configured(Restrict(kwargs, done + {k}))
  {
    var before := Configured(Restrict(kwargs, done));
    var updated := if k in Defaults then before[k := kwargs[k]] else before;
    var after := if !Truthy(updated["encoding"]) then updated["encoding" := VStr("utf-8")] else updated;
    var goal := Configured(Restrict(kwargs, done + {k}));
    assert after.Keys == goal.Keys;
    forall n | n in goal
      ensures after[n] == goal[n]
    {
    }
  }

  /** The options among `done` that shadow a method. */
  function Shadowed(kwargs: map<string, Value>, done: set<string>): map<string, Value>
  {
    map k | k in kwargs && k in done && k !in Defaults && k in MethodNames :: kwargs[k]
  }

  /** The options among `done` that named no attribute. */
  function Ignored(kwargs: map<string, Value>, done: set<string>): set<string>
  {
    set k | k in kwargs && k in done && k !in Defaults && k !in MethodNames
  }

  lemma OptionStep(kwargs: map<string, Value>, done: set<string>, k: string)
    requires k in kwargs
    ensures Shadowed(kwargs, done + {k}) == if k in MethodNames && k !in Defaults then Shadowed(kwargs, done)[k := kwargs[k]] else Shadowed(kwargs, done)
    ensures Ignored(kwargs, done + {k}) == if k !in Defaults && k !in MethodNames then Ignored(kwargs, done) + {k} else Ignored(kwargs, done)
  {
  }

  /** Before the loop: no option read, the class values. */
  lemma ConfiguredNone(kwargs: map<string, Value>)
    ensures Configured(Restrict(kwargs, {})) == Defaults
    ensures Shadowed(kwargs, {}) == map[] && Ignored(kwargs, {}) == {}
  {
    assert Restrict(kwargs, {}) == map[];
  }

  /** Moving one key from the pending options to the read ones. */
  lemma Advance(all: set<string>, done: set<string>, todo: set<string>, k: string)
    requires done + todo == all && done !! todo && k in todo
    ensures (done + {k}) + (todo - {k}) == all && (done + {k}) !! (todo - {k})
  {
  }

  lemma RestrictAll(kwargs: map<string, Value>)
    ensures Restrict(kwargs, kwargs.Keys) == kwargs
  {
  }
}
