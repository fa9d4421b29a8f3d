/** The Python values that flow through the handlers: JSON values, their
    `str()` form, their use as dict keys, and a mutable `dict` with string
    keys that remembers insertion order. */
module PyValue {
  import opened Wrappers
  import opened Decimal
  import opened Strings

  /** A JSON value as `json.loads` returns it. An array or object is kept as
      its Python type name and its `str()` text. */
  datatype Value =
    | VStr(s: string)
    | VInt(i: int)
    | VBool(b: bool)
    | VNone
    | VComposite(typeName: string, text: string)

  /** `str(v)`, which is also what an f-string interpolates: a string is
      its own text, a number its decimal digits. */
  function Str(v: Value): (r: string)
    ensures v.VStr? ==> r == v.s
    ensures v.VInt? ==> |r| > 0 && (r[0] == '-' <==> v.i < 0)
  {
    match v
    case VStr(s) => s
    case VInt(i) => DecimalString(i)
    case VBool(b) => if b then "True" else "False"
    case VNone => "None"
    case VComposite(_, text) => text
  }

  /** Python's `v == 0` (`False == 0` holds in Python). */
  predicate EqualsZero(v: Value)
  {
    v == VInt(0) || v == VBool(false)
  }

  /** `type(v).__name__`. */
  function TypeName(v: Value): string
  {
    match v
    case VStr(_) => "str"
    case VInt(_) => "int"
    case VBool(_) => "bool"
    case VNone => "NoneType"
    case VComposite(t, _) => t
  }

  /** What a value is as a dict key: `True` and `1` are the same key. */
  datatype HashKey = KStr(s: string) | KInt(i: int) | KNone

  /** The key `d[v] = ...` stores under; `None` for a list or dict, whose
      use as a key raises `TypeError: unhashable type`. */
  function KeyOf(v: Value): (r: Option<HashKey>)
    ensures r.None? <==> v.VComposite?
    ensures v.VStr? ==> r == Some(KStr(v.s))
  {
    match v
    case VStr(s) => Some(KStr(s))
    case VInt(i) => Some(KInt(i))
    case VBool(b) => Some(KInt(if b then 1 else 0))
    case VNone => Some(KNone)
    case VComposite(_, _) => None
  }

  /** The key order of a dict after `d.pop(k)`. */
  function RemoveKey(ks: seq<string>, k: string): (r: seq<string>)
    ensures Elems(r) == Elems(ks) - {k}
    ensures Distinct(ks) ==> Distinct(r)
    ensures k !in ks ==> r == ks
    ensures |r| <= |ks|
  {
    if |ks| == 0 then []
    else
      var t := RemoveKey(ks[1..], k);
      assert ks == [ks[0]] + ks[1..];
      assert Elems(ks) == {ks[0]} + Elems(ks[1..]);
      if ks[0] == k then t
      else
        assert Elems([ks[0]] + t) == {ks[0]} + Elems(t);
        assert Distinct(ks) ==> ks[0] !in Elems(t);
        [ks[0]] + t
  }

  /** The contents of a dict literal whose key `ks[i]` holds `vs[i]`. */
  function MapOf(ks: seq<string>, vs: seq<Value>): (m: map<string, Value>)
    requires Distinct(ks) && |ks| == |vs|
    ensures m.Keys == Elems(ks)
    ensures forall i :: 0 <= i < |ks| ==> m[ks[i]] == vs[i]
  {
    map i | 0 <= i < |ks| :: ks[i] := vs[i]
  }

  /** `d.get(k, default)` on the contents of a dict. */
  function GetOr<V>(m: map<string, V>, k: string, default: V): V
  {
    if k in m then m[k] else default
  }

  /** A Python `dict` with `str` keys: its keys in insertion order, and its
      contents. */
  class PyDict {
    var keys: seq<string>
    var vals: map<string, Value>

    ghost predicate Valid()
      reads this
    {
      Distinct(keys) && Elems(keys) == vals.Keys
    }

    /** A dict holding `m`, whose keys were inserted in the order `ks`. */
    constructor Of(ks: seq<string>, m: map<string, Value>)
      requires Distinct(ks) && Elems(ks) == m.Keys
      ensures Valid() && keys == ks && vals == m
    {
      keys := ks;
      vals := m;
    }

    /** `d[k] = v`: a new key goes last, an existing key keeps its place. */
    method Set(k: string, v: Value)
      requires Valid()
      modifies this
      ensures Valid()
      ensures vals == old(vals)[k := v]
      ensures keys == if k in old(vals) then old(keys) else old(keys) + [k]
    {
      if k !in vals {
        assert k !in Elems(keys);
        keys := keys + [k];
        assert Elems(keys) == Elems(old(keys)) + {k};
      }
      vals := vals[k := v];
    }

    /** `d.pop(k)` for a key that is present. */
    method Pop(k: string) returns (v: Value)
      requires Valid() && k in vals
      modifies this
      ensures Valid()
      ensures v == old(vals)[k]
      ensures vals == old(vals) - {k}
      ensures keys == RemoveKey(old(keys), k)
    {
      v := vals[k];
      keys := RemoveKey(keys, k);
      vals := vals - {k};
    }
  }
}
