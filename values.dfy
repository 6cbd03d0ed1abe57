/** JSON-like values: what `json.loads` produces and what the `to_dict` methods build. */
module Values {
  import opened Wrappers

  /** A Python object that can travel in a JSON message. */
  datatype Value =
    | VNull
    | VBool(b: bool)
    | VInt(i: int)
    | VReal(r: real)
    | VStr(s: string)
    | VList(items: seq<Value>)
    | VDict(fields: map<string, Value>)

  /** A Python `dict` with string keys. */
  type Dict = map<string, Value>

  /** Python truthiness (`if x:` / `x or y`). */
  predicate Truthy(v: Value)
  {
    match v
    case VNull => false
    case VBool(b) => b
    case VInt(i) => i != 0
    case VReal(r) => r != 0.0
    case VStr(s) => s != ""
    case VList(xs) => xs != []
    case VDict(m) => m != map[]
  }

  /** `d.get(key, default)`. */
  function Get(d: Dict, key: string, default: Value): (v: Value)
    ensures key in d ==> v == d[key]
    ensures key !in d ==> v == default
  {
    if key in d then d[key] else default
  }

  /** The list of strings `xs` as a JSON list. */
  function StrList(xs: seq<string>): (v: Value)
    ensures v.VList? && |v.items| == |xs|
    ensures forall i :: 0 <= i < |xs| ==> v.items[i] == VStr(xs[i])
  {
    VList(seq(|xs|, i requires 0 <= i < |xs| => VStr(xs[i])))
  }

  /** What a Python `for` loop sees when it iterates over a value: the items of a list, the
      one-character strings of a string, the keys of a dict, or a TypeError. */
  datatype Iteration = Items(xs: seq<Value>) | KeysOf(m: Dict) | NotIterable

  function Iterate(v: Value): (it: Iteration)
    ensures v.VList? ==> it == Items(v.items)
    ensures v.VDict? ==> it == KeysOf(v.fields)
  {
    match v
    case VList(xs) => Items(xs)
    case VStr(s) => Items(seq(|s|, i requires 0 <= i < |s| => VStr([s[i]])))
    case VDict(m) => KeysOf(m)
    case _ => NotIterable
  }

  /** A number as Python arithmetic sees it (`bool` is a subclass of `int`). */
  function AsNumber(v: Value): (r: Option<real>)
    ensures v.VReal? ==> r == Some(v.r)
    ensures v.VInt? ==> r == Some(v.i as real)
    ensures v.VStr? || v.VNull? || v.VList? || v.VDict? ==> r.None?
  {
    match v
    case VInt(i) => Some(i as real)
    case VReal(r) => Some(r)
    case VBool(b) => Some(if b then 1.0 else 0.0)
    case _ => None
  }

  /** The first of `keys` that `d` lacks: the KeyError raised by reading the keys with
      `d[k]` one after another. */
  function FirstMissing(d: Dict, keys: seq<string>): (r: Option<string>)
    ensures r.None? <==> forall i :: 0 <= i < |keys| ==> keys[i] in d
    ensures r.None? ==> forall k :: k in keys ==> k in d
    ensures r.Some? ==> r.value in keys && r.value !in d
  {
    if keys == [] then None
    else if keys[0] !in d then Some(keys[0])
    else FirstMissing(d, keys[1..])
  }

  /** Values Python accepts as dict keys (lists and dicts are unhashable). */
  predicate Hashable(v: Value)
  {
    !v.VList? && !v.VDict?
  }

  /** The key a KeyError reports; only string keys are rendered. */
  function KeyText(v: Value): string
  {
    if v.VStr? then v.s else ""
  }
}
