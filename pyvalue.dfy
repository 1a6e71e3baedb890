/**
 * Dynamically typed values as the package receives them: arguments of
 * its public functions and documents decoded from the API's JSON.
 */
module PyValue {
  import opened Wrappers
  import opened Text

  datatype Py =
    | PNone
    | PBool(b: bool)
    | PInt(i: int)
    | PFloat(r: real)
    | PNaN
    | PStr(s: string)
    | PList(items: seq<Py>)
    | PDict(entries: map<string, Py>)
      /** Any other object, with the text `str()` gives and its truth value. */
    | PObject(text: string, truthy: bool)

  /** Python truth value (`if v:`). */
  predicate Truthy(v: Py)
  {
    match v
    case PNone => false
    case PBool(b) => b
    case PInt(i) => i != 0
    case PFloat(r) => r != 0.0
    case PNaN => true
    case PStr(s) => s != ""
    case PList(xs) => xs != []
    case PDict(m) => m != map[]
    case PObject(_, t) => t
  }

  /** `isinstance(v, int)`, which also holds for booleans. */
  predicate IsInt(v: Py)
  {
    v.PInt? || v.PBool?
  }

  function IntOf(v: Py): int
    requires IsInt(v)
  {
    if v.PBool? then (if v.b then 1 else 0) else v.i
  }

  /** Numeric zero in any of its spellings (`0`, `0.0`, `False`). */
  predicate IsNumericZero(v: Py)
  {
    v == PInt(0) || v == PFloat(0.0) || v == PBool(false)
  }

  /** `type(v).__name__`; an arbitrary object is named `object`. */
  function TypeName(v: Py): string
  {
    match v
    case PNone => "NoneType"
    case PBool(_) => "bool"
    case PInt(_) => "int"
    case PFloat(_) => "float"
    case PNaN => "float"
    case PStr(_) => "str"
    case PList(_) => "list"
    case PDict(_) => "dict"
    case PObject(_, _) => "object"
  }

  /**
   * `str(v)`. Floats, lists and dictionaries are rendered by a fixed
   * placeholder: none of them can read as a decimal numeral.
   */
  function Str(v: Py): string
  {
    match v
    case PNone => "None"
    case PBool(b) => if b then "True" else "False"
    case PInt(i) => IntToString(i)
    case PFloat(_) => "<float>"
    case PNaN => "nan"
    case PStr(s) => s
    case PList(_) => "<list>"
    case PDict(_) => "<dict>"
    case PObject(t, _) => t
  }

  /** `d[k]` for a string key. */
  function Get(d: Py, k: string): (r: Result<Py>)
    ensures r.Ok? <==> d.PDict? && k in d.entries
    ensures r.Ok? ==> r.value == d.entries[k]
    ensures r.Fail? && d.PDict? ==> r.error.kind == KeyError
    ensures r.Fail? && !d.PDict? ==> r.error.kind == TypeError
  {
    match d
    case PDict(m) => if k in m then Ok(m[k]) else Raise(KeyError, k)
    case _ => Raise(TypeError, "object is not subscriptable by a string")
  }

  /** `v[i]` for an integer index, negative indices counting from the end. */
  function At(v: Py, i: int): (r: Result<Py>)
    ensures r.Ok? <==> (v.PList? && -|v.items| <= i < |v.items|) || (v.PStr? && -|v.s| <= i < |v.s|)
    ensures r.Ok? && v.PList? ==> r.value == v.items[if i < 0 then |v.items| + i else i]
  {
    match v
    case PList(xs) =>
      if 0 <= i < |xs| then Ok(xs[i])
      else if -|xs| <= i < 0 then Ok(xs[|xs| + i])
      else Raise(IndexError, "list index out of range")
    case PStr(s) =>
      if 0 <= i < |s| then Ok(PStr([s[i]]))
      else if -|s| <= i < 0 then Ok(PStr([s[|s| + i]]))
      else Raise(IndexError, "string index out of range")
    case PDict(_) => Raise(KeyError, IntToString(i))
    case _ => Raise(TypeError, "object is not subscriptable")
  }

  /** `len(v)`. */
  function Len(v: Py): (r: Result<nat>)
    ensures r.Ok? <==> v.PStr? || v.PList? || v.PDict?
  {
    match v
    case PStr(s) => Ok(|s|)
    case PList(xs) => Ok(|xs|)
    case PDict(m) => Ok(|m|)
    case _ => Raise(TypeError, "object has no len()")
  }

  /**
   * The error of `raise ValueError(f"... {', '.join(m.keys())}")`: the
   * message is built first, and `str.join` raises a TypeError of its own
   * when one of the keys is not a str.
   */
  function JoinedKeysError(keys: set<Py>, msg: string): (e: Error)
    ensures e.kind == ValueError <==> forall k | k in keys :: k.PStr?
    ensures e.kind != ValueError ==> e.kind == TypeError && exists k | k in keys :: !k.PStr?
  {
    if forall k | k in keys :: k.PStr? then Error(ValueError, msg)
    else Error(TypeError, "sequence item: expected str instance")
  }

  /**
   * What `for x in v` visits: a list's items, a string's characters. A
   * dictionary is visited in insertion order, which the map of `PDict`
   * does not keep, so only the empty one is iterated here.
   */
  function Items(v: Py): (r: Result<seq<Py>>)
    ensures v.PList? ==> r == Ok(v.items)
    ensures v.PStr? ==> r.Ok? && |r.value| == |v.s| && forall k | 0 <= k < |v.s| :: r.value[k] == PStr([v.s[k]])
    ensures v.PDict? && v.entries == map[] ==> r == Ok([])
    ensures r.Ok? <==> v.PList? || v.PStr? || (v.PDict? && v.entries == map[])
    ensures r.Fail? ==> r.error.kind == TypeError
  {
    match v
    case PList(xs) => Ok(xs)
    case PStr(s) => Ok(seq(|s|, k requires 0 <= k < |s| => PStr([s[k]])))
    case PDict(m) => if m == map[] then Ok([]) else Raise(TypeError, "dict iteration order is not modelled")
    case _ => Raise(TypeError, "object is not iterable")
  }

  /** `int(v)` for the values the package converts. */
  function ToInt(v: Py): (r: Result<int>)
    ensures IsInt(v) ==> r == Ok(IntOf(v))
    ensures v.PStr? && AllDigits(v.s) && v.s != "" ==> r == Ok(DigitsValue(v.s))
  {
    match v
    case PInt(i) => Ok(i)
    case PBool(b) => Ok(if b then 1 else 0)
    case PFloat(r) => Ok(if r >= 0.0 then r.Floor else -((-r).Floor))
    case PStr(s) =>
      var t := Strip(s);
      if t != "" && AllDigits(t) then Ok(DigitsValue(t))
      else if 1 < |t| && (t[0] == '-' || t[0] == '+') && AllDigits(t[1..]) then
        var magnitude: int := DigitsValue(t[1..]);
        Ok(if t[0] == '-' then -magnitude else magnitude)
      else Raise(ValueError, "invalid literal for int()")
    case PNaN => Raise(ValueError, "cannot convert float NaN to integer")
    case _ => Raise(TypeError, "int() argument must be a string or a number")
  }
}
