/** The few JavaScript value semantics the modelled code depends on:
    dynamically typed values, truthiness, `a || b`, property access and
    `Array.prototype.slice`/`String.prototype.slice` with negative
    indices. Numbers are modelled as integers. */
module Js {
  import opened Results

  datatype Value =
    | Undefined
    | Null
    | Bool(b: bool)
    | Num(n: int)
    | Str(s: string)
    | Arr(items: seq<Value>)
    | Obj(entries: seq<(string, Value)>)

  /** JavaScript truthiness: undefined, null, false, 0 and "" are falsy;
      every array and object is truthy, even an empty one. */
  predicate Truthy(v: Value) {
    match v
    case Undefined => false
    case Null => false
    case Bool(b) => b
    case Num(n) => n != 0
    case Str(s) => s != ""
    case Arr(_) => true
    case Obj(_) => true
  }

  /** The guard `!x || typeof x !== "string"` fails exactly for a
      non-empty string, which it lets through. */
  function NonEmptyString(v: Value): (r: Option<string>)
    ensures r.Some? <==> v.Str? && v.s != ""
    ensures r.Some? ==> v == Str(r.value) && Truthy(v)
  {
    if v.Str? && v.s != "" then Some(v.s) else None
  }

  /** `a || b`. */
  function Or(a: Value, b: Value): Value {
    if Truthy(a) then a else b
  }

  /** `a || b` on an optional string (an environment variable, a query
      parameter): an absent or empty value gives the fallback. */
  function OrElse(a: Option<string>, b: string): (r: string)
    ensures (a.Some? && a.value != "") ==> r == a.value
    ensures !(a.Some? && a.value != "") ==> r == b
  {
    if a.Some? && a.value != "" then a.value else b
  }

  /** The value of the first entry with that key, undefined if none. */
  function Lookup(entries: seq<(string, Value)>, key: string): Value {
    if |entries| == 0 then Undefined
    else if entries[0].0 == key then entries[0].1
    else Lookup(entries[1..], key)
  }

  /** `v[key]`: reading a property of undefined or null throws a TypeError;
      primitives and arrays have no such own data properties here. */
  function Get(v: Value, key: string): (r: Result<Value, string>)
    ensures r.Err? <==> (v == Undefined || v == Null)
  {
    match v
    case Undefined => Err("TypeError")
    case Null => Err("TypeError")
    case Obj(es) => Ok(Lookup(es, key))
    case _ => Ok(Undefined)
  }

  /** The response unwrapping `data.data || data`, which throws on a null or
      undefined body. */
  function Unwrap(data: Value): (r: Result<Value, string>)
    ensures r.Err? <==> (data == Undefined || data == Null)
    ensures r.Ok? ==> r.value == data || (data.Obj? && Truthy(r.value) && r.value == Lookup(data.entries, "data"))
  {
    match Get(data, "data")
    case Err(e) => Err(e)
    case Ok(inner) => Ok(Or(inner, data))
  }

  /** `data.data || data || []`. */
  function UnwrapList(data: Value): (r: Result<Value, string>)
    ensures r.Err? <==> (data == Undefined || data == Null)
    ensures r.Ok? ==> Truthy(r.value)
  {
    match Unwrap(data)
    case Err(e) => Err(e)
    case Ok(v) => Ok(Or(v, Arr([])))
  }

  /** The start or end argument of `slice`, made absolute: a negative index
      counts from the end, and the result is clamped to [0, len]. */
  function RelativeIndex(k: int, len: nat): (r: nat)
    ensures r <= len
    ensures 0 <= k <= len ==> r == k
    ensures k < 0 && len + k >= 0 ==> r == len + k
  {
    if k < 0 then (if len + k < 0 then 0 else len + k)
    else if k > len then len
    else k
  }

  /** `s.slice(start, end)`. */
  function Slice<T>(s: seq<T>, start: int, end: int): (r: seq<T>)
    ensures |r| <= |s|
  {
    var a, b := RelativeIndex(start, |s|), RelativeIndex(end, |s|);
    if a < b then s[a..b] else []
  }

  /** `s.slice(start)`. */
  function SliceFrom<T>(s: seq<T>, start: int): (r: seq<T>)
    ensures |r| <= |s|
  {
    s[RelativeIndex(start, |s|)..]
  }

  /** `s.slice(-n)` keeps the last n elements, but `s.slice(-0)` is
      `s.slice(0)`, the whole sequence. */
  lemma SliceLast<T>(s: seq<T>, n: nat)
    ensures n == 0 ==> SliceFrom(s, -(n as int)) == s
    ensures 0 < n <= |s| ==> SliceFrom(s, -(n as int)) == s[|s| - n..]
    ensures n > |s| ==> SliceFrom(s, -(n as int)) == s
  {
  }
}
