/**
 * The JavaScript values the consent extension handles: parsed JSON bodies from
 * the consent authority, the fields it keeps in the session, and the parsed
 * service-binding descriptor. Only the parts of the language's semantics that
 * index.js relies on are modelled: ToBoolean (truthiness), property reads,
 * numeric subscripts, hasOwnProperty, String() conversion as used by template
 * literals, and the two indexOf methods.
 */
module JsValue {

  datatype Option<+T> = None | Some(value: T)

  datatype Result<+T, +E> = Ok(value: T) | Err(error: E)

  /**
   * A value as produced by JSON.parse or stored in the session, plus
   * `undefined` for a property that is absent. Numbers are integers.
   */
  datatype Value =
    | Undefined
    | Null
    | Bool(b: bool)
    | Num(n: int)
    | Str(s: string)
    | Arr(items: seq<Value>)
    | Obj(members: map<string, Value>)

  /** What the modelled code can throw. */
  datatype Exception =
    | TypeError              // a property read on null/undefined, or a call of a non-function
    | AssertionError         // a failed `assert(...)` at start-up
    | FetchError             // the transport failed or the body was not JSON
    | Error(message: string) // an explicit `throw new Error(message)`

  predicate IsNullish(v: Value) {
    v.Undefined? || v.Null?
  }

  /** ECMAScript ToBoolean: what an `if (v)` or `v && ...` tests. */
  predicate Truthy(v: Value) {
    match v
    case Undefined => false
    case Null => false
    case Bool(b) => b
    case Num(n) => n != 0
    case Str(s) => s != ""
    case Arr(_) => true
    case Obj(_) => true
  }

  /** `a || b`: the left operand when it is truthy, otherwise the right one. */
  function Or(a: Value, b: Value): (r: Value)
    ensures Truthy(a) ==> r == a
    ensures !Truthy(a) ==> r == b
    ensures Truthy(r) <==> Truthy(a) || Truthy(b)
  {
    if Truthy(a) then a else b
  }

  /**
   * `v.key` for a named (non-index) key. Reading a property of null or
   * undefined throws, so callers must rule that out first. Only own members
   * of objects are seen; arrays, strings, numbers and booleans have none of
   * the names index.js reads.
   */
  function Prop(v: Value, key: string): Value
    requires !IsNullish(v)
  {
    match v
    case Obj(m) => if key in m then m[key] else Undefined
    case _ => Undefined
  }

  /** `v.hasOwnProperty(key)` for a named (non-index) key. */
  predicate HasOwn(v: Value, key: string)
    requires !IsNullish(v)
  {
    v.Obj? && key in v.members
  }

  /**
   * `v[i]`: an element of an array, a one-character string of a string, the
   * member named by the decimal digits of `i` of an object.
   */
  function At(v: Value, i: nat): Value
    requires !IsNullish(v)
  {
    match v
    case Arr(items) => if i < |items| then items[i] else Undefined
    case Str(s) => if i < |s| then Str([s[i]]) else Undefined
    case Obj(m) => Prop(v, NatToDecimal(i))
    case _ => Undefined
  }

  function DigitChar(d: nat): char
    requires d < 10
  {
    "0123456789"[d]
  }

  function NatToDecimal(n: nat): (r: string)
    ensures |r| > 0
    ensures forall k :: 0 <= k < |r| ==> '0' <= r[k] <= '9'
  {
    if n < 10 then [DigitChar(n)] else NatToDecimal(n / 10) + [DigitChar(n % 10)]
  }

  function IntToDecimal(n: int): string {
    if n < 0 then "-" + NatToDecimal(-n) else NatToDecimal(n)
  }

  /** `parts.join(',')`. */
  function JoinCommas(parts: seq<string>): string {
    if |parts| == 0 then ""
    else if |parts| == 1 then parts[0]
    else parts[0] + "," + JoinCommas(parts[1..])
  }

  /**
   * String(v) returns rather than throws. Parsed JSON holds no functions, so
   * an object with an own `toString` member hides the callable one it would
   * inherit; the conversion then falls back to `valueOf`, which hands the
   * object back, and throws a TypeError. An array converts its elements.
   */
  predicate Stringifiable(v: Value)
    decreases v
  {
    match v
    case Obj(m) => "toString" !in m
    case Arr(items) => forall k :: 0 <= k < |items| ==> IsNullish(items[k]) || Stringifiable(items[k])
    case _ => true
  }

  /**
   * String(v), which is what `${v}` in a template literal produces, for a
   * value that is Stringifiable (callers check that first). An array is
   * joined with commas, null and undefined elements becoming "".
   */
  function ToJsString(v: Value): string
    decreases v
  {
    match v
    case Undefined => "undefined"
    case Null => "null"
    case Bool(b) => if b then "true" else "false"
    case Num(n) => IntToDecimal(n)
    case Str(s) => s
    case Arr(items) =>
      JoinCommas(seq(|items|, k requires 0 <= k < |items| =>
                       if IsNullish(items[k]) then "" else ToJsString(items[k])))
    case Obj(_) => "[object Object]"
  }

  /** `p` occurs in `s` starting at position `j`. */
  predicate OccursAt(s: string, p: string, j: nat) {
    j + |p| <= |s| && s[j..j + |p|] == p
  }

  /**
   * `s.indexOf(p, from)` for `from <= |s|`: the first position at or after
   * `from` where `p` occurs in `s`, or -1 when there is none.
   */
  function IndexOfFrom(s: string, p: string, from: nat): (r: int)
    requires from <= |s|
    ensures r == -1 || (from <= r && OccursAt(s, p, r))
    ensures forall j: nat :: from <= j && (r == -1 || j < r) ==> !OccursAt(s, p, j)
    decreases |s| - from
  {
    if from + |p| > |s| then -1
    else if s[from..from + |p|] == p then from
    else IndexOfFrom(s, p, from + 1)
  }

  /**
   * `s.indexOf(p)`: the first position where `p` occurs in `s`, or -1.
   * Positions count Dafny characters (Unicode scalar values) where
   * JavaScript counts UTF-16 code units; the two agree on whether the
   * result is -1, which is all index.js:8 looks at.
   */
  function IndexOf(s: string, p: string): (r: int)
    ensures r == -1 || (0 <= r && OccursAt(s, p, r))
    ensures forall j: nat :: (r == -1 || j < r) ==> !OccursAt(s, p, j)
  {
    IndexOfFrom(s, p, 0)
  }

  /** `items.indexOf(x)`: the first index holding a value strictly equal to `x`, or -1. */
  function ArrayIndexOf(items: seq<Value>, x: Value): (r: int)
    requires x.Str?
    ensures r == -1 || (0 <= r < |items| && items[r] == x)
    ensures forall j :: 0 <= j < (if r == -1 then |items| else r) ==> items[j] != x
  {
    if |items| == 0 then -1
    else if items[0] == x then 0
    else
      var k := ArrayIndexOf(items[1..], x);
      if k == -1 then -1 else k + 1
  }
}
