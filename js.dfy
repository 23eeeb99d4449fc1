// The small piece of JavaScript semantics the server relies on: values and
// their truthiness, the `&&` operator, property reads, and the two String
// methods `indexOf` and `slice`.
module Js {

  /** A JavaScript value, as far as the server inspects one. Numbers are
      integers here (NaN, -0 and fractions are not modelled); an object is the
      map of its own properties. */
  datatype JsValue =
    | Undefined
    | Null
    | Bool(b: bool)
    | Num(n: int)
    | Str(s: string)
    | Obj(fields: map<string, JsValue>)

  /** ToBoolean: what `if (v)` and `v ? … : …` test. */
  predicate Truthy(v: JsValue)
    ensures Truthy(v) <==>
      !(v == Undefined || v == Null || v == Bool(false) || v == Num(0) || v == Str(""))
  {
    match v
    case Undefined => false
    case Null => false
    case Bool(b) => b
    case Num(n) => n != 0
    case Str(s) => s != ""
    case Obj(_) => true
  }

  /** `a && b`: yields `a` itself when it is falsy, `b` otherwise. */
  function And(a: JsValue, b: JsValue): (r: JsValue)
    ensures Truthy(r) <==> Truthy(a) && Truthy(b)
    ensures !Truthy(a) ==> r == a
    ensures Truthy(a) ==> r == b
  {
    if Truthy(a) then b else a
  }

  /** `v.key`. Reading a property of `null` or `undefined` throws, so the
      caller must rule those out; primitives have no own `key` here. */
  function Get(v: JsValue, key: string): (r: JsValue)
    requires !v.Undefined? && !v.Null?
    ensures v.Obj? && key in v.fields ==> r == v.fields[key]
    ensures !(v.Obj? && key in v.fields) ==> r == Undefined
  {
    if v.Obj? && key in v.fields then v.fields[key] else Undefined
  }

  /** `v === s` for a string literal `s`: only that very string is equal. */
  predicate StrictEqualsString(v: JsValue, s: string)
    ensures StrictEqualsString(v, s) <==> v == Str(s)
  {
    v.Str? && v.s == s
  }

  /** `m` occurs in `s` starting at index `k`. */
  predicate OccursAt(s: string, m: string, k: int) {
    0 <= k && k + |m| <= |s| && s[k..k + |m|] == m
  }

  ghost predicate Contains(s: string, m: string) {
    exists k :: OccursAt(s, m, k)
  }

  /** `s.indexOf(m, from)`: the first index at or after `from` where `m`
      occurs, or -1 when there is none. */
  function IndexOfFrom(s: string, m: string, from: nat): (r: int)
    requires from <= |s|
    ensures r == -1 || (from <= r && OccursAt(s, m, r))
    ensures forall k :: from <= k && (r == -1 || k < r) ==> !OccursAt(s, m, k)
    decreases |s| - from
  {
    if OccursAt(s, m, from) then from
    else if from == |s| then -1
    else IndexOfFrom(s, m, from + 1)
  }

  /** `s.indexOf(m)`: the index of the first occurrence of `m`, -1 if none. */
  function IndexOf(s: string, m: string): (r: int)
    ensures r == -1 <==> !Contains(s, m)
    ensures r != -1 ==> OccursAt(s, m, r) && forall k :: 0 <= k < r ==> !OccursAt(s, m, k)
  {
    IndexOfFrom(s, m, 0)
  }

  /** How `slice` turns an argument into a position of a string of length
      `len`: a negative index counts from the end, then the result is clamped
      to [0, len]. */
  function RelativeIndex(k: int, len: nat): (r: nat)
    ensures r <= len
    ensures 0 <= k <= len ==> r == k
    ensures k > len ==> r == len
    ensures k < 0 && 0 <= len + k ==> r == len + k
    ensures len + k < 0 ==> r == 0
  {
    if k < 0 then (if len + k < 0 then 0 else len + k)
    else if k < len then k else len
  }

  /** `s.slice(start, end)`: the characters from the relative start up to the
      relative end, empty when the end does not lie after the start. */
  function Slice(s: string, start: int, end: int): (r: string)
    ensures var from, to := RelativeIndex(start, |s|), RelativeIndex(end, |s|);
      |r| == (if from < to then to - from else 0) && r == s[from..from + |r|]
    ensures 0 <= start <= end <= |s| ==> r == s[start..end]
  {
    var from, to := RelativeIndex(start, |s|), RelativeIndex(end, |s|);
    if from < to then s[from..to] else []
  }

  /** `s.slice(start)`: the end defaults to the length of the string. */
  function SliceFrom(s: string, start: int): (r: string)
    ensures r == s[RelativeIndex(start, |s|)..]
  {
    Slice(s, start, |s|)
  }
}
