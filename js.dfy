/** JavaScript runtime semantics the gateway relies on: dynamic values, exceptions,
    property access, `typeof`, and the string built-ins `slice`, `toLowerCase`,
    `indexOf` and `replace`. */
module Js {

  /** A JavaScript value as it can come out of `JSON.parse` or a path parameter.
      Numbers are modelled as integers only. */
  datatype JsValue =
    | Undefined
    | Null
    | Bool(b: bool)
    | Num(n: int)
    | Str(s: string)
    | Arr(items: seq<JsValue>)
    | Obj(fields: map<string, JsValue>)

  /** An exception, kept opaque: no layer inspects its cause. */
  datatype Exception = Exception(message: string)

  /** The completion of a JavaScript expression: a value, or a thrown exception.
      Failure-compatible, so `:-` propagates a throw the way JavaScript does. */
  datatype Completion<+T> = Normal(value: T) | Thrown(error: Exception) {
    predicate IsFailure() { Thrown? }
    function PropagateFailure<U>(): Completion<U>
      requires Thrown?
    {
      Thrown(error)
    }
    function Extract(): T
      requires Normal?
    {
      value
    }
  }

  /** `typeof v` */
  function TypeOf(v: JsValue): (r: string)
    ensures r == "string" <==> v.Str?
    ensures r == "object" <==> v.Null? || v.Arr? || v.Obj?
  {
    match v
    case Undefined => "undefined"
    case Null => "object"
    case Bool(_) => "boolean"
    case Num(_) => "number"
    case Str(_) => "string"
    case Arr(_) => "object"
    case Obj(_) => "object"
  }

  /** `v.key`: a TypeError on `null` and `undefined`; `undefined` for a missing key
      and for every primitive or array (none of them has the gateway's own keys). */
  function GetProperty(v: JsValue, key: string): (r: Completion<JsValue>)
    ensures r.Thrown? <==> v.Null? || v.Undefined?
    ensures r.Normal? && r.value != Undefined ==> v.Obj? && key in v.fields && r.value == v.fields[key]
    ensures v.Obj? && key in v.fields ==> r == Normal(v.fields[key])
  {
    match v
    case Null => Thrown(Exception("TypeError: Cannot read properties of null"))
    case Undefined => Thrown(Exception("TypeError: Cannot read properties of undefined"))
    case Obj(fields) => Normal(if key in fields then fields[key] else Undefined)
    case _ => Normal(Undefined)
  }

  /** `v.key` on a value that is neither null nor undefined. */
  function Field(v: JsValue, key: string): JsValue
    requires !v.Null? && !v.Undefined?
  {
    GetProperty(v, key).value
  }

  /** `String.prototype.toLowerCase` on one character; only ASCII letters change. */
  function LowerChar(c: char): char {
    if 'A' <= c <= 'Z' then (c as int + 32) as char else c
  }

  function ToLower(s: string): (r: string)
    ensures |r| == |s|
    ensures forall i | 0 <= i < |s| :: r[i] == LowerChar(s[i])
  {
    seq(|s|, i requires 0 <= i < |s| => LowerChar(s[i]))
  }

  function Min(a: int, b: int): int { if a <= b then a else b }

  /** `s.slice(from, to)` for non-negative bounds: both are clamped to the length. */
  function Slice(s: string, from: nat, to: nat): (r: string)
    ensures from <= to <= |s| ==> r == s[from..to]
    ensures from <= |s| <= to ==> r == s[from..]
    ensures to <= from ==> r == []
    ensures |r| == if Min(to, |s|) <= from then 0 else Min(to, |s|) - from
  {
    var e := Min(to, |s|);
    var b := Min(from, e);
    s[b..e]
  }

  /** `s.slice(from)` for a non-negative bound. */
  function SliceFrom(s: string, from: nat): (r: string)
    ensures from <= |s| ==> r == s[from..]
    ensures from >= |s| ==> r == []
  {
    Slice(s, from, |s|)
  }

  /** `pat` occurs in `s` at position `j`. */
  predicate OccursAt(s: string, pat: string, j: nat) {
    j + |pat| <= |s| && s[j..j + |pat|] == pat
  }

  /** `s.indexOf(pat, from)`: the first position at or after `from` where `pat` occurs. */
  function IndexOf(s: string, pat: string, from: nat): (r: Option<nat>)
    ensures r.Some? ==> from <= r.value && OccursAt(s, pat, r.value)
    ensures r.Some? ==> forall j | from <= j < r.value :: !OccursAt(s, pat, j)
    ensures r.None? ==> forall j | from <= j :: !OccursAt(s, pat, j)
    decreases |s| - from
  {
    if from + |pat| > |s| then None
    else if s[from..from + |pat|] == pat then Some(from)
    else IndexOf(s, pat, from + 1)
  }

  /** `s.replace(pat, rep)` with a string pattern: only the first occurrence is replaced. */
  function ReplaceFirst(s: string, pat: string, rep: string): (r: string)
    // no occurrence: the text is unchanged; otherwise one `pat` gives way to `rep`
    ensures IndexOf(s, pat, 0).None? ==> r == s
    ensures IndexOf(s, pat, 0).Some? ==> |r| == |s| - |pat| + |rep|
  {
    match IndexOf(s, pat, 0)
    case None => s
    case Some(k) => s[..k] + rep + s[k + |pat|..]
  }

  /** Only the first occurrence is replaced: the text before it and after it is
      kept, and `rep` stands where it was. */
  lemma ReplaceFirstSplices(s: string, pat: string, rep: string, k: nat)
    requires IndexOf(s, pat, 0) == Some(k)
    ensures var r := ReplaceFirst(s, pat, rep);
            && k + |rep| <= |r|
            && r[..k] == s[..k]
            && r[k..k + |rep|] == rep
            && r[k + |rep|..] == s[k + |pat|..]
  {
    var r := ReplaceFirst(s, pat, rep);
    assert r == s[..k] + rep + s[k + |pat|..];
    assert r[..k] == s[..k];
    assert r[k..k + |rep|] == rep;
  }

  datatype Option<+T> = None | Some(value: T)

  /** The decimal spelling of `n`, as `for..in` yields array indices. */
  function DecimalString(n: nat): (r: string)
    ensures |r| >= 1
    ensures forall i | 0 <= i < |r| :: '0' <= r[i] <= '9'
  {
    var d := ['0' + (n % 10) as char];
    if n < 10 then d else DecimalString(n / 10) + d
  }
}
