/** The slice of JavaScript's value semantics the application's code depends on:
    truthiness, `||`, property reads with and without optional chaining,
    `String(v)`, `split`, `join` and `toUpperCase`. */
module Js {

  datatype Option<T> = None | Some(value: T)

  /** The outcome of an expression that may throw; the error object itself is not modelled. */
  datatype Result<T> = Ok(value: T) | Thrown

  /** A JavaScript value as the backend's parsed JSON or browser storage can produce it.
      Numbers are integers here. */
  datatype Value =
    | Undefined
    | Null
    | Bool(b: bool)
    | Num(n: int)
    | Str(s: string)
    | Arr(items: seq<Value>)
    | Obj(fields: map<string, Value>)

  predicate Nullish(v: Value) {
    v.Undefined? || v.Null?
  }

  /** JavaScript truthiness: `undefined`, `null`, `false`, `0` and `""` are falsy, everything else
      (every array and every object, empty or not) is truthy. */
  predicate Truthy(v: Value) {
    match v
    case Undefined => false
    case Null => false
    case Bool(b) => b
    case Num(n) => n != 0
    case Str(s) => s != ""
    case Arr(_) => true
    case Obj(_) => true
  }

  /** `a || b`: the left operand when it is truthy, otherwise the right one. */
  function Or(a: Value, b: Value): Value {
    if Truthy(a) then a else b
  }

  /** `x || null`, the normal form every backend helper returns. */
  function OrNull(v: Value): Value {
    Or(v, Null)
  }

  /** A string read from browser storage (`string | null`) is present when it is neither
      null nor empty, which is what `if (!token)` tests. */
  predicate Present(s: Option<string>) {
    s.Some? && s.value != ""
  }

  /** `v?.key`: a nullish receiver short-circuits to undefined; only objects have named
      properties that the application reads. */
  function OptGet(v: Value, key: string): Value {
    match v
    case Obj(f) => if key in f then f[key] else Undefined
    case _ => Undefined
  }

  /** `v.key`: reading a property of null or undefined throws a TypeError. */
  function Get(v: Value, key: string): Result<Value> {
    if Nullish(v) then Thrown else Ok(OptGet(v, key))
  }

  /** `v?.[0]`: the first element of an array, the first character of a string, the property
      "0" of an object; undefined otherwise. */
  function OptFirst(v: Value): Value {
    match v
    case Arr(items) => if |items| > 0 then items[0] else Undefined
    case Str(s) => if |s| > 0 then Str([s[0]]) else Undefined
    case Obj(f) => if "0" in f then f["0"] else Undefined
    case _ => Undefined
  }

  /** `v[0]` without optional chaining: throws on a nullish receiver. */
  function First(v: Value): Result<Value> {
    if Nullish(v) then Thrown else Ok(OptFirst(v))
  }

  function DigitChar(d: nat): char
    requires d < 10
  {
    "0123456789"[d]
  }

  /** The decimal spelling of a natural number, without leading zeros. */
  function NatToDecimal(n: nat): (r: string)
    ensures |r| >= 1
    decreases n
  {
    if n < 10 then [DigitChar(n)] else NatToDecimal(n / 10) + [DigitChar(n % 10)]
  }

  function IntToDecimal(n: int): string {
    if n < 0 then "-" + NatToDecimal(-n) else NatToDecimal(n)
  }

  /** `String(v)`, which is also what `v.toString()` and a template literal produce; the
      elements of an array are joined with commas, a nullish element giving "". */
  function ToStr(v: Value): string
    decreases v
  {
    match v
    case Undefined => "undefined"
    case Null => "null"
    case Bool(b) => if b then "true" else "false"
    case Num(n) => IntToDecimal(n)
    case Str(s) => s
    case Arr(items) =>
      Join(seq(|items|, i requires 0 <= i < |items| =>
        if Nullish(items[i]) then "" else ToStr(items[i])), ',')
    case Obj(_) => "[object Object]"
  }

  /** Upper-casing of one character; only the ASCII letters are mapped. */
  function UpperChar(c: char): char {
    if 'a' <= c <= 'z' then (c as int - 32) as char else c
  }

  function ToUpper(s: string): (r: string)
    ensures |r| == |s|
    ensures forall i :: 0 <= i < |s| ==> r[i] == UpperChar(s[i])
  {
    if s == [] then [] else [UpperChar(s[0])] + ToUpper(s[1..])
  }

  /** The position of the first occurrence of `c` in `s`. */
  function IndexOf(s: string, c: char): (i: nat)
    requires c in s
    ensures i < |s| && s[i] == c && c !in s[..i]
  {
    if s[0] == c then 0 else 1 + IndexOf(s[1..], c)
  }

  /** `s.split(sep)` for a one-character separator: the pieces between separators, in order.
      There is always one piece more than there are separators, so `"".split(" ")` is `[""]`. */
  function Split(s: string, sep: char): (words: seq<string>)
    ensures |words| >= 1
    decreases |s|
  {
    if sep !in s then [s]
    else
      var i := IndexOf(s, sep);
      [s[..i]] + Split(s[i + 1..], sep)
  }

  /** `parts.join(sep)` for a one-character separator. */
  function Join(parts: seq<string>, sep: char): string {
    if |parts| == 0 then ""
    else if |parts| == 1 then parts[0]
    else parts[0] + [sep] + Join(parts[1..], sep)
  }

  /** `parts.join("")`. */
  function Concat(parts: seq<string>): (r: string)
    ensures |parts| == 0 ==> r == ""
  {
    if |parts| == 0 then "" else parts[0] + Concat(parts[1..])
  }

  /** Splitting and joining again on the same separator gives the string back. */
  lemma {:induction false} JoinSplit(s: string, sep: char)
    ensures Join(Split(s, sep), sep) == s
    decreases |s|
  {
    if sep in s {
      var i := IndexOf(s, sep);
      var rest := s[i + 1..];
      JoinSplit(rest, sep);
      var tail := Split(rest, sep);
      assert Split(s, sep) == [s[..i]] + tail;
      assert ([s[..i]] + tail)[1..] == tail;
      assert s == s[..i] + [sep] + rest;
    }
  }

  /** No piece of a split contains the separator. */
  lemma {:induction false} SplitPiecesFree(s: string, sep: char)
    ensures forall k :: 0 <= k < |Split(s, sep)| ==> sep !in Split(s, sep)[k]
    decreases |s|
  {
    if sep in s {
      var i := IndexOf(s, sep);
      SplitPiecesFree(s[i + 1..], sep);
    }
  }

  /** The first piece of a split is the text before the first separator, and the second piece,
      when there is one, is the first piece of what follows that separator. */
  lemma SplitHead(s: string, sep: char)
    ensures sep !in s ==> Split(s, sep) == [s]
    ensures sep in s ==>
              && Split(s, sep)[0] == s[..IndexOf(s, sep)]
              && |Split(s, sep)| >= 2
              && Split(s, sep)[1] == Split(s[IndexOf(s, sep) + 1..], sep)[0]
  {
  }
}
