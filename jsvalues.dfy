/**
 * The slice of JavaScript value semantics the server relies on: the values a
 * client can put in a JSON payload, truthiness, `String(v)`, `==`,
 * `toLowerCase` on ASCII letters, `Array.prototype.indexOf` and a one-element
 * `splice`.
 */
module JsValues {

  datatype Option<T> = None | Some(value: T)

  /** A JSON value as the server sees it (numbers are integers; objects and
      arrays inside arguments are not modelled). */
  datatype Value = Undefined | Null | Bool(b: bool) | Num(n: int) | Str(s: string)

  /** JavaScript truthiness: `undefined`, `null`, `false`, `0` and `""` are falsy. */
  predicate Truthy(v: Value)
  {
    match v
    case Undefined => false
    case Null => false
    case Bool(b) => b
    case Num(n) => n != 0
    case Str(s) => s != ""
  }

  predicate IsDigit(c: char)
  {
    '0' <= c <= '9'
  }

  predicate AllDigits(s: string)
  {
    forall i :: 0 <= i < |s| ==> IsDigit(s[i])
  }

  function DigitChar(d: nat): (c: char)
    requires d < 10
    ensures IsDigit(c) && c as int - '0' as int == d
  {
    ('0' as int + d) as char
  }

  /** Decimal notation of a natural number, without leading zeros. */
  function NatToString(n: nat): (s: string)
    ensures |s| > 0 && AllDigits(s)
    decreases n
  {
    if n < 10 then [DigitChar(n)] else NatToString(n / 10) + [DigitChar(n % 10)]
  }

  /** The number a string of decimal digits denotes, as `parseInt` reads it. */
  function DigitsValue(s: string): nat
    requires AllDigits(s)
    decreases |s|
  {
    if s == [] then 0
    else DigitsValue(s[..|s| - 1]) * 10 + (s[|s| - 1] as int - '0' as int)
  }

  /** Reading back the decimal notation of `n` gives `n`. */
  lemma {:induction false} DigitsValueOfNatToString(n: nat)
    ensures DigitsValue(NatToString(n)) == n
    decreases n
  {
    if n >= 10 {
      var s := NatToString(n);
      assert s[..|s| - 1] == NatToString(n / 10);
      DigitsValueOfNatToString(n / 10);
    }
  }

  function IntToString(i: int): string
  {
    if i < 0 then "-" + NatToString(-i) else NatToString(i)
  }

  /** `String(v)`, as used when a value is concatenated into an alert. */
  function ToStr(v: Value): string
  {
    match v
    case Undefined => "undefined"
    case Null => "null"
    case Bool(b) => if b then "true" else "false"
    case Num(n) => IntToString(n)
    case Str(s) => s
  }

  /** Abstract equality `a == b` between two JSON values. */
  predicate LooseEquals(a: Value, b: Value)
  {
    if (a.Undefined? || a.Null?) && (b.Undefined? || b.Null?) then true
    else if a.Undefined? || a.Null? || b.Undefined? || b.Null? then false
    else if a.Str? && b.Num? then a.s == IntToString(b.n)
    else if a.Num? && b.Str? then IntToString(a.n) == b.s
    else a == b
  }

  function LowerChar(c: char): char
  {
    if 'A' <= c <= 'Z' then (c as int + 32) as char else c
  }

  /** `s.toLowerCase()` on ASCII letters. */
  function Lower(s: string): (r: string)
    ensures |r| == |s|
    ensures forall i :: 0 <= i < |s| ==> r[i] == LowerChar(s[i])
    ensures forall i :: 0 <= i < |r| ==> !('A' <= r[i] <= 'Z')
  {
    seq(|s|, i requires 0 <= i < |s| => LowerChar(s[i]))
  }

  /** Lower-casing twice is lower-casing once. */
  lemma LowerIdempotent(s: string)
    ensures Lower(Lower(s)) == Lower(s)
  {
    var l := Lower(s);
    assert forall i :: 0 <= i < |l| ==> LowerChar(l[i]) == l[i];
  }

  /** `Array.prototype.indexOf`: the first position of `x`, or -1. */
  function IndexOf<T(==)>(s: seq<T>, x: T): (r: int)
    ensures r == -1 <==> x !in s
    ensures r != -1 ==> 0 <= r < |s| && s[r] == x && x !in s[..r]
    decreases |s|
  {
    if s == [] then -1
    else if s[0] == x then 0
    else
      var k := IndexOf(s[1..], x);
      assert k != -1 ==> s[..k + 1] == [s[0]] + s[1..][..k];
      if k == -1 then -1 else k + 1
  }

  /** `let i = s.indexOf(x); if (i != -1) s.splice(i, 1);`: drops the first
      occurrence of `x` and keeps everything else in order. */
  function SpliceOut<T(==)>(s: seq<T>, x: T): seq<T>
  {
    var i := IndexOf(s, x);
    if i == -1 then s else s[..i] + s[i + 1..]
  }

  /** The splice removes exactly one copy of `x` when there is one, the
      first, and keeps the rest in order. */
  lemma SpliceOutRemovesFirst<T>(s: seq<T>, x: T)
    ensures x !in s ==> SpliceOut(s, x) == s
    ensures x in s ==> |SpliceOut(s, x)| == |s| - 1
    ensures multiset(SpliceOut(s, x)) == multiset(s) - multiset{x}
    ensures x in s ==> exists i :: 0 <= i < |s| && s[i] == x && x !in s[..i] && SpliceOut(s, x) == s[..i] + s[i + 1..]
  {
    var i := IndexOf(s, x);
    if i != -1 {
      assert s == s[..i] + [x] + s[i + 1..];
    }
  }
}
