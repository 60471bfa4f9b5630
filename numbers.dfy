/**
 * The `pitch` and `speed` handlers as written, over JavaScript numbers.
 * They parse their argument, return on `NaN`, and then clamp
 * `parseInt(x)` of the number `x` already parsed, which goes through
 * `String(x)` a second time. For numbers of magnitude 10^21 or more
 * `String` switches to exponent notation and for the infinities it gives
 * "Infinity", so the second parse does not give `x` back there. The rest
 * of the model clamps the first parse (`Commands.Clamp`).
 */
module Numbers {
  import opened JsValues
  import opened Commands

  /** An integer-valued JavaScript number, as `parseInt` can produce one. */
  datatype Number = Finite(v: int) | PosInfinity | NegInfinity | NaN

  function Pow10(k: nat): (r: nat)
    ensures r > 0
  {
    if k == 0 then 1 else 10 * Pow10(k - 1)
  }

  /** From this magnitude on, `String(x)` writes `x` in exponent notation. */
  const ExponentFrom: nat := Pow10(21)

  /** The first decimal digit of `n`. */
  function LeadingDigit(n: nat): (d: nat)
    ensures d < 10
    ensures n > 0 ==> d > 0
    decreases n
  {
    if n < 10 then n else LeadingDigit(n / 10)
  }

  function Abs(v: int): nat
  {
    if v < 0 then -v else v
  }

  function Signed(negative: bool, n: nat): int
  {
    if negative then -(n as int) else n
  }

  /** `parseInt(String(x))`. Below 10^21 in magnitude `String` writes the
      decimal digits, which are read back. From there on it writes the
      first digit followed by "." or "e+", so only that digit is read (the
      first digit of the exact value: a shortest round-trip form that rounds
      up to the next power of ten is not captured). "Infinity" and "NaN" are
      not digits at all. */
  function Reparse(x: Number): Number
  {
    match x
    case Finite(v) =>
      if Abs(v) < ExponentFrom then Finite(Signed(v < 0, DigitsValue(NatToString(Abs(v)))))
      else Finite(Signed(v < 0, LeadingDigit(Abs(v))))
    case _ => NaN
  }

  /** `Math.min(a, b)` for a finite `b`: `NaN` wins. */
  function MathMin(a: Number, b: int): Number
  {
    match a
    case NaN => NaN
    case PosInfinity => Finite(b)
    case NegInfinity => NegInfinity
    case Finite(v) => Finite(if v < b then v else b)
  }

  /** `Math.max(a, b)` for a finite `b`: `NaN` wins. */
  function MathMax(a: Number, b: int): Number
  {
    match a
    case NaN => NaN
    case PosInfinity => PosInfinity
    case NegInfinity => Finite(b)
    case Finite(v) => Finite(if v > b then v else b)
  }

  /** The `pitch`/`speed` handler as written, given the first parse
      `first`: `None` where `isNaN` makes it return, else the value stored
      in `this.public`. */
  function StoredAsWritten(first: Number, lo: int, hi: int): (r: Option<Number>)
    ensures r.None? <==> first.NaN?
  {
    if first.NaN? then None else Some(MathMax(MathMin(Reparse(first), hi), lo))
  }

  /** The decimal form of an integer reads back as that integer. */
  lemma {:induction false} ReparseBelowExponent(v: int)
    requires Abs(v) < ExponentFrom
    ensures Reparse(Finite(v)) == Finite(v)
  {
    DigitsValueOfNatToString(Abs(v));
  }

  /** Below 10^21 in magnitude the handler as written stores exactly the
      clamp of the first parse. */
  lemma StoredAsWrittenBelowExponent(v: int, lo: int, hi: int)
    requires Abs(v) < ExponentFrom
    ensures StoredAsWritten(Finite(v), lo, hi) == Some(Finite(Clamp(v, lo, hi)))
  {
    ReparseBelowExponent(v);
  }

  lemma {:induction false} LeadingDigitOfPow10(k: nat)
    ensures LeadingDigit(Pow10(k)) == 1
  {
    if k > 0 {
      assert Pow10(k) / 10 == Pow10(k - 1);
      LeadingDigitOfPow10(k - 1);
    }
  }

  /** As written, an argument that `parseInt` reads as `Infinity` (a value
      from about 1.798e308 on: 310 or more digits, or 309 nines) stores
      `NaN`, whatever the bounds; and the argument 10^21 with bounds
      [0, 100] stores 1, where the clamp of the first parse is 100. */
  lemma StoredAsWrittenLeavesBounds(lo: int, hi: int)
    ensures StoredAsWritten(PosInfinity, lo, hi) == Some(NaN)
    ensures StoredAsWritten(NegInfinity, lo, hi) == Some(NaN)
    ensures StoredAsWritten(Finite(ExponentFrom), 0, 100) == Some(Finite(1))
    ensures Clamp(ExponentFrom, 0, 100) == 100
  {
    LeadingDigitOfPow10(21);
  }
}
