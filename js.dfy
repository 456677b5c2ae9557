/**
 * The few JavaScript built-ins the contact manager's logic depends on, with
 * the semantics of the ECMAScript specification for the cases that occur:
 * `Array.prototype.slice`, `String(n)` for an integer, and `Number(x)` for
 * a response header that is either `null` or a string.
 */
module Js {
  import opened Wrappers

  // ---------------------------------------------------------------------
  // Array.prototype.slice
  // ---------------------------------------------------------------------

  /** A relative index resolved against a length: a negative index counts
      from the back, and the result is clamped to 0 .. len. */
  function RelativeIndex(rel: int, len: nat): (r: nat)
    ensures r <= len
    ensures rel >= 0 ==> r == if rel < len then rel else len
    ensures rel < 0 ==> r == if len + rel > 0 then len + rel else 0
  {
    if rel < 0 then (if len + rel > 0 then len + rel else 0)
    else if rel < len then rel else len
  }

  /** `s.slice(start, end)` for integer arguments. */
  function Slice<T>(s: seq<T>, start: int, end: int): (r: seq<T>)
    ensures |r| <= |s|
    ensures |r| == if RelativeIndex(start, |s|) < RelativeIndex(end, |s|)
                   then RelativeIndex(end, |s|) - RelativeIndex(start, |s|) else 0
    ensures forall i :: 0 <= i < |r| ==> r[i] == s[RelativeIndex(start, |s|) + i]
  {
    var from, to := RelativeIndex(start, |s|), RelativeIndex(end, |s|);
    if from < to then s[from..to] else []
  }

  /** `s.slice(0, end)` is always a prefix of `s`: of length `end` clamped to
      `|s|` for a non-negative end, and of length `|s| + end` (at least 0)
      for a negative one. */
  lemma SliceFromStartIsPrefix<T>(s: seq<T>, end: int)
    ensures end >= 0 ==> Slice(s, 0, end) == s[..if end < |s| then end else |s|]
    ensures end < 0 ==> Slice(s, 0, end) == s[..if |s| + end > 0 then |s| + end else 0]
  {
  }

  // ---------------------------------------------------------------------
  // Decimal digits: String(n) and Number(s)
  // ---------------------------------------------------------------------

  predicate IsDigit(c: char) { '0' <= c <= '9' }

  predicate AllDigits(s: string) { forall i :: 0 <= i < |s| ==> IsDigit(s[i]) }

  function DigitValue(c: char): (d: nat)
    requires IsDigit(c)
    ensures d < 10
  {
    (c as int - '0' as int) as nat
  }

  function DigitChar(d: nat): (c: char)
    requires d < 10
    ensures IsDigit(c) && DigitValue(c) == d
  {
    ('0' as int + d) as char
  }

  /** The value of a run of decimal digits, read most significant first;
      the empty run has value 0. */
  function DecimalValue(s: string): nat
    requires AllDigits(s)
    decreases |s|
  {
    if s == [] then 0 else 10 * DecimalValue(s[..|s| - 1]) + DigitValue(s[|s| - 1])
  }

  /** `String(n)` for a non-negative integer: its shortest decimal spelling. */
  function DecimalString(n: nat): (s: string)
    ensures AllDigits(s) && 1 <= |s|
    ensures |s| > 1 ==> s[0] != '0'
  {
    if n < 10 then [DigitChar(n)] else DecimalString(n / 10) + [DigitChar(n % 10)]
  }

  /** Reading back the decimal spelling of `n` gives `n`. */
  lemma {:induction false} DecimalRoundTrip(n: nat)
    ensures DecimalValue(DecimalString(n)) == n
  {
    if n >= 10 {
      var s := DecimalString(n);
      DecimalRoundTrip(n / 10);
      assert s[..|s| - 1] == DecimalString(n / 10);
    }
  }

  /** `String(i)` for an integer: a minus sign before the digits of a
      negative one. */
  function IntToString(i: int): (s: string)
    ensures i >= 0 ==> AllDigits(s) && DecimalValue(s) == i
    ensures i < 0 ==> |s| >= 2 && s[0] == '-' && AllDigits(s[1..]) && DecimalValue(s[1..]) == -i
  {
    if i >= 0 then
      DecimalRoundTrip(i);
      DecimalString(i)
    else
      DecimalRoundTrip(-i);
      assert ("-" + DecimalString(-i))[1..] == DecimalString(-i);
      "-" + DecimalString(-i)
  }

  /** The result of `Number(x)` where only whole, non-negative values are
      told apart; everything else is `NaN` here. */
  datatype JsNumber = Num(value: nat) | NaN {
    /** JavaScript truthiness of a number: neither 0 nor NaN. */
    predicate Truthy() { Num? && value != 0 }
  }

  /** `Number(h)` for the value of `response.headers.get(...)`, which is
      `null` when the header is absent: `Number(null)` and `Number("")` are
      0, and a run of digits has its decimal value. */
  function HeaderNumber(h: Option<string>): (r: JsNumber)
    ensures h.None? ==> r == Num(0)
    ensures h == Some("") ==> r == Num(0)
    ensures h.Some? && AllDigits(h.value) ==> r == Num(DecimalValue(h.value))
    ensures h.Some? && !AllDigits(h.value) ==> r == NaN
  {
    match h
    case None => Num(0)
    case Some(s) => if AllDigits(s) then Num(DecimalValue(s)) else NaN
  }

  /** A header that carries `String(n)` is read back as `n`. */
  lemma HeaderNumberOfDecimal(n: nat)
    ensures HeaderNumber(Some(DecimalString(n))) == Num(n)
  {
    DecimalRoundTrip(n);
  }
}
