/** JavaScript value semantics that the property-search code relies on:
    optional fields, truthiness, `String.prototype.slice`, and the decimal
    rendering of a number inside a template literal. */
module JsValues {

  /** An object property that may be absent (`undefined`). */
  datatype Option<+T> = None | Some(value: T)

  /** `if (x)` for a numeric option: `undefined` and `0` are falsy. */
  predicate TruthyNumber(x: Option<int>) {
    x.Some? && x.value != 0
  }

  /** `if (x)` for a string option: `undefined` and `""` are falsy. */
  predicate TruthyString(x: Option<string>) {
    x.Some? && x.value != ""
  }

  function Min(a: int, b: int): int {
    if a <= b then a else b
  }

  /** `s.slice(start, end)` for non-negative arguments: both bounds are
      clamped to the length, and an end at or before the start gives "". */
  function Slice(s: string, start: nat, end: nat): (r: string)
    ensures |r| <= |s|
    ensures |r| > 0 ==> start + |r| <= |s|
    ensures forall i :: 0 <= i < |r| ==> r[i] == s[start + i]
    ensures start + |r| == Min(end, |s|) || (|r| == 0 && Min(end, |s|) <= start)
  {
    var from := Min(start, |s|);
    var to := Min(end, |s|);
    if from < to then s[from..to] else ""
  }

  predicate IsDigit(c: char) {
    '0' <= c <= '9'
  }

  predicate AllDigits(s: string) {
    forall i :: 0 <= i < |s| ==> IsDigit(s[i])
  }

  function DigitChar(d: nat): (c: char)
    requires d < 10
    ensures IsDigit(c)
    ensures c as int - '0' as int == d
  {
    ('0' as int + d) as char
  }

  /** `${n}` in a template literal, for a non-negative integer `n`: its
      decimal digits, most significant first, without leading zeros. */
  function DecimalString(n: nat): (r: string)
    ensures |r| > 0
    ensures AllDigits(r)
    ensures r[0] == '0' ==> n == 0
  {
    if n < 10 then [DigitChar(n)] else DecimalString(n / 10) + [DigitChar(n % 10)]
  }

  /** The number a string of decimal digits denotes. */
  function DecimalValue(s: string): nat
    requires AllDigits(s)
  {
    if |s| == 0 then 0
    else DecimalValue(s[..|s| - 1]) * 10 + (s[|s| - 1] as int - '0' as int)
  }

  /** Reading back a rendered number gives the number. */
  lemma {:induction false} DecimalRoundTrip(n: nat)
    ensures DecimalValue(DecimalString(n)) == n
  {
    if n >= 10 {
      var r := DecimalString(n);
      DecimalRoundTrip(n / 10);
      assert r[..|r| - 1] == DecimalString(n / 10);
    }
  }

  /** Distinct numbers render as distinct strings. */
  lemma DecimalStringInjective(m: nat, n: nat)
    requires DecimalString(m) == DecimalString(n)
    ensures m == n
  {
    DecimalRoundTrip(m);
    DecimalRoundTrip(n);
  }
}
