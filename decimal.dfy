/** Decimal text as the Java code produces and consumes it: `String.format("%0Nd", n)`,
    `String.valueOf(n)` for non-negative n, and `Integer.parseInt(s)`. */
module Decimal {
  import opened Errors

  const MinInt32: int := -0x8000_0000
  const MaxInt32: int := 0x7fff_ffff

  /** Java's `int`. */
  type Int32 = x: int | MinInt32 <= x <= MaxInt32

  predicate IsDigit(c: char) {
    '0' <= c <= '9'
  }

  /** The character class `[A-Z0-9]`. */
  predicate IsUpperAlnum(c: char) {
    '0' <= c <= '9' || 'A' <= c <= 'Z'
  }

  predicate AllDigits(s: string) {
    forall i :: 0 <= i < |s| ==> IsDigit(s[i])
  }

  predicate AllUpperAlnum(s: string) {
    forall i :: 0 <= i < |s| ==> IsUpperAlnum(s[i])
  }

  /** `c - '0'` on the character code, for any character. */
  function CharValue(c: char): int {
    c as int - '0' as int
  }

  function DigitChar(d: int): (c: char)
    requires 0 <= d <= 9
    ensures IsDigit(c) && CharValue(c) == d
  {
    ('0' as int + d) as char
  }

  function Pow10(n: nat): (p: nat)
    ensures p >= 1
  {
    if n == 0 then 1 else 10 * Pow10(n - 1)
  }

  /** The last `width` decimal digits of `n`, zero-padded on the left; for
      `n < Pow10(width)` this is exactly `String.format("%0<width>d", n)`. */
  function Digits(n: nat, width: nat): (r: string)
    ensures |r| == width && AllDigits(r)
  {
    if width == 0 then [] else Digits(n / 10, width - 1) + [DigitChar(n % 10)]
  }

  /** `String.valueOf(n)` for a non-negative `n`: no padding, no sign. */
  function ToDecimal(n: nat): (r: string)
    ensures 1 <= |r| && AllDigits(r)
  {
    if n < 10 then [DigitChar(n)] else ToDecimal(n / 10) + [DigitChar(n % 10)]
  }

  /** The number a string of decimal digits denotes, most significant digit first. */
  function Value(s: string): (v: int)
    ensures AllDigits(s) ==> 0 <= v < Pow10(|s|)
  {
    if s == [] then 0 else 10 * Value(s[..|s| - 1]) + CharValue(s[|s| - 1])
  }

  /** `Integer.parseInt(s)` (radix 10, ASCII digits): an optional sign, at least
      one digit, and a value that fits in an `int`; `None` where Java throws
      NumberFormatException. */
  function ParseInt(s: string): (r: Option<Int32>)
    // what is accepted is an optional sign followed by at least one decimal digit
    ensures r.Some? ==> 1 <= |s| && AllDigits(s[1..]) &&
                        (IsDigit(s[0]) || (2 <= |s| && (s[0] == '-' || s[0] == '+')))
    // only a minus sign gives a negative value
    ensures r.Some? && r.value < 0 ==> s[0] == '-'
    // a digit string, leading zeros and all, is accepted exactly when its value fits in an `int`
    ensures 1 <= |s| && AllDigits(s) ==> (r.Some? <==> Value(s) <= MaxInt32)
    ensures r.Some? && AllDigits(s) ==> r.value == Value(s)
  {
    if |s| == 0 then None
    else if s[0] == '-' || s[0] == '+' then
      if |s| == 1 || !AllDigits(s[1..]) then None
      else
        var v := if s[0] == '-' then -Value(s[1..]) else Value(s[1..]);
        if MinInt32 <= v <= MaxInt32 then Some(v) else None
    else if !AllDigits(s) || Value(s) > MaxInt32 then None
    else Some(Value(s))
  }

  /** Reading back a fixed-width rendering gives the number rendered. */
  lemma {:induction false} ValueOfDigits(n: nat, width: nat)
    requires n < Pow10(width)
    ensures Value(Digits(n, width)) == n
  {
    if width > 0 {
      var r := Digits(n, width);
      assert r[..width - 1] == Digits(n / 10, width - 1);
      ValueOfDigits(n / 10, width - 1);
    }
  }

  /** A digit string is the fixed-width rendering of its own value: the rendering is canonical. */
  lemma {:induction false} DigitsOfValue(s: string)
    requires AllDigits(s)
    ensures Value(s) < Pow10(|s|)
    ensures Digits(Value(s), |s|) == s
  {
    if s != [] {
      var init := s[..|s| - 1];
      DigitsOfValue(init);
      var v := Value(s);
      assert v / 10 == Value(init) && v % 10 == CharValue(s[|s| - 1]);
      assert s == init + [s[|s| - 1]];
    }
  }

  /** `String.valueOf(n)` of a number with exactly `width` digits is its `%0<width>d` rendering. */
  lemma {:induction false} ToDecimalIsDigits(n: nat, width: nat)
    requires 1 <= width && Pow10(width - 1) <= n < Pow10(width)
    ensures ToDecimal(n) == Digits(n, width)
  {
    if width > 1 {
      PowMonotone(1, width - 1);
      ToDecimalIsDigits(n / 10, width - 1);
    }
  }

  /** `Integer.parseInt` reads back every `%0<width>d` rendering of a small enough number. */
  lemma {:induction false} ParseIntOfDigits(n: nat, width: nat)
    requires 1 <= width <= 9 && n < Pow10(width)
    ensures ParseInt(Digits(n, width)) == Some(n)
  {
    var r := Digits(n, width);
    ValueOfDigits(n, width);
    PowMonotone(width, 9);
    assert IsDigit(r[0]);
  }

  lemma {:induction false} PowMonotone(a: nat, b: nat)
    requires a <= b
    ensures Pow10(a) <= Pow10(b)
  {
    if a < b {
      PowMonotone(a, b - 1);
    }
  }

  /** On text of at most nine characters from `[A-Z0-9]` (which has no sign),
      `Integer.parseInt` succeeds exactly on non-empty digit strings, with their value. */
  lemma {:induction false} ParseIntOnUpperAlnum(s: string)
    requires 1 <= |s| <= 9 && AllUpperAlnum(s)
    ensures ParseInt(s).Some? <==> AllDigits(s)
    ensures ParseInt(s).Some? ==> ParseInt(s).value == Value(s)
  {
    assert IsUpperAlnum(s[0]);
    if AllDigits(s) {
      PowMonotone(|s|, 9);
    }
  }
}
