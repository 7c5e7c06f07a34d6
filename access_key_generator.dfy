/** The weighted modulo-11 check digit of an access key (`calcModulo112`). */
module AccessKeyGenerator {
  import opened Decimal

  /** The weight of the character `distance` places left of the last one:
      2 for the last character, rising to 9, then starting again at 2. */
  function Weight(distance: nat): (w: int)
    ensures 2 <= w <= 9
  {
    2 + distance % 8
  }

  /** The weighted sum of `s` as the part of a base that `after` more characters follow:
      every character counts as its code minus the code of '0' (so a letter counts as
      17..42), times the weight of its distance from the end of the base. */
  function OffsetSum(s: string, after: nat): int
  {
    if s == [] then 0 else CharValue(s[0]) * Weight(after + |s| - 1) + OffsetSum(s[1..], after)
  }

  /** The weighted sum over a whole base. */
  function WeightedSum(s: string): int
  {
    OffsetSum(s, 0)
  }

  /** Java's `%` on `int`: the remainder takes the sign of the dividend. */
  function JavaRem(a: int, b: int): (r: int)
    requires b > 0
    ensures a >= 0 ==> r == a % b
    ensures -b < r < b
  {
    if a >= 0 then a % b else -((-a) % b)
  }

  /** The check digit of a base. It is always one decimal digit, and whenever the
      remainder is not 1 (the case where 11 - 1 = 10 does not fit and 0 is written
      instead) the sum plus the digit is a multiple of 11. */
  function CheckDigit(base: string): (d: int)
    ensures 0 <= d <= 9
    ensures WeightedSum(base) >= 0 && JavaRem(WeightedSum(base), 11) != 1 ==>
      (WeightedSum(base) + d) % 11 == 0
    ensures JavaRem(WeightedSum(base), 11) == 1 ==> d == 0
  {
    var r := JavaRem(WeightedSum(base), 11);
    if r < 2 then 0 else 11 - r
  }

  /** `calcModulo112`: one pass from the last character to the first, carrying the
      running sum and the cycling weight. */
  method CalcModulo11(base: string) returns (dv: int)
    ensures dv == CheckDigit(base)
  {
    var sum := 0;
    var weight := 2;
    var i := |base| - 1;
    while i >= 0
      invariant -1 <= i < |base|
      invariant sum == WeightedSum(base[i + 1..])
      invariant weight == Weight(|base| - 1 - i)
    {
      assert base[i..][1..] == base[i + 1..];
      var digit := CharValue(base[i]);
      sum := sum + digit * weight;
      WeightStep(|base| - 1 - i);
      weight := if weight == 9 then 2 else weight + 1;
      i := i - 1;
    }
    assert base[0..] == base;
    var mod := JavaRem(sum, 11);
    dv := if mod < 2 then 0 else 11 - mod;
  }

  /** Moving one place left raises the weight by one, wrapping from 9 back to 2. */
  lemma {:induction false} WeightStep(distance: nat)
    ensures Weight(distance + 1) == if Weight(distance) == 9 then 2 else Weight(distance) + 1
  {
  }

  /** A base sums part by part: the front part counts as followed by the back one. */
  lemma {:induction false} OffsetSumConcat(a: string, b: string, after: nat)
    ensures OffsetSum(a + b, after) == OffsetSum(a, after + |b|) + OffsetSum(b, after)
  {
    if a == [] {
      assert a + b == b;
    } else {
      assert (a + b)[1..] == a[1..] + b;
      OffsetSumConcat(a[1..], b, after);
    }
  }

  /** A character with `|rest|` characters after it in a base counts with weight
      `Weight(|rest|)`, that is `2 + (n - 1 - i) % 8` at index `i` of a base of length `n`. */
  lemma {:induction false} SumAround(front: string, c: char, rest: string)
    ensures WeightedSum(front + [c] + rest) ==
      OffsetSum(front, |rest| + 1) + CharValue(c) * Weight(|rest|) + WeightedSum(rest)
  {
    OffsetSumConcat(front + [c], rest, 0);
    OffsetSumConcat(front, [c], |rest|);
    SingleSum(c, |rest|);
  }

  lemma {:induction false} SingleSum(c: char, after: nat)
    ensures OffsetSum([c], after) == CharValue(c) * Weight(after)
  {
    assert [c][1..] == [];
    assert after + |[c]| - 1 == after;
  }

  /** The weights repeat every eight places, so eight more characters after a part
      leave its sum unchanged. */
  lemma {:induction false} OffsetSumPeriodic(s: string, after: nat)
    ensures OffsetSum(s, after + 8) == OffsetSum(s, after)
  {
    if s != [] {
      assert Weight(after + 8 + |s| - 1) == Weight(after + |s| - 1);
      OffsetSumPeriodic(s[1..], after);
    }
  }

  /** Over `[A-Z0-9]` every term lies in 0..42 * 9, so the sum of a 43-character base is
      at most 16,254: Java's `int` does not overflow and its `%` agrees with the
      mathematical remainder. */
  lemma {:induction false} SumBound(s: string)
    requires AllUpperAlnum(s)
    ensures 0 <= WeightedSum(s) <= 378 * |s|
  {
    if s != [] {
      assert IsUpperAlnum(s[0]);
      TermBound(CharValue(s[0]), Weight(|s| - 1));
      SumBound(s[1..]);
    }
  }

  lemma {:induction false} TermBound(v: int, w: int)
    requires 0 <= v <= 42 && 2 <= w <= 9
    ensures 0 <= v * w <= 378
  {
  }

  /** A weight times a non-zero digit difference is never a multiple of 11. */
  lemma {:induction false} WeightedDifferenceNonZero(delta: int, w: int)
    requires 1 <= delta <= 9 || -9 <= delta <= -1
    requires 2 <= w <= 9
    ensures (delta * w) % 11 != 0
  {
    if delta == -9 { assert delta * w == -9 * w; }
    else if delta == -8 { assert delta * w == -8 * w; }
    else if delta == -7 { assert delta * w == -7 * w; }
    else if delta == -6 { assert delta * w == -6 * w; }
    else if delta == -5 { assert delta * w == -5 * w; }
    else if delta == -4 { assert delta * w == -4 * w; }
    else if delta == -3 { assert delta * w == -3 * w; }
    else if delta == -2 { assert delta * w == -2 * w; }
    else if delta == -1 { assert delta * w == -1 * w; }
    else if delta == 1 { assert delta * w == 1 * w; }
    else if delta == 2 { assert delta * w == 2 * w; }
    else if delta == 3 { assert delta * w == 3 * w; }
    else if delta == 4 { assert delta * w == 4 * w; }
    else if delta == 5 { assert delta * w == 5 * w; }
    else if delta == 6 { assert delta * w == 6 * w; }
    else if delta == 7 { assert delta * w == 7 * w; }
    else if delta == 8 { assert delta * w == 8 * w; }
    else if delta == 9 { assert delta * w == 9 * w; }
  }

  /** Replacing one decimal digit of a base by another always changes the weighted sum
      modulo 11; the check digit then changes too, except when the two remainders are
      0 and 1, which both give the digit 0. */
  lemma {:induction false} DigitSubstitutionChangesSum(a: string, c: char, c': char, b: string)
    requires IsDigit(c) && IsDigit(c') && c != c'
    ensures WeightedSum(a + [c] + b) % 11 != WeightedSum(a + [c'] + b) % 11
  {
    var x, y := WeightedSum(a + [c] + b), WeightedSum(a + [c'] + b);
    var delta := CharValue(c) - CharValue(c');
    SubstitutionDifference(a, c, c', b);
    WeightedDifferenceNonZero(delta, Weight(|b|));
    if x % 11 == y % 11 {
      EqualRemainders(x, y);
      assert false;
    }
  }

  lemma {:induction false} EqualRemainders(x: int, y: int)
    requires x % 11 == y % 11
    ensures (x - y) % 11 == 0
  {
    assert x - y == 11 * (x / 11 - y / 11);
  }

  lemma {:induction false} SubstitutionDifference(a: string, c: char, c': char, b: string)
    ensures WeightedSum(a + [c] + b) - WeightedSum(a + [c'] + b) == (CharValue(c) - CharValue(c')) * Weight(|b|)
  {
    SumAround(a, c, b);
    SumAround(a, c', b);
    Distribute(CharValue(c), CharValue(c'), Weight(|b|));
  }

  lemma {:induction false} Distribute(u: int, v: int, w: int)
    ensures u * w - v * w == (u - v) * w
  {
  }
}
