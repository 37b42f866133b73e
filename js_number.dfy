/**
 * JavaScript number operations the source applies to integers, stated exactly:
 * `Math.round` of a ratio, the remainder operator `%`, `Math.floor` of a
 * division, and `parseInt` (ECMA-262, section 19.2.5).
 */
module JsNumber {
  import opened Wrappers
  import opened JsText

  /**
   * `Math.round(p / q)` for `q > 0`: the integer nearest to `p / q`, halves
   * rounded towards positive infinity.
   */
  function RoundHalfUp(p: int, q: int): (r: int)
    requires q > 0
    ensures 2 * q * r - q <= 2 * p < 2 * q * r + q
  {
    var r := (2 * p + q) / (2 * q);
    assert 2 * q * r <= 2 * p + q < 2 * q * r + 2 * q by {
      var m := (2 * p + q) % (2 * q);
      assert 2 * p + q == 2 * q * r + m && 0 <= m < 2 * q;
    }
    r
  }

  /** Cancelling a positive factor on both sides of a strict inequality. */
  lemma CancelFactor(q: int, a: int, b: int)
    requires q > 0 && q * a < q * b
    ensures a < b
  {
  }

  /** The defining bounds of `RoundHalfUp` leave exactly one integer. */
  lemma RoundHalfUpUnique(p: int, q: int, r: int)
    requires q > 0
    requires 2 * q * r - q <= 2 * p < 2 * q * r + q
    ensures r == RoundHalfUp(p, q)
  {
    var k := RoundHalfUp(p, q);
    assert q * r < q * (k + 1);
    CancelFactor(q, r, k + 1);
    assert q * k < q * (r + 1);
    CancelFactor(q, k, r + 1);
  }

  /** Rounding a ratio of a non-negative numerator and a positive denominator gives a non-negative result. */
  lemma RoundHalfUpNonNegative(p: int, q: int)
    requires p >= 0 && q > 0
    ensures RoundHalfUp(p, q) >= 0
  {
    var r := RoundHalfUp(p, q);
    assert q * 0 < q * (2 * r + 1);
    CancelFactor(q, 0, 2 * r + 1);
  }

  /** Rounding is monotone in the numerator. */
  lemma RoundHalfUpMonotone(p1: int, p2: int, q: int)
    requires q > 0 && p1 <= p2
    ensures RoundHalfUp(p1, q) <= RoundHalfUp(p2, q)
  {
    var r1, r2 := RoundHalfUp(p1, q), RoundHalfUp(p2, q);
    assert q * r1 < q * (r2 + 1);
    CancelFactor(q, r1, r2 + 1);
  }

  /** Rounding a ratio that is an integer gives that integer. */
  lemma RoundHalfUpExact(k: int, q: int)
    requires q > 0
    ensures RoundHalfUp(k * q, q) == k
  {
    RoundHalfUpUnique(k * q, q, k);
  }

  /** `a % b` for `b > 0`: the remainder of a division truncated towards zero, with the sign of `a`. */
  function Rem(a: int, b: int): (r: int)
    requires b > 0
    ensures a >= 0 ==> 0 <= r < b && r == a % b
    ensures a < 0 ==> -b < r <= 0 && r == -((-a) % b)
  {
    if a >= 0 then a % b else -((-a) % b)
  }

  /** `Math.floor(a / b)` for `b > 0`: Dafny's division rounds down for a positive divisor. */
  function FloorDiv(a: int, b: int): (r: int)
    requires b > 0
    ensures b * r <= a < b * r + b
  {
    a / b
  }

  // ---------------------------------------------------------------- parseInt

  /**
   * Steps 4 to 16 of `parseInt` once white space is gone: an optional sign,
   * then the longest run of digits of `radix`; no digit at all is NaN (`None`).
   */
  function ParseDigits(t: string, radix: nat): (r: Option<int>)
    ensures r.None? <==> DigitSpan(if t != [] && (t[0] == '+' || t[0] == '-') then t[1..] else t, radix) == 0
  {
    var negative := t != [] && t[0] == '-';
    var u := if t != [] && (t[0] == '+' || t[0] == '-') then t[1..] else t;
    var k := DigitSpan(u, radix);
    if k == 0 then None
    else
      var v: int := ValueOf(u[..k], radix);
      Some(if negative then -v else v)
  }

  /** `parseInt(s, 10)`. */
  function ParseInt10(s: string): Option<int> {
    ParseDigits(TrimStart(s), 10)
  }

  /** `parseInt(s)` with no radix: a `0x` or `0X` after the sign selects radix 16, anything else radix 10. */
  function ParseInt(s: string): Option<int> {
    var t := TrimStart(s);
    var negative := t != [] && t[0] == '-';
    var u := if t != [] && (t[0] == '+' || t[0] == '-') then t[1..] else t;
    if |u| >= 2 && u[0] == '0' && (u[1] == 'x' || u[1] == 'X') then
      var k := DigitSpan(u[2..], 16);
      if k == 0 then None
      else
        var v: int := ValueOf(u[2..][..k], 16);
        Some(if negative then -v else v)
    else ParseDigits(t, 10)
  }

  lemma DigitIsNotSpace(c: char)
    requires IsDigit(c)
    ensures !IsSpace(c)
  {
  }

  /** A non-empty run of decimal digits parses to its value. */
  lemma ParseDigitsOfDigits(s: string)
    requires s != [] && AllDigits(s)
    ensures ParseDigits(s, 10) == Some(ValueOf(s, 10))
  {
    assert IsDigit(s[0]);
    assert s + [] == s;
    DigitSpanOfConcat(s, [], 10);
    assert s[..|s|] == s;
  }

  /** A run of decimal digits, then anything that is not a digit: `parseInt` reads the run and ignores the rest. */
  lemma ParseDigitsOfDigitsThen(a: string, t: string)
    requires a != [] && AllDigits(a)
    requires t == [] || !IsDigit(t[0])
    ensures ParseDigits(a + t, 10) == Some(ValueOf(a, 10))
  {
    var m := a + t;
    assert m != [] && m[0] == a[0] && IsDigit(a[0]);
    DigitSpanOfConcat(a, t, 10);
    assert m[..|a|] == a;
  }

  lemma ParseInt10OfDigitsThen(a: string, t: string)
    requires a != [] && AllDigits(a)
    requires t == [] || !IsDigit(t[0])
    ensures ParseInt10(a + t) == Some(ValueOf(a, 10))
  {
    ParseDigitsOfDigitsThen(a, t);
    DigitIsNotSpace(a[0]);
    assert (a + t)[0] == a[0];
  }

  /** The same run after a minus sign reads as its negation. */
  lemma ParseDigitsOfNegativeDigitsThen(a: string, t: string)
    requires a != [] && AllDigits(a)
    requires t == [] || !IsDigit(t[0])
    ensures ParseDigits("-" + (a + t), 10) == Some(-(ValueOf(a, 10) as int))
  {
    var m := "-" + (a + t);
    assert m != [] && m[0] == '-' && m[1..] == a + t;
    DigitSpanOfConcat(a, t, 10);
    assert (a + t)[..|a|] == a;
  }

  lemma ParseInt10OfNegativeDigitsThen(a: string, t: string)
    requires a != [] && AllDigits(a)
    requires t == [] || !IsDigit(t[0])
    ensures ParseInt10("-" + (a + t)) == Some(-(ValueOf(a, 10) as int))
  {
    TrimStartOfNonSpace("-" + (a + t));
    ParseDigitsOfNegativeDigitsThen(a, t);
  }

  /**
   * Two digit runs with a separator between them and an optional tail behind:
   * `parseInt` reads the first run, and, from just past the separator, the second.
   */
  lemma ParseTwoFields(m: string, sep: string, c: string, tail: string)
    requires m != [] && AllDigits(m) && c != [] && AllDigits(c)
    requires sep != [] && !IsDigit(sep[0])
    requires tail == [] || !IsDigit(tail[0])
    ensures ParseInt10(m + (sep + (c + tail))) == Some(ValueOf(m, 10))
    ensures ParseInt10((m + (sep + (c + tail)))[|m| + |sep|..]) == Some(ValueOf(c, 10))
  {
    var rest := sep + (c + tail);
    assert ParseInt10(m + rest) == Some(ValueOf(m, 10)) by {
      assert rest[0] == sep[0];
      ParseInt10OfDigitsThen(m, rest);
    }
    SecondField(m, sep, c, tail);
  }

  lemma SecondField(m: string, sep: string, c: string, tail: string)
    requires c != [] && AllDigits(c)
    requires tail == [] || !IsDigit(tail[0])
    ensures ParseInt10((m + (sep + (c + tail)))[|m| + |sep|..]) == Some(ValueOf(c, 10))
  {
    assert (m + (sep + (c + tail)))[|m| + |sep|..] == c + tail;
    ParseInt10OfDigitsThen(c, tail);
  }

  /** `parseInt("0")` is 0. */
  lemma ParseInt10OfZero()
    ensures ParseInt10("0") == Some(0)
  {
    var z := "0";
    assert z + [] == z && z[..0] == [];
    assert AllDigits(z) && ValueOf(z, 10) == 0;
    ParseInt10OfDigitsThen(z, []);
  }

  /** `parseInt` reads back what `toString` writes for a non-negative integer. */
  lemma ParseInt10OfNatToString(n: nat)
    ensures ParseInt10(NatToString(n)) == Some(n)
  {
    var s := NatToString(n);
    ParseInt10OfDigitsThen(s, []);
    assert s + [] == s;
  }

  // ---------------------------------------------------------------- sums

  /** `xs.reduce((a, b) => a + b, 0)`: the sum, added left to right. */
  function Sum(xs: seq<int>): int {
    if xs == [] then 0 else Sum(xs[..|xs| - 1]) + xs[|xs| - 1]
  }

  /** A sum over a concatenation is the sum of the sums. */
  lemma {:induction false} SumConcat(a: seq<int>, b: seq<int>)
    ensures Sum(a + b) == Sum(a) + Sum(b)
  {
    if b != [] {
      assert (a + b)[..|a + b| - 1] == a + b[..|b| - 1];
      SumConcat(a, b[..|b| - 1]);
    } else {
      assert a + b == a;
    }
  }

  /** Every term between `lo` and `hi` puts the sum between `|xs|·lo` and `|xs|·hi`. */
  lemma {:induction false} SumBounds(xs: seq<int>, lo: int, hi: int)
    requires forall i :: 0 <= i < |xs| ==> lo <= xs[i] <= hi
    ensures |xs| * lo <= Sum(xs) <= |xs| * hi
  {
    if xs != [] {
      var init := xs[..|xs| - 1];
      assert forall i :: 0 <= i < |init| ==> init[i] == xs[i];
      SumBounds(init, lo, hi);
      assert |xs| * lo == |init| * lo + lo && |xs| * hi == |init| * hi + hi;
    }
  }
}
