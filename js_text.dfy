/**
 * The pieces of JavaScript string behaviour the model relies on: the white-space
 * class shared by `String.prototype.trim`, the regular expression `\s` and
 * `parseInt` (WhiteSpace and LineTerminator of ECMA-262, sections 12.2 and 12.3),
 * digit strings in a radix, and `Number.prototype.toString` on integers.
 */
module JsText {

  predicate IsSpace(c: char) {
    || c == ' ' || c == '\t' || c == '\n' || c == '\U{000B}' || c == '\U{000C}' || c == '\r'
    || c == '\U{00A0}' || c == '\U{1680}' || ('\U{2000}' <= c <= '\U{200A}')
    || c == '\U{2028}' || c == '\U{2029}' || c == '\U{202F}' || c == '\U{205F}'
    || c == '\U{3000}' || c == '\U{FEFF}'
  }

  predicate AllSpace(s: string) {
    forall i :: 0 <= i < |s| ==> IsSpace(s[i])
  }

  /** `s` with its leading white space removed (`trimStart`). */
  function TrimStart(s: string): (r: string)
    ensures |r| <= |s| && r == s[|s| - |r|..]
    ensures AllSpace(s[..|s| - |r|])
    ensures r == [] || !IsSpace(r[0])
  {
    if s != [] && IsSpace(s[0]) then TrimStart(s[1..]) else s
  }

  /** `s` with its trailing white space removed (`trimEnd`). */
  function TrimEnd(s: string): (r: string)
    ensures |r| <= |s| && r == s[..|r|]
    ensures AllSpace(s[|r|..])
    ensures r == [] || !IsSpace(r[|r| - 1])
  {
    if s != [] && IsSpace(s[|s| - 1]) then TrimEnd(s[..|s| - 1]) else s
  }

  /** A string is its trimmed-at-the-end part followed by white space. */
  lemma TrimEndSplit(s: string)
    ensures s == TrimEnd(s) + s[|TrimEnd(s)|..]
    ensures AllSpace(s[|TrimEnd(s)|..])
  {
    var t := TrimEnd(s);
    assert s == s[..|t|] + s[|t|..];
  }

  /** `String.prototype.trim`. */
  function Trim(s: string): string {
    TrimEnd(TrimStart(s))
  }

  /** Trimming leaves nothing exactly when every character is white space. */
  lemma TrimEmptyIffAllSpace(s: string)
    ensures Trim(s) == [] <==> AllSpace(s)
  {
    var t := TrimStart(s);
    if Trim(s) == [] {
      assert t[0..] == t;
      assert t == [];
      assert s[..|s| - |t|] == s;
    } else if AllSpace(s) {
      TrimStartAllSpace(s);
    }
  }

  lemma {:induction false} TrimStartAllSpace(s: string)
    requires AllSpace(s)
    ensures TrimStart(s) == []
  {
    if s != [] {
      assert IsSpace(s[0]);
      assert AllSpace(s[1..]) by {
        forall i | 0 <= i < |s| - 1 ensures IsSpace(s[1..][i]) { assert s[1..][i] == s[i + 1]; }
      }
      TrimStartAllSpace(s[1..]);
    }
  }

  /** Nothing to trim in front of a string that starts with a sign or a digit. */
  lemma TrimStartOfNonSpace(s: string)
    requires s != [] && ('0' <= s[0] <= '9' || s[0] == '-' || s[0] == '+')
    ensures TrimStart(s) == s
  {
    assert !IsSpace(s[0]);
  }

  /** Nothing to trim behind a string that ends with a digit. */
  lemma TrimEndOfDigit(s: string)
    requires s != [] && '0' <= s[|s| - 1] <= '9'
    ensures TrimEnd(s) == s
  {
    assert !IsSpace(s[|s| - 1]);
  }

  /** A numeral such as `IntToString` writes has nothing to trim. */
  lemma TrimOfNumeral(i: int)
    ensures Trim(IntToString(i)) == IntToString(i)
  {
    var s := IntToString(i);
    var d := NatToString(if i < 0 then -i else i);
    assert IsDigit(d[0]) && IsDigit(d[|d| - 1]);
    assert s[|s| - 1] == d[|d| - 1];
    TrimStartOfNonSpace(s);
    TrimEndOfDigit(s);
  }

  predicate StartsWith(s: string, prefix: string) {
    |prefix| <= |s| && s[..|prefix|] == prefix
  }

  predicate EndsWith(s: string, suffix: string) {
    |suffix| <= |s| && s[|s| - |suffix|..] == suffix
  }

  // ---------------------------------------------------------------- digits

  predicate IsDigit(c: char) {
    '0' <= c <= '9'
  }

  predicate AllDigits(s: string) {
    forall i :: 0 <= i < |s| ==> IsDigit(s[i])
  }

  /** The value of `c` as a digit in radix 36 (`0`-`9`, then `a`-`z` or `A`-`Z`); 36 for any other character. */
  function DigitValue(c: char): (d: nat)
    ensures d <= 36
    ensures IsDigit(c) <==> d < 10
  {
    if '0' <= c <= '9' then c as int - '0' as int
    else if 'a' <= c <= 'z' then c as int - 'a' as int + 10
    else if 'A' <= c <= 'Z' then c as int - 'A' as int + 10
    else 36
  }

  function DigitChar(d: nat): (c: char)
    requires d < 10
    ensures IsDigit(c) && DigitValue(c) == d
  {
    ('0' as int + d) as char
  }

  /** The number a digit string denotes in `radix`, read most significant digit first. */
  function ValueOf(s: string, radix: nat): nat {
    if s == [] then 0 else ValueOf(s[..|s| - 1], radix) * radix + DigitValue(s[|s| - 1])
  }

  /** The length of the longest prefix of `s` made of digits of `radix`. */
  function DigitSpan(s: string, radix: nat): (k: nat)
    ensures k <= |s|
    ensures forall i :: 0 <= i < k ==> DigitValue(s[i]) < radix
    ensures k == |s| || DigitValue(s[k]) >= radix
  {
    if s != [] && DigitValue(s[0]) < radix then 1 + DigitSpan(s[1..], radix) else 0
  }

  /** A digit run followed by a non-digit (or nothing) is read up to its end. */
  lemma {:induction false} DigitSpanOfConcat(a: string, t: string, radix: nat)
    requires forall i :: 0 <= i < |a| ==> DigitValue(a[i]) < radix
    requires t == [] || DigitValue(t[0]) >= radix
    ensures DigitSpan(a + t, radix) == |a|
  {
    if a != [] {
      assert (a + t)[1..] == a[1..] + t;
      DigitSpanOfConcat(a[1..], t, radix);
    } else {
      assert a + t == t;
    }
  }

  /** Leading zero digits do not change the value. */
  lemma {:induction false} ValueOfLeadingZero(s: string, radix: nat)
    ensures ValueOf("0" + s, radix) == ValueOf(s, radix)
  {
    if s != [] {
      var z := "0" + s;
      assert z[..|z| - 1] == "0" + s[..|s| - 1];
      ValueOfLeadingZero(s[..|s| - 1], radix);
    }
  }

  /** The decimal digits of `n`, without leading zeros: `n.toString()` for `n >= 0`. */
  function NatToString(n: nat): (r: string)
    ensures |r| >= 1 && AllDigits(r)
    ensures ValueOf(r, 10) == n
    ensures n < 10 <==> |r| == 1
    ensures |r| > 1 ==> r[0] != '0'
  {
    if n < 10 then [DigitChar(n)]
    else
      var r := NatToString(n / 10) + [DigitChar(n % 10)];
      assert r[..|r| - 1] == NatToString(n / 10);
      r
  }

  /** `i.toString()` for an integer `i`. */
  function IntToString(i: int): (r: string)
    ensures i >= 0 ==> r == NatToString(i)
    ensures i < 0 ==> r == "-" + NatToString(-i)
  {
    if i < 0 then "-" + NatToString(-i) else NatToString(i)
  }

  /** `s.padStart(width, fill)` for a one-character `fill`. */
  function PadStart(s: string, width: nat, fill: char): (r: string)
    ensures |r| == if |s| >= width then |s| else width
    ensures EndsWith(r, s)
    ensures forall i :: 0 <= i < |r| - |s| ==> r[i] == fill
  {
    if |s| >= width then s else seq(width - |s|, _ => fill) + s
  }
}
