/** The numeric-field helpers of src/utils/numericInput.ts. */
module NumericInput {
  import opened Wrappers
  import opened JsText
  import opened JsNumber

  /** What `parseInt(value.trim(), 10)` reads from a field, `None` for NaN. */
  function Reading(value: string): Option<int> {
    ParseInt10(Trim(value))
  }

  /**
   * `sanitizeNumericInput(value, min, max)`: a blank or unreadable field gives
   * `min`; otherwise the integer the field starts with, raised to `min` and then
   * lowered to `max` when `max` is given.
   */
  function SanitizeNumericInput(value: string, min: int, max: Option<int>): (r: int)
    ensures Reading(value).None? ==> r == min
    ensures Reading(value).Some? ==> r == Clamp(Reading(value).value, min, max)
  {
    var trimmed := Trim(value);
    if trimmed == "" || trimmed == "-" then
      EarlyReturnUnreadable(trimmed);
      min
    else
      match ParseInt10(trimmed)
      case None => min
      case Some(parsed) => Clamp(parsed, min, max)
  }

  /** What a sanitised field holds, in terms of what the field reads. */
  lemma SanitizeBounds(value: string, min: int, max: Option<int>)
    ensures Reading(value).None? ==> SanitizeNumericInput(value, min, max) == min
    ensures Reading(value).Some? ==> SanitizedReading(Reading(value).value, min, max, SanitizeNumericInput(value, min, max))
  {
    var r := SanitizeNumericInput(value, min, max);
    if Reading(value).Some? {
      assert r == Clamp(Reading(value).value, min, max);
    }
  }

  /** The two bound checks of `sanitizeNumericInput`: first up to `min`, then down to `max`. */
  function Clamp(n: int, min: int, max: Option<int>): (r: int)
    ensures SanitizedReading(n, min, max, r)
  {
    var raised := if n < min then min else n;
    if max.Some? && raised > max.value then max.value else raised
  }

  /**
   * What `sanitizeNumericInput` promises of its result `r` once the field reads
   * as `n`: within `[min, max]` when that range is non-empty, `n` itself when
   * `n` lies in it, the nearer bound otherwise, and `max` whenever `max < min`.
   */
  ghost predicate SanitizedReading(n: int, min: int, max: Option<int>, r: int) {
    && (max.None? || min <= max.value ==> min <= r)
    && (max.Some? ==> r <= max.value)
    && (min <= n && (max.None? || n <= max.value) ==> r == n)
    && (n < min && (max.None? || min <= max.value) ==> r == min)
    && (max.Some? && (n > max.value || min > max.value) ==> r == max.value)
  }

  /** The early return on a blank field or a lone `"-"` agrees with what `parseInt` would give there. */
  lemma EarlyReturnUnreadable(trimmed: string)
    requires trimmed == "" || trimmed == "-"
    ensures ParseInt10(trimmed) == None
  {
    if trimmed != [] {
      assert |trimmed| == 1 && trimmed[0] == '-';
      TrimStartOfNonSpace(trimmed);
      assert trimmed[1..] == [];
    }
  }

  /** Sanitising is idempotent: the number written back into the field sanitises to itself. */
  lemma SanitizeIdempotent(value: string, min: int, max: Option<int>)
    requires max.None? || min <= max.value
    ensures var r := SanitizeNumericInput(value, min, max);
            SanitizeNumericInput(IntToString(r), min, max) == r
  {
    var r := SanitizeNumericInput(value, min, max);
    ReadingOfNumeral(r);
  }

  /** A field holding a numeral reads as its value. */
  lemma ReadingOfNumeral(i: int)
    ensures Reading(IntToString(i)) == Some(i)
  {
    TrimOfNumeral(i);
    if i < 0 {
      ParseInt10OfNegativeDigitsThen(NatToString(-i), []);
      assert NatToString(-i) + [] == NatToString(-i);
    } else {
      ParseInt10OfNatToString(i);
    }
  }

  /** `value.replace(/^0+/, '')`: the leading zeros removed. */
  function StripLeadingZeros(s: string): (r: string)
    ensures |r| <= |s| && r == s[|s| - |r|..]
    ensures forall i :: 0 <= i < |s| - |r| ==> s[i] == '0'
    ensures r == [] || r[0] != '0'
  {
    if s != [] && s[0] == '0' then StripLeadingZeros(s[1..]) else s
  }

  /**
   * `handleNumericInput`: `None` (the source's `null`) for an empty field or a
   * lone `"-"`; otherwise `parseInt` of the field once its leading zeros are
   * gone (`"0"` when nothing is left), `None` when that is NaN. It takes no
   * bounds into account.
   */
  function HandleNumericInput(value: string): (r: Option<int>)
    ensures value == "" || value == "-" ==> r == None
  {
    if value == "" || value == "-" then None
    else
      var stripped := StripLeadingZeros(value);
      ParseInt10(if stripped == "" then "0" else stripped)
  }

  /** On a field that does not begin with a zero, `handleNumericInput` is plain `parseInt`. */
  lemma HandleIsParseInt(value: string)
    requires value != "" && value[0] != '0'
    ensures HandleNumericInput(value) == ParseInt10(value)
  {
    if value == "-" {
      EarlyReturnUnreadable(value);
    }
  }

  /** Stripping zeros in front of a digit string keeps its value. */
  lemma {:induction false} StripKeepsValue(s: string)
    ensures ValueOf(StripLeadingZeros(s), 10) == ValueOf(s, 10)
  {
    if s != [] && s[0] == '0' {
      StripKeepsValue(s[1..]);
      assert s == "0" + s[1..];
      ValueOfLeadingZero(s[1..], 10);
    }
  }

  /** A field of decimal digits, with or without leading zeros, reads as its value. */
  lemma HandleDigits(value: string)
    requires value != "" && AllDigits(value)
    ensures HandleNumericInput(value) == Some(ValueOf(value, 10))
  {
    assert value != "-" by { assert IsDigit(value[0]); }
    var stripped := StripLeadingZeros(value);
    StripKeepsValue(value);
    if stripped == "" {
      ParseInt10OfZero();
    } else {
      StrippedDigits(value);
    }
  }

  lemma StrippedDigits(value: string)
    requires AllDigits(value) && StripLeadingZeros(value) != ""
    ensures ParseInt10(StripLeadingZeros(value)) == Some(ValueOf(StripLeadingZeros(value), 10))
  {
    var stripped := StripLeadingZeros(value);
    assert AllDigits(stripped);
    ParseInt10OfDigitsThen(stripped, []);
    assert stripped + [] == stripped;
  }

  /** `"000"` reads as 0 and `"007"` as 7. */
  lemma LeadingZeroExamples()
    ensures HandleNumericInput("000") == Some(0)
    ensures HandleNumericInput("007") == Some(7)
  {
    var z, s := "000", "007";
    assert AllDigits(z) by { assert forall i | 0 <= i < 3 :: z[i] == '0'; }
    assert AllDigits(s) by { assert s[0] == '0' && s[1] == '0' && s[2] == '7'; }
    assert ValueOf(z, 10) == 0 && ValueOf(s, 10) == 7 by {
      assert z[..2] == "00" && s[..2] == "00" && "00"[..1] == "0" && "0"[..0] == "";
    }
    HandleDigits(z);
    HandleDigits(s);
  }

  /**
   * Stripping zeros can uncover a sign: `"0-5"` reads as -5 here, where
   * `parseInt("0-5")` reads 0.
   */
  lemma ZeroBeforeSign(zeros: string, digits: string)
    requires zeros != [] && forall i :: 0 <= i < |zeros| ==> zeros[i] == '0'
    requires digits != [] && AllDigits(digits)
    ensures HandleNumericInput(zeros + ("-" + digits)) == Some(-(ValueOf(digits, 10) as int))
  {
    var rest := "-" + digits;
    assert digits + [] == digits;
    StripZerosThen(zeros, rest);
    ParseInt10OfNegativeDigitsThen(digits, []);
  }

  lemma ParseZeroBeforeSign(zeros: string, digits: string)
    requires zeros != [] && forall i :: 0 <= i < |zeros| ==> zeros[i] == '0'
    requires digits != [] && AllDigits(digits)
    ensures ParseInt10(zeros + ("-" + digits)) == Some(0)
  {
    var rest := "-" + digits;
    assert AllDigits(zeros);
    ZerosValue(zeros);
    ParseInt10OfDigitsThen(zeros, rest);
  }

  lemma {:induction false} StripZerosThen(zeros: string, rest: string)
    requires forall i :: 0 <= i < |zeros| ==> zeros[i] == '0'
    requires rest == [] || rest[0] != '0'
    ensures StripLeadingZeros(zeros + rest) == rest
  {
    if zeros != [] {
      assert (zeros + rest)[1..] == zeros[1..] + rest;
      StripZerosThen(zeros[1..], rest);
    } else {
      assert zeros + rest == rest;
    }
  }

  lemma {:induction false} ZerosValue(zeros: string)
    requires forall i :: 0 <= i < |zeros| ==> zeros[i] == '0'
    ensures ValueOf(zeros, 10) == 0
  {
    if zeros != [] {
      ZerosValue(zeros[..|zeros| - 1]);
    }
  }
}
