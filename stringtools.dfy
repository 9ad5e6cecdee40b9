/**
 * String helpers of the plugin: upper-casing, decimal formatting, trimming of
 * trailing blanks and the strtol-based integer conversion that every numeric
 * field of the configuration file goes through.
 */
module StringTools {

  /** A C `int`. */
  type Int32 = x: int | -0x8000_0000 <= x < 0x8000_0000

  // ---------------------------------------------------------------- ToUpper

  /** `toupper` in the "C" locale: only 'a'..'z' change. */
  function UpperChar(c: char): char
  {
    if 'a' <= c <= 'z' then (c as int - 32) as char else c
  }

  /** Upper-cases every character, keeping the length. */
  function ToUpper(s: string): (r: string)
    ensures |r| == |s|
    ensures forall i :: 0 <= i < |s| ==> r[i] == UpperChar(s[i])
  {
    if s == [] then [] else [UpperChar(s[0])] + ToUpper(s[1..])
  }

  /** Upper-casing twice is upper-casing once. */
  lemma ToUpperIdempotent(s: string)
    ensures ToUpper(ToUpper(s)) == ToUpper(s)
  {
    assert forall i :: 0 <= i < |s| ==> UpperChar(UpperChar(s[i])) == UpperChar(s[i]);
  }

  // --------------------------------------------------------------- IntToStr

  predicate IsDigit(c: char) { '0' <= c <= '9' }

  function DigitChar(d: int): (c: char)
    requires 0 <= d < 10
    ensures IsDigit(c)
  {
    ('0' as int + d) as char
  }

  /** The decimal digits of a natural number, most significant first, without
      leading zeros ("0" for zero). */
  function NatToDigits(n: nat): (r: string)
    ensures |r| > 0
    ensures forall i :: 0 <= i < |r| ==> IsDigit(r[i])
    ensures n > 0 ==> r[0] != '0'
    decreases n
  {
    if n < 10 then [DigitChar(n)] else NatToDigits(n / 10) + [DigitChar(n % 10)]
  }

  /** `sprintf("%d")`: a '-' sign for negative values, then the digits of the
      magnitude. */
  function IntToStr(val: Int32): (r: string)
    ensures |r| > 0
    ensures (r[0] == '-') <==> val < 0
    ensures forall i :: (if val < 0 then 1 else 0) <= i < |r| ==> IsDigit(r[i])
  {
    if val < 0 then "-" + NatToDigits(-(val as int)) else NatToDigits(val)
  }

  // ----------------------------------------------------------- StrTrimTrail

  /** The characters `find_last_not_of(" \t")` skips. */
  predicate IsBlank(c: char) { c == ' ' || c == '\t' }

  /** Index of the last character that is not blank, or -1 (npos). */
  function LastNonBlank(s: string): (r: int)
    ensures -1 <= r < |s|
    ensures r >= 0 ==> !IsBlank(s[r])
    ensures forall k :: r < k < |s| ==> IsBlank(s[k])
  {
    if s == [] then -1
    else if !IsBlank(s[|s| - 1]) then |s| - 1
    else LastNonBlank(s[..|s| - 1])
  }

  /** Drops trailing blanks; a string made only of blanks is left as it is,
      because the search then reports npos. */
  function StrTrimTrail(s: string): (r: string)
    ensures (forall k :: 0 <= k < |s| ==> IsBlank(s[k])) ==> r == s
    ensures (exists k :: 0 <= k < |s| && !IsBlank(s[k])) ==>
              0 < |r| <= |s| && r == s[..|r|] && !IsBlank(r[|r| - 1]) &&
              forall k :: |r| <= k < |s| ==> IsBlank(s[k])
  {
    var last := LastNonBlank(s);
    if last == -1 then s else s[..last + 1]
  }

  /** Trimming is idempotent. */
  lemma StrTrimTrailIdempotent(s: string)
    ensures StrTrimTrail(StrTrimTrail(s)) == StrTrimTrail(s)
  {
    var t := StrTrimTrail(s);
    if exists k :: 0 <= k < |s| && !IsBlank(s[k]) {
      assert !IsBlank(t[|t| - 1]);
      assert LastNonBlank(t) == |t| - 1;
    }
  }

  // ------------------------------------------------------------------ strtol

  /** `isspace` in the "C" locale: space, \t, \n, \v, \f, \r. */
  predicate IsSpace(c: char) { c == ' ' || 9 <= c as int <= 13 }

  predicate IsOctal(c: char) { '0' <= c <= '7' }

  predicate IsHex(c: char) { IsDigit(c) || 'a' <= c <= 'f' || 'A' <= c <= 'F' }

  predicate IsBaseDigit(c: char, base: nat) {
    if base == 8 then IsOctal(c) else if base == 16 then IsHex(c) else IsDigit(c)
  }

  function DigitValue(c: char): (v: nat)
    ensures IsDigit(c) ==> v == c as int - '0' as int
    ensures IsHex(c) ==> v < 16
    ensures IsOctal(c) ==> v < 8
    ensures IsDigit(c) ==> v < 10
  {
    if IsDigit(c) then c as int - '0' as int
    else if 'a' <= c <= 'f' then c as int - 'a' as int + 10
    else if 'A' <= c <= 'F' then c as int - 'A' as int + 10
    else 0
  }

  /** Value of a digit string in the given base, most significant digit first. */
  function DigitsValue(ds: string, base: nat): nat
  {
    if ds == [] then 0 else DigitsValue(ds[..|ds| - 1], base) * base + DigitValue(ds[|ds| - 1])
  }

  function SkipSpace(s: string, i: nat): (j: nat)
    requires i <= |s|
    ensures i <= j <= |s|
    ensures j < |s| ==> !IsSpace(s[j])
    ensures forall k :: i <= k < j ==> IsSpace(s[k])
    decreases |s| - i
  {
    if i < |s| && IsSpace(s[i]) then SkipSpace(s, i + 1) else i
  }

  /** End of the maximal run of digits of `base` starting at `i`. */
  function ScanDigits(s: string, i: nat, base: nat): (j: nat)
    requires i <= |s|
    ensures i <= j <= |s|
    ensures j < |s| ==> !IsBaseDigit(s[j], base)
    ensures forall k :: i <= k < j ==> IsBaseDigit(s[k], base)
    decreases |s| - i
  {
    if i < |s| && IsBaseDigit(s[i], base) then ScanDigits(s, i + 1, base) else i
  }

  /** The converted value and the index `endptr` points at. */
  datatype Conversion = Conversion(value: int, end: nat)

  /**
   * `strtol(s, &end, 0)` as section 7.22.1.4 of ISO/IEC 9899:2011 defines it:
   * leading white space, an optional sign, then a hexadecimal constant
   * ("0x" and at least one hex digit), an octal constant (a leading '0') or a
   * decimal constant. Without any such subject sequence nothing is converted:
   * the value is 0 and `end` is the start of the string. Overflow to
   * LONG_MIN/LONG_MAX is not modelled.
   */
  function Strtol(s: string): (r: Conversion)
    ensures r.end <= |s|
    ensures r.end > 0 ==> IsHex(s[r.end - 1])
    ensures r.end == 0 ==> r.value == 0
  {
    var i := SkipSpace(s, 0);
    var neg := i < |s| && s[i] == '-';
    var j := if i < |s| && (s[i] == '-' || s[i] == '+') then i + 1 else i;
    if j + 2 < |s| && s[j] == '0' && (s[j + 1] == 'x' || s[j + 1] == 'X') && IsHex(s[j + 2]) then
      var e := ScanDigits(s, j + 2, 16);
      var v: int := DigitsValue(s[j + 2..e], 16);
      Conversion(if neg then -v else v, e)
    else if j < |s| && s[j] == '0' then
      var e := ScanDigits(s, j, 8);
      var v: int := DigitsValue(s[j..e], 8);
      Conversion(if neg then -v else v, e)
    else if j < |s| && IsDigit(s[j]) then
      var e := ScanDigits(s, j, 10);
      var v: int := DigitsValue(s[j..e], 10);
      Conversion(if neg then -v else v, e)
    else
      Conversion(0, 0)
  }

  /** What `c_str()` hands to C: the characters before the first NUL. */
  function CString(s: string): (r: string)
    ensures |r| <= |s| && r == s[..|r|]
    ensures forall k :: 0 <= k < |r| ==> r[k] != '\0'
    ensures |r| < |s| ==> s[|r|] == '\0'
  {
    if s == [] || s[0] == '\0' then [] else [s[0]] + CString(s[1..])
  }

  /** The conversion result: whether it succeeded and the value stored in `val`. */
  datatype IntConversion = IntConversion(ok: bool, value: int)

  /**
   * `TextToInt(s, val, base)`: trims trailing blanks, converts with base 0
   * (the `base` argument is never passed on) and succeeds when the conversion
   * stopped at the terminating NUL. The value is stored even on failure.
   * A non-empty text it accepts ends, after trimming, in a digit.
   */
  function TextToInt(s: string, base: int): (r: IntConversion)
    ensures var c := CString(StrTrimTrail(s));
      r.ok && c != [] ==> IsHex(c[|c| - 1])
  {
    var c := CString(StrTrimTrail(s));
    var conv := Strtol(c);
    IntConversion(conv.end == |c|, conv.value)
  }

  /** The base argument has no effect. */
  lemma TextToIntIgnoresBase(s: string, b1: int, b2: int)
    ensures TextToInt(s, b1) == TextToInt(s, b2)
  {
  }

  // ------------------------------------------------------------ round trip

  lemma {:induction false} DigitsValueOfDigits(n: nat)
    ensures DigitsValue(NatToDigits(n), 10) == n
    decreases n
  {
    if n >= 10 {
      var a := NatToDigits(n / 10);
      var ds := a + [DigitChar(n % 10)];
      assert ds[..|ds| - 1] == a;
      DigitsValueOfDigits(n / 10);
    }
  }

  lemma NoSpaceNoNul(s: string)
    requires forall k :: 0 <= k < |s| ==> IsDigit(s[k]) || s[k] == '-'
    ensures CString(s) == s
    ensures SkipSpace(s, 0) == 0
  {
    if s != [] {
      NoSpaceNoNul(s[1..]);
    }
  }

  /** strtol reads the whole digit string of a natural number back. */
  lemma {:induction false} StrtolOfDigits(m: nat)
    ensures Strtol(NatToDigits(m)) == Conversion(m, |NatToDigits(m)|)
  {
    var ds := NatToDigits(m);
    NoSpaceNoNul(ds);
    DigitsValueOfDigits(m);
    if m == 0 {
      assert ds == "0";
      assert ScanDigits(ds, 0, 8) == 1;
      assert ds[0..1] == ds && ds[..0] == [];
      assert DigitsValue(ds, 8) == 0;
    } else {
      assert ScanDigits(ds, 0, 10) == |ds| by {
        assert forall k :: 0 <= k < |ds| ==> IsBaseDigit(ds[k], 10);
        ScanDigitsRun(ds, 0, 10);
      }
      assert ds[0..|ds|] == ds;
    }
  }

  lemma {:induction false} ScanDigitsRun(s: string, i: nat, base: nat)
    requires i <= |s|
    requires forall k :: i <= k < |s| ==> IsBaseDigit(s[k], base)
    ensures ScanDigits(s, i, base) == |s|
    decreases |s| - i
  {
    if i < |s| {
      ScanDigitsRun(s, i + 1, base);
    }
  }

  /** strtol reads a '-' followed by the digit string of a positive number. */
  lemma {:induction false} StrtolOfNegative(m: nat)
    requires m > 0
    ensures Strtol("-" + NatToDigits(m)) == Conversion(-(m as int), 1 + |NatToDigits(m)|)
  {
    var ds := NatToDigits(m);
    var s := "-" + ds;
    NoSpaceNoNul(s);
    DigitsValueOfDigits(m);
    assert s[1] == ds[0] != '0';
    assert ScanDigits(s, 1, 10) == |s| by {
      assert forall k :: 1 <= k < |s| ==> IsBaseDigit(s[k], 10);
      ScanDigitsRun(s, 1, 10);
    }
    assert s[1..|s|] == ds;
  }

  /** Formatting an int and converting it back gives the same int. */
  lemma {:induction false} TextToIntIntToStr(n: Int32, base: int)
    ensures TextToInt(IntToStr(n), base) == IntConversion(true, n)
  {
    var s := IntToStr(n);
    assert LastNonBlank(s) == |s| - 1;
    assert StrTrimTrail(s) == s;
    NoSpaceNoNul(s);
    if n < 0 {
      StrtolOfNegative(-(n as int));
    } else {
      StrtolOfDigits(n);
    }
  }

  // --------------------------------------------------------------- examples

  /** Trailing blanks are trimmed before the conversion. */
  lemma TrailingBlanksAccepted()
    ensures TextToInt("12 ", 10) == IntConversion(true, 12)
  {
    assert StrTrimTrail("12 ") == "12";
    assert CString("12") == "12";
    assert ScanDigits("12", 0, 10) == 2;
    assert "12"[0..2] == "12";
    assert "12"[..1] == "1";
  }

  /** Trailing garbage makes the conversion fail. */
  lemma TrailingGarbageRejected()
    ensures !TextToInt("12x", 10).ok
  {
    assert StrTrimTrail("12x") == "12x";
    assert CString("12x") == "12x";
    assert ScanDigits("12x", 0, 10) == 2;
  }

  /** The empty string converts to 0 successfully, but a string of blanks
      does not: trimming leaves it untouched and no digits are found. */
  lemma EmptyAndBlankStrings()
    ensures TextToInt("", 10) == IntConversion(true, 0)
    ensures !TextToInt("  ", 10).ok
  {
    assert StrTrimTrail("  ") == "  ";
    assert CString("  ") == "  ";
  }

  /** The base argument is not passed on: "10" asked for in base 16 is
      still the decimal 10, not 16. */
  lemma HexBaseIgnored()
    ensures TextToInt("10", 16) == IntConversion(true, 10)
  {
    TextToIntIntToStr(10, 16);
    assert IntToStr(10) == "10" by {
      assert NatToDigits(1) == "1";
    }
  }

  /** A single digit converts to its value. */
  lemma SingleDigit(n: nat)
    requires n < 10
    ensures TextToInt([DigitChar(n)], 0) == IntConversion(true, n)
  {
    TextToIntIntToStr(n, 0);
  }
}
