/** Decimal rendering of an unsigned 64-bit integer and its parser std::stoull (base 10). */
module Decimal {
  import opened Common

  const UINT64_LIMIT: nat := 0x1_0000_0000_0000_0000

  predicate IsDigit(c: char) {
    '0' <= c <= '9'
  }

  /** isspace in the C locale: space, \t, \n, \v, \f, \r. */
  predicate IsSpace(c: char) {
    c == ' ' || 9 <= c as int <= 13
  }

  predicate AllDigits(s: string) {
    forall i | 0 <= i < |s| :: IsDigit(s[i])
  }

  function DigitChar(d: nat): (c: char)
    requires d < 10
    ensures IsDigit(c)
  {
    ('0' as int + d) as char
  }

  function DigitValue(c: char): (d: nat)
    requires IsDigit(c)
    ensures d < 10
  {
    c as int - '0' as int
  }

  /** winrt::to_string(winrt::to_hstring(x)) of an unsigned value: no sign, no leading zeros. */
  function DecimalString(v: nat): (s: string)
    ensures |s| >= 1 && AllDigits(s)
  {
    if v < 10 then [DigitChar(v)] else DecimalString(v / 10) + [DigitChar(v % 10)]
  }

  function DigitsValue(s: string): nat
    requires AllDigits(s)
  {
    if s == [] then 0 else DigitsValue(s[..|s| - 1]) * 10 + DigitValue(s[|s| - 1])
  }

  /** The characters before the first NUL: what c_str() hands to strtoull. */
  function CString(s: string): (r: string)
    ensures |r| <= |s| && r == s[..|r|]
  {
    if s == [] || s[0] as int == 0 then [] else [s[0]] + CString(s[1..])
  }

  function SkipSpaces(s: string): (r: string)
    ensures |r| <= |s| && r == s[|s| - |r|..]
    ensures r != [] ==> !IsSpace(r[0])
  {
    if s != [] && IsSpace(s[0]) then SkipSpaces(s[1..]) else s
  }

  /** The longest prefix of decimal digits. */
  function DigitPrefix(s: string): (d: string)
    ensures |d| <= |s| && d == s[..|d|] && AllDigits(d)
    ensures |d| < |s| ==> !IsDigit(s[|d|])
  {
    if s != [] && IsDigit(s[0]) then [s[0]] + DigitPrefix(s[1..]) else []
  }

  /**
   * std::stoull(s) in base 10: leading white space is skipped, one optional sign is read,
   * then the longest run of digits; the rest is ignored. No digit throws invalid_argument,
   * a magnitude of 2^64 or more throws out_of_range, and a minus sign negates modulo 2^64.
   */
  function Stoull(s: string): Result<uint64>
  {
    var t := SkipSpaces(CString(s));
    var negative := t != [] && t[0] == '-';
    var body := if t != [] && (t[0] == '+' || t[0] == '-') then t[1..] else t;
    var digits := DigitPrefix(body);
    if digits == [] then Err(InvalidArgument)
    else
      var magnitude := DigitsValue(digits);
      if magnitude >= UINT64_LIMIT then Err(OutOfRange)
      else if negative && magnitude != 0 then Ok(UINT64_LIMIT - magnitude)
      else Ok(magnitude)
  }

  lemma {:induction false} DigitsValueOfDecimal(v: nat)
    ensures DigitsValue(DecimalString(v)) == v
  {
    if v >= 10 {
      var s := DecimalString(v);
      assert s[..|s| - 1] == DecimalString(v / 10);
      DigitsValueOfDecimal(v / 10);
    }
  }

  lemma {:induction false} DigitPrefixOfDigits(s: string)
    requires AllDigits(s)
    ensures DigitPrefix(s) == s
  {
    if s != [] {
      DigitPrefixOfDigits(s[1..]);
    }
  }

  lemma {:induction false} CStringOfDigits(s: string)
    requires AllDigits(s)
    ensures CString(s) == s
  {
    if s != [] {
      CStringOfDigits(s[1..]);
    }
  }

  /** std::stoull reads back exactly the value the decimal rendering wrote. */
  lemma StoullOfDecimal(v: uint64)
    ensures Stoull(DecimalString(v)) == Ok(v)
  {
    var s := DecimalString(v);
    CStringOfDigits(s);
    DigitPrefixOfDigits(s);
    DigitsValueOfDecimal(v);
  }

  /** A device id without a single digit (the empty one included) throws invalid_argument. */
  lemma StoullRejectsNoDigits(s: string)
    requires forall i | 0 <= i < |s| :: !IsDigit(s[i])
    ensures Stoull(s) == Err(InvalidArgument)
  {
    var c := CString(s);
    var t := SkipSpaces(c);
    var body := if t != [] && (t[0] == '+' || t[0] == '-') then t[1..] else t;
    if body != [] {
      var k := if t != [] && (t[0] == '+' || t[0] == '-') then 1 else 0;
      assert body[0] == t[k] == c[|c| - |t| + k] == s[|c| - |t| + k];
    }
  }
}
