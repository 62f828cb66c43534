/** Lowercase hexadecimal rendering, as std::hex and printf's %x produce it. */
module Hex {
  import opened Common
  import opened Endian

  predicate IsLowerHexDigit(c: char) {
    '0' <= c <= '9' || 'a' <= c <= 'f'
  }

  function HexDigit(n: int): (c: char)
    requires 0 <= n < 16
    ensures IsLowerHexDigit(c)
  {
    if n < 10 then ('0' as int + n) as char else ('a' as int + n - 10) as char
  }

  function HexValue(c: char): (n: int)
    requires IsLowerHexDigit(c)
    ensures 0 <= n < 16 && HexDigit(n) == c
  {
    if c <= '9' then c as int - '0' as int else c as int - 'a' as int + 10
  }

  lemma HexValueOfDigit(n: int)
    requires 0 <= n < 16
    ensures HexValue(HexDigit(n)) == n
  {
  }

  /** `std::setw(2) << std::setfill('0') << std::hex << (int)b`: two digits, high nibble first. */
  function HexPair(b: uint8): (s: string)
    ensures |s| == 2
  {
    [HexDigit(b / 16), HexDigit(b % 16)]
  }

  /** The digits of each byte in turn. */
  function HexString(bytes: seq<uint8>): (s: string)
    ensures |s| == 2 * |bytes|
  {
    if bytes == [] then "" else HexString(bytes[..|bytes| - 1]) + HexPair(bytes[|bytes| - 1])
  }

  /** `%0<width>x` of a value below 16^width: width digits, most significant first. */
  function HexDigits(v: nat, width: nat): (s: string)
    ensures |s| == width
  {
    if width == 0 then "" else HexDigits(v / 16, width - 1) + [HexDigit(v % 16)]
  }

  lemma {:induction false} HexStringAt(bytes: seq<uint8>, i: nat)
    requires i < |bytes|
    ensures HexString(bytes)[2 * i] == HexDigit(bytes[i] / 16)
    ensures HexString(bytes)[2 * i + 1] == HexDigit(bytes[i] % 16)
  {
    var n := |bytes|;
    if i < n - 1 {
      assert bytes[..n - 1][i] == bytes[i];
      HexStringAt(bytes[..n - 1], i);
    }
  }

  lemma {:induction false} HexStringAppend(a: seq<uint8>, b: seq<uint8>)
    ensures HexString(a + b) == HexString(a) + HexString(b)
  {
    if b != [] {
      var ab := a + b;
      assert ab[..|ab| - 1] == a + b[..|b| - 1];
      assert ab[|ab| - 1] == b[|b| - 1];
      HexStringAppend(a, b[..|b| - 1]);
    } else {
      assert a + b == a;
    }
  }

  lemma HexDigitsOfByte(b: uint8)
    ensures HexDigits(b, 2) == HexPair(b)
  {
    assert (b / 16) / 16 == 0 && (b / 16) % 16 == b / 16;
  }

  lemma DivMod256(v: nat)
    ensures v / 16 / 16 == v / 256
    ensures (v / 16) % 16 == (v % 256) / 16
    ensures (v % 256) % 16 == v % 16
  {
    var q := v / 256;
    var r := v % 256;
    assert v == 256 * q + r;
    assert v / 16 == 16 * q + r / 16;
  }

  /** Printing a value in 2n hex digits reads its n big-endian bytes. */
  lemma {:induction false} HexOfBigEndian(v: nat, n: nat)
    ensures HexString(BigEndianBytes(v, n)) == HexDigits(v, 2 * n)
  {
    if n > 0 {
      var s := BigEndianBytes(v, n);
      assert s[..n - 1] == BigEndianBytes(v / 256, n - 1);
      HexOfBigEndian(v / 256, n - 1);
      DivMod256(v);
      var hi, lo := v / 16, v % 16;
      assert HexDigits(v, 2 * n) == HexDigits(hi, 2 * n - 1) + [HexDigit(lo)];
      assert HexDigits(hi, 2 * n - 1) == HexDigits(v / 256, 2 * n - 2) + [HexDigit((v % 256) / 16)];
      assert HexPair(v % 256) == [HexDigit((v % 256) / 16), HexDigit(lo)];
    }
  }
}
