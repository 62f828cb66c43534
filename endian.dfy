/** Byte-order conversions between unsigned integers and byte sequences. */
module Endian {
  import opened Common

  function Pow256(n: nat): (r: nat)
    ensures r >= 1
  {
    if n == 0 then 1 else 256 * Pow256(n - 1)
  }

  /** The value of a byte sequence read most significant byte first. */
  function BigEndianValue(s: seq<uint8>): (v: nat)
    ensures v < Pow256(|s|)
  {
    if s == [] then 0
    else
      var rest := BigEndianValue(s[..|s| - 1]);
      assert rest <= Pow256(|s| - 1) - 1;
      rest * 256 + s[|s| - 1]
  }

  /** The n low-order bytes of v, most significant first. */
  function BigEndianBytes(v: nat, n: nat): (r: seq<uint8>)
    ensures |r| == n
  {
    if n == 0 then [] else BigEndianBytes(v / 256, n - 1) + [v % 256]
  }

  /** The n low-order bytes of v as a little-endian host stores them in memory. */
  function LittleEndianBytes(v: nat, n: nat): (r: seq<uint8>)
    ensures |r| == n
  {
    if n == 0 then [] else [v % 256] + LittleEndianBytes(v / 256, n - 1)
  }

  lemma DivBound(v: nat, p: nat)
    requires v < 256 * p
    ensures v / 256 < p
  {
  }

  lemma {:induction false} BigEndianValueOfBytes(v: nat, n: nat)
    requires v < Pow256(n)
    ensures BigEndianValue(BigEndianBytes(v, n)) == v
  {
    if n > 0 {
      var s := BigEndianBytes(v, n);
      var front := s[..n - 1];
      assert front == BigEndianBytes(v / 256, n - 1);
      assert s[n - 1] == v % 256;
      DivBound(v, Pow256(n - 1));
      BigEndianValueOfBytes(v / 256, n - 1);
      assert BigEndianValue(s) == BigEndianValue(front) * 256 + s[n - 1];
    }
  }

  lemma {:induction false} BigEndianBytesOfValue(s: seq<uint8>)
    ensures BigEndianBytes(BigEndianValue(s), |s|) == s
  {
    if s != [] {
      var p := s[..|s| - 1];
      var v := BigEndianValue(s);
      assert v == BigEndianValue(p) * 256 + s[|s| - 1];
      assert v / 256 == BigEndianValue(p) && v % 256 == s[|s| - 1];
      BigEndianBytesOfValue(p);
      assert s == p + [s[|s| - 1]];
    }
  }

  /** Reading host memory backwards gives the big-endian bytes. */
  lemma {:induction false} LittleEndianReversesBigEndian(v: nat, n: nat, k: nat)
    requires k < n
    ensures LittleEndianBytes(v, n)[k] == BigEndianBytes(v, n)[n - 1 - k]
  {
    if k > 0 {
      LittleEndianReversesBigEndian(v / 256, n - 1, k - 1);
    }
  }
}
