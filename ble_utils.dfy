/**
 * Conversions between winrt::guid and the 16-byte UUID of the plugin's protobuf messages,
 * and the textual forms the plugin uses as cache keys.
 */
module BleUtils {
  import opened Common
  import opened Endian
  import opened Hex
  import opened WinRT

  /** The 16-byte wire form of a GUID: Data1, Data2, Data3 most significant byte first, then Data4. */
  function GuidBytes(g: Guid): (bytes: seq<uint8>)
    ensures |bytes| == 16
  {
    BigEndianBytes(g.data1, 4) + BigEndianBytes(g.data2, 2) + BigEndianBytes(g.data3, 2) + g.data4
  }

  /**
   * Pushes the bytes of Data1, Data2 and Data3 by reading the fields' memory from the
   * last byte down (on the little-endian host the plugin runs on), then Data4 in order.
   */
  method GuidToByteVec(guid: Guid) returns (result: seq<uint8>)
    ensures result == GuidBytes(guid)
  {
    var dat1bytes := LittleEndianBytes(guid.data1, 4);
    var dat2bytes := LittleEndianBytes(guid.data2, 2);
    var dat3bytes := LittleEndianBytes(guid.data3, 2);
    ghost var be1, be2, be3 := BigEndianBytes(guid.data1, 4), BigEndianBytes(guid.data2, 2), BigEndianBytes(guid.data3, 2);
    result := [];
    for i := 0 to 4
      invariant result == be1[..i]
    {
      LittleEndianReversesBigEndian(guid.data1, 4, 3 - i);
      result := result + [dat1bytes[3 - i]];
    }
    for i := 0 to 2
      invariant result == be1 + be2[..i]
    {
      LittleEndianReversesBigEndian(guid.data2, 2, 1 - i);
      result := result + [dat2bytes[1 - i]];
    }
    for i := 0 to 2
      invariant result == be1 + be2 + be3[..i]
    {
      LittleEndianReversesBigEndian(guid.data3, 2, 1 - i);
      result := result + [dat3bytes[1 - i]];
    }
    for i := 0 to 8
      invariant result == be1 + be2 + be3 + guid.data4[..i]
    {
      result := result + [guid.data4[i]];
    }
  }

  lemma BigEndianOfFour(s: seq<uint8>)
    requires |s| == 4
    ensures BigEndianValue(s) == s[0] as int * 0x100_0000 + s[1] as int * 0x1_0000 + s[2] as int * 0x100 + s[3]
  {
    var s1, s2, s3 := s[..1], s[..2], s[..3];
    assert s3[..2] == s2 && s2[..1] == s1 && s1[..0] == [];
    assert BigEndianValue(s1) == s[0];
    assert BigEndianValue(s2) == s[0] as int * 0x100 + s[1];
    assert BigEndianValue(s3) == s[0] as int * 0x1_0000 + s[1] as int * 0x100 + s[2];
  }

  lemma BigEndianOfTwo(s: seq<uint8>)
    requires |s| == 2
    ensures BigEndianValue(s) == s[0] as int * 0x100 + s[1]
  {
    assert s[..1][..0] == [];
  }

  /** The GUID whose wire form is the first 16 bytes of a protobuf Uuid. */
  function GuidOfUuid(data: seq<uint8>): (g: Guid)
    requires |data| >= 16
  {
    assert Pow256(4) == 0x1_0000_0000 && Pow256(2) == 0x1_0000;
    Guid(BigEndianValue(data[0..4]), BigEndianValue(data[4..6]), BigEndianValue(data[6..8]), data[8..16])
  }

  /**
   * Reads Data1 from bytes 0-3, Data2 from 4-5, Data3 from 6-7 (shifts whose bit ranges
   * do not overlap, so the bitwise or is a sum), then copies Data4 from bytes 8-15.
   * The source reads sixteen bytes of c_str() without looking at the length: c_str() is the
   * bytes followed by a terminating zero, so fifteen bytes give a zero last Data4 byte.
   */
  method ProtobufUuidToGuid(rawData: seq<uint8>) returns (result: Guid)
    requires |rawData| >= 15
    ensures result == GuidOfUuid(rawData + [0])
    ensures |rawData| >= 16 ==> result == GuidOfUuid(rawData)
    ensures |rawData| == 15 ==> result.data4 == rawData[8..] + [0]
  {
    var cString := rawData + [0];
    var data1 := cString[0] as int * 0x100_0000 + cString[1] as int * 0x1_0000 + cString[2] as int * 0x100 + cString[3];
    var data2 := cString[4] as int * 0x100 + cString[5];
    var data3 := cString[6] as int * 0x100 + cString[7];
    var data4: seq<uint8> := [0, 0, 0, 0, 0, 0, 0, 0];
    for i := 0 to 8
      invariant |data4| == 8
      invariant forall j | 0 <= j < i :: data4[j] == cString[8 + j]
    {
      data4 := data4[i := cString[8 + i]];
    }
    assert data4 == cString[8..16];
    BigEndianOfFour(cString[0..4]);
    BigEndianOfTwo(cString[4..6]);
    BigEndianOfTwo(cString[6..8]);
    result := Guid(data1, data2, data3, data4);
    if |rawData| >= 16 {
      assert cString[0..4] == rawData[0..4] && cString[4..6] == rawData[4..6];
      assert cString[6..8] == rawData[6..8] && cString[8..16] == rawData[8..16];
    } else {
      assert cString[8..16] == rawData[8..] + [0];
    }
  }

  lemma {:induction false} GuidRoundTrip(g: Guid)
    ensures GuidOfUuid(GuidBytes(g)) == g
  {
    var b := GuidBytes(g);
    assert b[0..4] == BigEndianBytes(g.data1, 4);
    assert b[4..6] == BigEndianBytes(g.data2, 2);
    assert b[6..8] == BigEndianBytes(g.data3, 2);
    assert b[8..16] == g.data4;
    assert Pow256(4) == 0x1_0000_0000 && Pow256(2) == 0x1_0000;
    BigEndianValueOfBytes(g.data1, 4);
    BigEndianValueOfBytes(g.data2, 2);
    BigEndianValueOfBytes(g.data3, 2);
  }

  lemma {:induction false} UuidRoundTrip(data: seq<uint8>)
    requires |data| == 16
    ensures GuidBytes(GuidOfUuid(data)) == data
  {
    BigEndianBytesOfValue(data[0..4]);
    BigEndianBytesOfValue(data[4..6]);
    BigEndianBytesOfValue(data[6..8]);
    assert data == data[0..4] + data[4..6] + data[6..8] + data[8..16];
  }

  /** std::string::insert(pos, t): throws out_of_range when pos is past the end. */
  function StringInsert(s: string, pos: nat, t: string): Result<string>
  {
    if pos > |s| then Err(OutOfRange) else Ok(s[..pos] + t + s[pos..])
  }

  /** The hex digits split after 8, 12, 16 and 20 digits. */
  function Hyphenate(hex: string): string
    requires |hex| >= 20
  {
    hex[..8] + "-" + hex[8..12] + "-" + hex[12..16] + "-" + hex[16..20] + "-" + hex[20..]
  }

  /** The text of a protobuf Uuid, or the exception inserting the hyphens throws. */
  function UuidText(data: seq<uint8>): Result<string>
  {
    if |data| < 10 then Err(OutOfRange) else Ok(Hyphenate(HexString(data)))
  }

  /**
   * Prints every byte as two lowercase hex digits, then inserts hyphens at 20, 16, 12
   * and 8; inserting from the back keeps the earlier positions in place.
   */
  method ProtobufUuidToString(data: seq<uint8>) returns (r: Result<string>)
    ensures r == UuidText(data)
    ensures r.Ok? <==> |data| >= 10
  {
    var ss := "";
    for i := 0 to |data|
      invariant ss == HexString(data[..i])
    {
      assert data[..i + 1][..i] == data[..i];
      ss := ss + HexPair(data[i]);
    }
    assert data[..|data|] == data;
    var result := ss;
    ghost var h := ss;
    if |h| >= 20 {
      InsertsHyphens(h);
    }
    var inserted := StringInsert(result, 20, "-");
    if inserted.Err? {
      return Err(inserted.error);
    }
    result := inserted.value;
    // once the insert at 20 succeeded, the positions 16, 12 and 8 are in range
    result := StringInsert(result, 16, "-").value;
    result := StringInsert(result, 12, "-").value;
    result := StringInsert(result, 8, "-").value;
    r := Ok(result);
  }

  lemma InsertAfter(pre: string, post: string)
    ensures StringInsert(pre + post, |pre|, "-") == Ok(pre + "-" + post)
  {
    assert (pre + post)[..|pre|] == pre && (pre + post)[|pre|..] == post;
  }

  /** Inserting at 20, 16, 12 and then 8 leaves the hyphens after 8, 12, 16 and 20 digits. */
  lemma InsertsHyphens(h: string)
    requires |h| >= 20
    ensures StringInsert(h, 20, "-").Ok?
    ensures var r1 := StringInsert(h, 20, "-").value;
      && StringInsert(r1, 16, "-").Ok?
      && var r2 := StringInsert(r1, 16, "-").value;
      && StringInsert(r2, 12, "-").Ok?
      && var r3 := StringInsert(r2, 12, "-").value;
      && StringInsert(r3, 8, "-") == Ok(Hyphenate(h))
  {
    var a, b, c, d, e := h[..8], h[8..12], h[12..16], h[16..20], h[20..];
    assert h == (a + b + c + d) + e;
    InsertAfter(a + b + c + d, e);
    var r1 := (a + b + c + d) + "-" + e;
    assert r1 == (a + b + c) + (d + "-" + e);
    InsertAfter(a + b + c, d + "-" + e);
    var r2 := (a + b + c) + "-" + (d + "-" + e);
    assert r2 == (a + b) + (c + "-" + d + "-" + e);
    InsertAfter(a + b, c + "-" + d + "-" + e);
    var r3 := (a + b) + "-" + (c + "-" + d + "-" + e);
    assert r3 == a + (b + "-" + c + "-" + d + "-" + e);
    InsertAfter(a, b + "-" + c + "-" + d + "-" + e);
    assert a + "-" + (b + "-" + c + "-" + d + "-" + e) == Hyphenate(h);
  }

  /** Where the two digits of byte i stand in the 8-4-4-4-12 text. */
  function HexPosition(i: nat): nat
  {
    2 * i + (if i < 4 then 0 else if i < 6 then 1 else if i < 8 then 2 else if i < 10 then 3 else 4)
  }

  /** The text of a 16-byte Uuid is the 36-character form of section 3 of RFC 4122. */
  lemma {:induction false} UuidTextLayout(data: seq<uint8>)
    requires |data| == 16
    ensures UuidText(data).Ok?
    ensures var t := UuidText(data).value;
      && |t| == 36
      && t[8] == '-' && t[13] == '-' && t[18] == '-' && t[23] == '-'
      && (forall i | 0 <= i < 16 ::
            t[HexPosition(i)] == HexDigit(data[i] / 16) && t[HexPosition(i) + 1] == HexDigit(data[i] % 16))
      && (forall k | 0 <= k < 36 && k != 8 && k != 13 && k != 18 && k != 23 :: IsLowerHexDigit(t[k]))
  {
    var hex := HexString(data);
    var t := Hyphenate(hex);
    forall i | 0 <= i < 16
      ensures t[HexPosition(i)] == hex[2 * i] && t[HexPosition(i) + 1] == hex[2 * i + 1]
      ensures t[HexPosition(i)] == HexDigit(data[i] / 16) && t[HexPosition(i) + 1] == HexDigit(data[i] % 16)
    {
      HexStringAt(data, i);
    }
    forall k | 0 <= k < 36 && k != 8 && k != 13 && k != 18 && k != 23
      ensures IsLowerHexDigit(t[k])
    {
      var i := if k < 8 then k / 2 else if k < 13 then (k - 1) / 2 else if k < 18 then (k - 2) / 2
               else if k < 23 then (k - 3) / 2 else (k - 4) / 2;
      assert k == HexPosition(i) || k == HexPosition(i) + 1;
    }
  }

  function ByteOfHex(high: char, low: char): uint8
    requires IsLowerHexDigit(high) && IsLowerHexDigit(low)
  {
    HexValue(high) * 16 + HexValue(low)
  }

  /** Reads back the 16 bytes of an 8-4-4-4-12 lowercase text. */
  function ParseUuidText(t: string): Option<seq<uint8>>
  {
    if |t| == 36 && t[8] == '-' && t[13] == '-' && t[18] == '-' && t[23] == '-'
       && forall i | 0 <= i < 16 :: IsLowerHexDigit(t[HexPosition(i)]) && IsLowerHexDigit(t[HexPosition(i) + 1])
    then Some(seq(16, i requires 0 <= i < 16 => ByteOfHex(t[HexPosition(i)], t[HexPosition(i) + 1])))
    else None
  }

  lemma {:induction false} ParseUuidTextRoundTrip(data: seq<uint8>)
    requires |data| == 16
    ensures ParseUuidText(UuidText(data).value) == Some(data)
  {
    UuidTextLayout(data);
    var t := UuidText(data).value;
    var parsed := ParseUuidText(t);
    assert parsed.Some?;
    forall i | 0 <= i < 16
      ensures parsed.value[i] == data[i]
    {
      HexValueOfDigit(data[i] / 16);
      HexValueOfDigit(data[i] % 16);
      assert parsed.value[i] == ByteOfHex(t[HexPosition(i)], t[HexPosition(i) + 1]);
    }
    assert parsed.value == data;
  }

  /** Distinct 16-byte UUIDs have distinct texts. */
  lemma UuidTextInjective(a: seq<uint8>, b: seq<uint8>)
    requires |a| == 16 && |b| == 16
    requires UuidText(a) == UuidText(b)
    ensures a == b
  {
    ParseUuidTextRoundTrip(a);
    ParseUuidTextRoundTrip(b);
  }

  /** std::string::erase(pos, count): removes up to count characters from pos. */
  function Erase(s: string, pos: nat, count: nat): string
    requires pos <= |s|
  {
    if count >= |s| - pos then s[..pos] else s[..pos] + s[pos + count..]
  }

  /** Erases the first character, then everything from the new last position on, if longer than one. */
  function StripBraces(value: string): (r: string)
    ensures |value| > 1 ==> r == value[1..|value| - 1]
    ensures |value| <= 1 ==> r == value
  {
    if |value| > 1 then
      var erased := Erase(value, 0, 1);
      Erase(erased, |erased| - 1, |erased|)
    else value
  }

  lemma {:induction false} ByteDigitsIsHexString(s: seq<uint8>)
    ensures ByteDigits(s) == HexString(s)
  {
    if s != [] {
      ByteDigitsIsHexString(s[1..]);
      HexStringAppend([s[0]], s[1..]);
      assert [s[0]][..0] == [];
      HexDigitsOfByte(s[0]);
      assert s == [s[0]] + s[1..];
    }
  }

  /**
   * The GUID text with the braces of to_hstring removed. It is the text
   * ProtobufUuidToString gives for the GUID's wire form.
   */
  function GuidToString(guid: Guid): (r: string)
    ensures |r| == 36 && forall i | 0 <= i < 36 :: r[i] == ToHString(guid)[i + 1]
  {
    StripBraces(ToHString(guid))
  }

  lemma GuidToStringIsUuidText(guid: Guid)
    ensures UuidText(GuidBytes(guid)) == Ok(GuidToString(guid))
  {
    var value := ToHString(guid);
    GuidFieldsIsUuidText(guid);
    assert value[1..|value| - 1] == GuidFields(guid);
  }

  lemma GuidFieldsIsUuidText(g: Guid)
    ensures UuidText(GuidBytes(g)) == Ok(GuidFields(g))
  {
    var be1, be2, be3 := BigEndianBytes(g.data1, 4), BigEndianBytes(g.data2, 2), BigEndianBytes(g.data3, 2);
    var d := g.data4;
    HexOfBigEndian(g.data1, 4);
    HexOfBigEndian(g.data2, 2);
    HexOfBigEndian(g.data3, 2);
    HexStringAppend(be1, be2);
    HexStringAppend(be1 + be2, be3);
    HexStringAppend(be1 + be2 + be3, d);
    assert d == d[..2] + d[2..];
    HexStringAppend(d[..2], d[2..]);
    ByteDigitsIsHexString(d[..2]);
    ByteDigitsIsHexString(d[2..]);
    var a, b, c := HexDigits(g.data1, 8), HexDigits(g.data2, 4), HexDigits(g.data3, 4);
    var p, q := ByteDigits(d[..2]), ByteDigits(d[2..]);
    var hex := HexString(GuidBytes(g));
    assert hex == a + b + c + p + q;
    assert hex[..8] == a && hex[8..12] == b && hex[12..16] == c && hex[16..20] == p && hex[20..] == q;
  }

  /**
   * The device agent compares GuidToString of an enumerated GUID with the ProtobufUuidToString
   * text of the requested 16-byte UUID: they agree exactly when the GUID is the one the bytes encode.
   */
  lemma KeyMatchesRequest(g: Guid, data: seq<uint8>)
    requires |data| == 16
    ensures UuidText(data) == Ok(GuidToString(g)) <==> g == GuidOfUuid(data)
  {
    GuidRoundTrip(g);
    UuidRoundTrip(data);
    GuidToStringIsUuidText(g);
    if UuidText(data) == Ok(GuidToString(g)) {
      UuidTextInjective(data, GuidBytes(g));
    }
  }
}
