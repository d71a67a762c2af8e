/** UUID version 7 (section 5.7 of RFC 9562) as src/utils.c builds and prints it: the byte
    layout of `ai_uuid_v7_generate` (src/utils.c:391-400), with the random bytes and the
    millisecond clock as inputs, and `ai_uuid_v7_stringify` (src/utils.c:405-419). */
module Uuid {

  const UUID_LEN: int := 16

  /** The 16 bytes of a UUID after the layout step, from the 16 random bytes the buffer
      held and the clock reading `timestamp`. */
  function Layout(random: seq<bv8>, timestamp: bv64): (u: seq<bv8>)
    requires |random| == UUID_LEN
    ensures |u| == UUID_LEN
    ensures u[7] == random[7] && u[9..] == random[9..]
  {
    [ ((timestamp >> 40) & 0xFF) as bv8,
      ((timestamp >> 32) & 0xFF) as bv8,
      ((timestamp >> 24) & 0xFF) as bv8,
      ((timestamp >> 16) & 0xFF) as bv8,
      ((timestamp >> 8) & 0xFF) as bv8,
      (timestamp & 0xFF) as bv8,
      (random[6] & 0x0F) | 0x70,
      random[7],
      (random[8] & 0x3F) | 0x80 ]
    + random[9..]
  }

  /** The 48-bit `unix_ts_ms` field read back from bytes 0 to 5, most significant first. */
  function Timestamp(u: seq<bv8>): bv64
    requires |u| == UUID_LEN
  {
    (u[0] as bv64 << 40) | (u[1] as bv64 << 32) | (u[2] as bv64 << 24)
    | (u[3] as bv64 << 16) | (u[4] as bv64 << 8) | u[5] as bv64
  }

  /** The version field: the high nibble of byte 6. */
  function Version(u: seq<bv8>): bv8
    requires |u| == UUID_LEN
  {
    u[6] >> 4
  }

  /** The variant field: the two high bits of byte 8. */
  function Variant(u: seq<bv8>): bv8
    requires |u| == UUID_LEN
  {
    u[8] >> 6
  }

  lemma TimestampBytes(ts: bv64)
    ensures ((((ts >> 40) & 0xFF) as bv8) as bv64 << 40) | ((((ts >> 32) & 0xFF) as bv8) as bv64 << 32)
          | ((((ts >> 24) & 0xFF) as bv8) as bv64 << 24) | ((((ts >> 16) & 0xFF) as bv8) as bv64 << 16)
          | ((((ts >> 8) & 0xFF) as bv8) as bv64 << 8) | ((ts & 0xFF) as bv8) as bv64
        == ts & 0xFFFF_FFFF_FFFF
  {
  }

  /** The layout stores the low 48 bits of the clock reading, and they read back. */
  lemma LayoutTimestamp(random: seq<bv8>, timestamp: bv64)
    requires |random| == UUID_LEN
    ensures Timestamp(Layout(random, timestamp)) == timestamp & 0xFFFF_FFFF_FFFF
  {
    TimestampBytes(timestamp);
  }

  /** Version 7, variant `10`, and every other bit is the random input's. */
  lemma LayoutFields(random: seq<bv8>, timestamp: bv64)
    requires |random| == UUID_LEN
    ensures var u := Layout(random, timestamp);
      && Version(u) == 7 && u[6] & 0x0F == random[6] & 0x0F
      && Variant(u) == 2 && u[8] & 0x3F == random[8] & 0x3F
      && u[7] == random[7] && u[9..] == random[9..]
  {
    var u := Layout(random, timestamp);
    assert u[6] == (random[6] & 0x0F) | 0x70;
    assert u[8] == (random[8] & 0x3F) | 0x80;
  }

  // ---------------------------------------------------------------------------
  // Text form

  /** A lower-case hexadecimal digit, as `%x` prints it. */
  function HexDigit(n: bv8): (c: char)
    requires n < 16
    ensures c in "0123456789abcdef"
  {
    if n < 10 then ('0' as int + n as int) as char else ('a' as int + n as int - 10) as char
  }

  /** The nibble a digit printed by `%x` stands for (lower case only, as a byte). */
  function HexValue(c: char): bv8
  {
    if '0' <= c <= '9' then (c as int - '0' as int) as bv8
    else if 'a' <= c <= 'f' then (c as int - 'a' as int + 10) as bv8
    else 0
  }

  lemma DigitRoundTrip(n: bv8)
    requires n < 16
    ensures HexValue(HexDigit(n)) == n
  {
  }

  /** `%02x`: two digits, high nibble first. */
  function HexByte(b: bv8): string
  {
    [HexDigit(b >> 4), HexDigit(b & 0x0F)]
  }

  /** The bytes `bs`, each printed with `%02x`. */
  function Hex(bs: seq<bv8>): (s: string)
    ensures |s| == 2 * |bs|
  {
    if bs == [] then [] else HexByte(bs[0]) + Hex(bs[1..])
  }

  /** Reads back two hexadecimal digits per byte. */
  function Unhex(s: string): (bs: seq<bv8>)
    requires |s| % 2 == 0
    ensures |bs| == |s| / 2
  {
    if s == [] then [] else [HexValue(s[0]) * 16 + HexValue(s[1])] + Unhex(s[2..])
  }

  lemma ByteRoundTrip(b: bv8)
    ensures HexValue(HexByte(b)[0]) * 16 + HexValue(HexByte(b)[1]) == b
  {
    DigitRoundTrip(b >> 4);
    DigitRoundTrip(b & 0x0F);
  }

  lemma {:induction false} UnhexHex(bs: seq<bv8>)
    ensures Unhex(Hex(bs)) == bs
  {
    if bs != [] {
      var s := Hex(bs);
      assert s[2..] == Hex(bs[1..]);
      ByteRoundTrip(bs[0]);
      UnhexHex(bs[1..]);
    }
  }

  /** Every character of `Hex(bs)` is a lower-case hexadecimal digit. */
  lemma {:induction false} HexDigits(bs: seq<bv8>)
    ensures forall k :: 0 <= k < |Hex(bs)| ==> Hex(bs)[k] in "0123456789abcdef"
  {
    if bs != [] {
      HexDigits(bs[1..]);
      var s := Hex(bs);
      assert forall k :: 2 <= k < |s| ==> s[k] == Hex(bs[1..])[k - 2];
    }
  }

  /** `ai_uuid_v7_stringify`: `8-4-4-4-12` digits with `dash_format`, 32 digits without. */
  function Stringify(u: seq<bv8>, dash: bool): (s: string)
    requires |u| == UUID_LEN
    ensures |s| == if dash then 36 else 32
  {
    if dash then Hex(u[..4]) + "-" + Hex(u[4..6]) + "-" + Hex(u[6..8]) + "-" + Hex(u[8..10]) + "-" + Hex(u[10..])
    else Hex(u)
  }

  /** The inverse of `Stringify`: the bytes of a UUID's text form. */
  function Parse(s: string, dash: bool): (u: seq<bv8>)
    requires |s| == if dash then 36 else 32
    ensures |u| == UUID_LEN
  {
    if dash then Unhex(s[..8]) + Unhex(s[9..13]) + Unhex(s[14..18]) + Unhex(s[19..23]) + Unhex(s[24..])
    else Unhex(s)
  }

  lemma DashedParts(a: string, b: string, c: string, d: string, e: string)
    requires |a| == 8 && |b| == 4 && |c| == 4 && |d| == 4 && |e| == 12
    ensures var s := a + "-" + b + "-" + c + "-" + d + "-" + e;
      s[..8] == a && s[9..13] == b && s[14..18] == c && s[19..23] == d && s[24..] == e
  {
    var s := a + "-" + b + "-" + c + "-" + d + "-" + e;
    assert s[..8] == a;
    assert s[9..13] == b;
    assert s[14..18] == c;
    assert s[19..23] == d;
    assert s[24..] == e;
  }

  /** The five groups of the dashed form cover the UUID's bytes in order. */
  lemma UuidGroups(u: seq<bv8>)
    requires |u| == UUID_LEN
    ensures u == u[..4] + u[4..6] + u[6..8] + u[8..10] + u[10..]
  {
    assert u[..4] + u[4..6] == u[..6];
    assert u[..6] + u[6..8] == u[..8];
    assert u[..8] + u[8..10] == u[..10];
    assert u[..10] + u[10..] == u;
  }

  /** The text form loses nothing: parsing it gives the UUID back. */
  lemma ParseStringify(u: seq<bv8>, dash: bool)
    requires |u| == UUID_LEN
    ensures Parse(Stringify(u, dash), dash) == u
  {
    if dash {
      var a, b, c, d, e := Hex(u[..4]), Hex(u[4..6]), Hex(u[6..8]), Hex(u[8..10]), Hex(u[10..]);
      var s := a + "-" + b + "-" + c + "-" + d + "-" + e;
      assert Stringify(u, dash) == s;
      DashedParts(a, b, c, d, e);
      assert Parse(s, dash) == Unhex(a) + Unhex(b) + Unhex(c) + Unhex(d) + Unhex(e);
      UnhexHex(u[..4]);
      UnhexHex(u[4..6]);
      UnhexHex(u[6..8]);
      UnhexHex(u[8..10]);
      UnhexHex(u[10..]);
      UuidGroups(u);
    } else {
      UnhexHex(u);
    }
  }

  /** Dashes stand at offsets 8, 13, 18 and 23 of the dashed form; every other character,
      and every character of the plain form, is a lower-case hexadecimal digit. */
  lemma StringifyShape(u: seq<bv8>, dash: bool)
    requires |u| == UUID_LEN
    ensures var s := Stringify(u, dash);
      forall k :: 0 <= k < |s| ==>
        if dash && k in {8, 13, 18, 23} then s[k] == '-' else s[k] in "0123456789abcdef"
  {
    HexDigits(u);
    HexDigits(u[..4]);
    HexDigits(u[4..6]);
    HexDigits(u[6..8]);
    HexDigits(u[8..10]);
    HexDigits(u[10..]);
  }
}
