/**
  Byte encodings used by the integrations: UTF-8 (`str.encode()`), the standard Base64 alphabet
  (section 4 of RFC 4648, `base64.b64encode`) and the URL- and filename-safe alphabet (section 5 of
  RFC 4648, `base64.urlsafe_b64encode`), both with `=` padding.
*/
module Encoding {
  import opened Wrappers

  type byte = x: int | 0 <= x < 256
  type sextet = x: int | 0 <= x < 64

  /** UTF-8 bytes of one Unicode scalar value. */
  function Utf8Char(c: char): (r: seq<byte>)
    ensures 1 <= |r| <= 4
    ensures c as int < 0x80 ==> r == [c as int]
  {
    var n := c as int;
    if n < 0x80 then [n]
    else if n < 0x800 then [0xC0 + n / 64, 0x80 + n % 64]
    else if n < 0x10000 then [0xE0 + n / 4096, 0x80 + (n / 64) % 64, 0x80 + n % 64]
    else [0xF0 + n / 262144, 0x80 + (n / 4096) % 64, 0x80 + (n / 64) % 64, 0x80 + n % 64]
  }

  /** `s.encode()`: the UTF-8 bytes of a string. */
  function Utf8(s: string): (r: seq<byte>)
    ensures |s| <= |r| <= 4 * |s|
  {
    if |s| == 0 then [] else Utf8Char(s[0]) + Utf8(s[1..])
  }

  /** The character for a 6-bit value; the two alphabets differ only in the values 62 and 63. */
  function CharOf(v: sextet, urlSafe: bool): char
  {
    if v < 26 then ('A' as int + v) as char
    else if v < 52 then ('a' as int + (v - 26)) as char
    else if v < 62 then ('0' as int + (v - 52)) as char
    else if v == 62 then (if urlSafe then '-' else '+')
    else (if urlSafe then '_' else '/')
  }

  /** The 6-bit value of an alphabet character, if it is one. */
  function ValueOf(c: char, urlSafe: bool): Option<sextet>
  {
    if 'A' <= c <= 'Z' then Some(c as int - 'A' as int)
    else if 'a' <= c <= 'z' then Some(c as int - 'a' as int + 26)
    else if '0' <= c <= '9' then Some(c as int - '0' as int + 52)
    else if c == (if urlSafe then '-' else '+') then Some(62)
    else if c == (if urlSafe then '_' else '/') then Some(63)
    else None
  }

  lemma ValueOfCharOf(v: sextet, urlSafe: bool)
    ensures ValueOf(CharOf(v, urlSafe), urlSafe) == Some(v)
  {
  }

  /** A full group: four alphabet characters. */
  function FullGroup(v0: sextet, v1: sextet, v2: sextet, v3: sextet, urlSafe: bool): (g: string)
    ensures |g| == 4 && g[2] != '=' && g[3] != '='
  {
    [CharOf(v0, urlSafe), CharOf(v1, urlSafe), CharOf(v2, urlSafe), CharOf(v3, urlSafe)]
  }

  /** A group of three alphabet characters and one `=`. */
  function PaddedGroup(v0: sextet, v1: sextet, v2: sextet, urlSafe: bool): (g: string)
    ensures |g| == 4 && g[2] != '=' && g[3] == '='
  {
    [CharOf(v0, urlSafe), CharOf(v1, urlSafe), CharOf(v2, urlSafe), '=']
  }

  /** The 24-bit number of three bytes, most significant first. */
  function Pack3(b0: byte, b1: byte, b2: byte): (n: int)
    ensures 0 <= n < 16777216
  {
    b0 as int * 65536 + b1 as int * 256 + b2
  }

  /** Two bytes as the top 16 bits of an 18-bit number. */
  function Pack2(b0: byte, b1: byte): (n: int)
    ensures 0 <= n < 262144
  {
    b0 as int * 1024 + b1 as int * 4
  }

  /** The four characters of a full group of three bytes. */
  function EncodeThree(b0: byte, b1: byte, b2: byte, urlSafe: bool): (g: string)
    ensures |g| == 4 && g[2] != '=' && g[3] != '='
  {
    var n := Pack3(b0, b1, b2);
    FullGroup(n / 262144, (n / 4096) % 64, (n / 64) % 64, n % 64, urlSafe)
  }

  /** The final group for two remaining bytes, padded with one `=`. */
  function EncodeTwo(b0: byte, b1: byte, urlSafe: bool): (g: string)
    ensures |g| == 4 && g[3] == '='
  {
    var n := Pack2(b0, b1);
    PaddedGroup(n / 4096, (n / 64) % 64, n % 64, urlSafe)
  }

  /** The final group for one remaining byte, padded with `==`. */
  function EncodeOne(b0: byte, urlSafe: bool): (g: string)
    ensures |g| == 4 && g[2] == '=' && g[3] == '='
  {
    var n: int := b0 as int * 16;
    [CharOf(n / 64, urlSafe), CharOf(n % 64, urlSafe), '=', '=']
  }

  /** Base64 with padding: each 3 bytes become 4 characters; a final 1 or 2 bytes are padded with `=`. */
  function Base64Encode(bs: seq<byte>, urlSafe: bool): (r: string)
    ensures |r| == 4 * ((|bs| + 2) / 3)
  {
    if |bs| == 0 then ""
    else if |bs| == 1 then EncodeOne(bs[0], urlSafe)
    else if |bs| == 2 then EncodeTwo(bs[0], bs[1], urlSafe)
    else
      assert (|bs| - 3 + 2) / 3 + 1 == (|bs| + 2) / 3;
      EncodeThree(bs[0], bs[1], bs[2], urlSafe) + Base64Encode(bs[3..], urlSafe)
  }

  /** Decode one 4-character group (the last one may carry padding). */
  function DecodeGroup(g: string, last: bool, urlSafe: bool): Option<seq<byte>>
    requires |g| == 4
  {
    var v0, v1 := ValueOf(g[0], urlSafe), ValueOf(g[1], urlSafe);
    if v0.None? || v1.None? then None
    else if last && g[2] == '=' && g[3] == '=' then
      var n := v0.value * 64 + v1.value;
      if n % 16 == 0 then Some([n / 16]) else None
    else
      var v2 := ValueOf(g[2], urlSafe);
      if v2.None? then None
      else if last && g[3] == '=' then
        var n := v0.value * 4096 + v1.value * 64 + v2.value;
        if n % 4 == 0 then Some([n / 1024, (n / 4) % 256]) else None
      else
        var v3 := ValueOf(g[3], urlSafe);
        if v3.None? then None
        else
          var n := v0.value * 262144 + v1.value * 4096 + v2.value * 64 + v3.value;
          Some([n / 65536, (n / 256) % 256, n % 256])
  }

  /** Base64 decoding of padded text; `None` when the text is not a canonical encoding. */
  function Base64Decode(s: string, urlSafe: bool): Option<seq<byte>>
  {
    if |s| == 0 then Some([])
    else if |s| < 4 then None
    else
      var g := DecodeGroup(s[..4], |s| == 4, urlSafe);
      var rest := Base64Decode(s[4..], urlSafe);
      if g.None? || rest.None? then None else Some(g.value + rest.value)
  }

  /** Splitting a number into 6-bit digits and putting them back together gives the number. */
  lemma SextetDigits(n: int)
    requires 0 <= n
    ensures n == (n / 64) * 64 + n % 64
    ensures n / 64 == (n / 4096) * 64 + (n / 64) % 64
    ensures n / 4096 == (n / 262144) * 64 + (n / 4096) % 64
  {
  }

  /** A full group whose four characters have the given values. */
  lemma DecodeFullGroup(g: string, last: bool, urlSafe: bool, v0: sextet, v1: sextet, v2: sextet, v3: sextet)
    requires |g| == 4 && g[2] != '=' && g[3] != '='
    requires ValueOf(g[0], urlSafe) == Some(v0) && ValueOf(g[1], urlSafe) == Some(v1)
    requires ValueOf(g[2], urlSafe) == Some(v2) && ValueOf(g[3], urlSafe) == Some(v3)
    ensures var n := v0 * 262144 + v1 * 4096 + v2 * 64 + v3;
      DecodeGroup(g, last, urlSafe) == Some([n / 65536, (n / 256) % 256, n % 256])
  {
  }

  /** A final group with one `=`. */
  lemma DecodePaddedGroup(g: string, urlSafe: bool, v0: sextet, v1: sextet, v2: sextet)
    requires |g| == 4 && g[2] != '=' && g[3] == '='
    requires ValueOf(g[0], urlSafe) == Some(v0) && ValueOf(g[1], urlSafe) == Some(v1)
    requires ValueOf(g[2], urlSafe) == Some(v2)
    requires (v0 * 4096 + v1 * 64 + v2) % 4 == 0
    ensures var n := v0 * 4096 + v1 * 64 + v2;
      DecodeGroup(g, true, urlSafe) == Some([n / 1024, (n / 4) % 256])
  {
  }

  /** Three bytes packed into 24 bits unpack into the same bytes. */
  lemma UnpackThree(b0: byte, b1: byte, b2: byte)
    ensures var n := b0 as int * 65536 + b1 as int * 256 + b2;
      n / 65536 == b0 && (n / 256) % 256 == b1 && n % 256 == b2
  {
  }

  /** Two bytes packed into the top 16 of 18 bits unpack into the same bytes. */
  lemma UnpackTwo(b0: byte, b1: byte)
    ensures var n := b0 as int * 1024 + b1 as int * 4;
      n % 4 == 0 && n / 1024 == b0 && (n / 4) % 256 == b1
  {
  }

  lemma DecodeOneByte(b0: byte, urlSafe: bool)
    ensures DecodeGroup(EncodeOne(b0, urlSafe), true, urlSafe) == Some([b0])
  {
    var n := b0 as int * 16;
    ValueOfCharOf(n / 64, urlSafe);
    ValueOfCharOf(n % 64, urlSafe);
    SextetDigits(n);
  }

  /** The three sextets of a two-byte group, read back as a number, give the bytes. */
  lemma TwoBytesSextets(b0: byte, b1: byte)
    ensures var n := Pack2(b0, b1);
      var v := (n / 4096) * 4096 + ((n / 64) % 64) * 64 + n % 64;
      v == n && v % 4 == 0 && v / 1024 == b0 && (v / 4) % 256 == b1
  {
    SextetDigits(Pack2(b0, b1));
    UnpackTwo(b0, b1);
  }

  /** A final group written from three sextets and one `=` decodes to the two bytes of their 18-bit number. */
  lemma DecodePaddedSextets(v0: sextet, v1: sextet, v2: sextet, urlSafe: bool)
    requires (v0 * 4096 + v1 * 64 + v2) % 4 == 0
    ensures var n := v0 * 4096 + v1 * 64 + v2;
      DecodeGroup(PaddedGroup(v0, v1, v2, urlSafe), true, urlSafe) == Some([n / 1024, (n / 4) % 256])
  {
    ValueOfCharOf(v0, urlSafe);
    ValueOfCharOf(v1, urlSafe);
    ValueOfCharOf(v2, urlSafe);
    DecodePaddedGroup(PaddedGroup(v0, v1, v2, urlSafe), urlSafe, v0, v1, v2);
  }

  lemma DecodeTwoBytes(b0: byte, b1: byte, urlSafe: bool)
    ensures DecodeGroup(EncodeTwo(b0, b1, urlSafe), true, urlSafe) == Some([b0, b1])
  {
    var n := Pack2(b0, b1);
    TwoBytesSextets(b0, b1);
    DecodePaddedSextets(n / 4096, (n / 64) % 64, n % 64, urlSafe);
  }

  /** The four sextets of a three-byte group, read back as a number, give the bytes. */
  lemma ThreeBytesSextets(b0: byte, b1: byte, b2: byte)
    ensures var n := Pack3(b0, b1, b2);
      var v := (n / 262144) * 262144 + ((n / 4096) % 64) * 4096 + ((n / 64) % 64) * 64 + n % 64;
      v == n && v / 65536 == b0 && (v / 256) % 256 == b1 && v % 256 == b2
  {
    SextetDigits(Pack3(b0, b1, b2));
    UnpackThree(b0, b1, b2);
  }

  /** A full group written from four sextets decodes to the three bytes of their 24-bit number. */
  lemma DecodeSextets(v0: sextet, v1: sextet, v2: sextet, v3: sextet, last: bool, urlSafe: bool)
    ensures var n := v0 * 262144 + v1 * 4096 + v2 * 64 + v3;
      DecodeGroup(FullGroup(v0, v1, v2, v3, urlSafe), last, urlSafe) == Some([n / 65536, (n / 256) % 256, n % 256])
  {
    ValueOfCharOf(v0, urlSafe);
    ValueOfCharOf(v1, urlSafe);
    ValueOfCharOf(v2, urlSafe);
    ValueOfCharOf(v3, urlSafe);
    DecodeFullGroup(FullGroup(v0, v1, v2, v3, urlSafe), last, urlSafe, v0, v1, v2, v3);
  }

  lemma DecodeThreeBytes(b0: byte, b1: byte, b2: byte, last: bool, urlSafe: bool)
    ensures DecodeGroup(EncodeThree(b0, b1, b2, urlSafe), last, urlSafe) == Some([b0, b1, b2])
  {
    var n := Pack3(b0, b1, b2);
    ThreeBytesSextets(b0, b1, b2);
    DecodeSextets(n / 262144, (n / 4096) % 64, (n / 64) % 64, n % 64, last, urlSafe);
  }

  /** Decoding undoes encoding, in both alphabets. */
  lemma {:induction false} Base64RoundTrip(bs: seq<byte>, urlSafe: bool)
    ensures Base64Decode(Base64Encode(bs, urlSafe), urlSafe) == Some(bs)
    decreases |bs|
  {
    if |bs| == 1 {
      RoundTripShort(bs, urlSafe);
    } else if |bs| == 2 {
      RoundTripShort(bs, urlSafe);
    } else if |bs| >= 3 {
      Base64RoundTrip(bs[3..], urlSafe);
      RoundTripStep(bs, urlSafe);
    }
  }

  /** Decoding a group in front of more text: the group's bytes, then the rest's. */
  lemma DecodeCons(g: string, rest: string, urlSafe: bool)
    requires |g| == 4
    ensures var d, r := DecodeGroup(g, rest == "", urlSafe), Base64Decode(rest, urlSafe);
      Base64Decode(g + rest, urlSafe) == if d.None? || r.None? then None else Some(d.value + r.value)
  {
    var s := g + rest;
    assert s[..4] == g && s[4..] == rest;
    assert |s| == 4 <==> rest == "";
  }

  /** Round trip for a final group of one or two bytes. */
  lemma RoundTripShort(bs: seq<byte>, urlSafe: bool)
    requires 1 <= |bs| <= 2
    ensures Base64Decode(Base64Encode(bs, urlSafe), urlSafe) == Some(bs)
  {
    var s := Base64Encode(bs, urlSafe);
    DecodeCons(s, "", urlSafe);
    assert s + "" == s;
    if |bs| == 1 {
      DecodeOneByte(bs[0], urlSafe);
      assert [bs[0]] + [] == bs;
    } else {
      DecodeTwoBytes(bs[0], bs[1], urlSafe);
      assert [bs[0], bs[1]] + [] == bs;
    }
  }

  /** Round trip for a full group of three bytes, given the round trip for the rest. */
  lemma RoundTripStep(bs: seq<byte>, urlSafe: bool)
    requires |bs| >= 3
    requires Base64Decode(Base64Encode(bs[3..], urlSafe), urlSafe) == Some(bs[3..])
    ensures Base64Decode(Base64Encode(bs, urlSafe), urlSafe) == Some(bs)
  {
    var g := EncodeThree(bs[0], bs[1], bs[2], urlSafe);
    var rest := Base64Encode(bs[3..], urlSafe);
    DecodeCons(g, rest, urlSafe);
    DecodeThreeBytes(bs[0], bs[1], bs[2], rest == "", urlSafe);
    assert [bs[0], bs[1], bs[2]] + bs[3..] == bs;
  }
}
