/**
 * The two text encodings of random bytes used by `/start-oauth`
 * (docker/hydra/index.js:173-178): Node's `toString('hex')` (lower-case, two
 * digits per byte, high nibble first) and `toString('base64url')` / `digest('base64url')`,
 * the URL- and filename-safe alphabet of section 5 of RFC 4648 without padding.
 * Each encoder has a decoder, and the pair is proved to be a round trip.
 */
module Encoding {
  import opened JsValues

  type byte = x: int | 0 <= x < 256

  /** A digit of Node's lower-case hex output. */
  predicate IsLowerHex(c: char) {
    '0' <= c <= '9' || 'a' <= c <= 'f'
  }

  /** An unreserved URI character (section 2.3 of RFC 3986), the alphabet RFC 7636 allows for a code verifier. */
  predicate IsUnreserved(c: char) {
    'A' <= c <= 'Z' || 'a' <= c <= 'z' || '0' <= c <= '9' || c == '-' || c == '.' || c == '_' || c == '~'
  }

  // ---------------------------------------------------------------- hex

  /** The value of a lower-case hex digit; missing for any other character. */
  function HexValue(c: char): (v: Option<nat>)
    ensures v.Some? <==> IsLowerHex(c)
    ensures v.Some? ==> v.value < 16
  {
    if '0' <= c <= '9' then Some(c as int - '0' as int)
    else if 'a' <= c <= 'f' then Some(c as int - 'a' as int + 10)
    else None
  }

  /** The lower-case hex digit of a nibble. */
  function HexDigit(v: nat): (c: char)
    requires v < 16
    ensures IsLowerHex(c)
    ensures HexValue(c) == Some(v)
  {
    if v < 10 then ('0' as int + v) as char else ('a' as int + v - 10) as char
  }

  /** `Buffer.from(bs).toString('hex')`. */
  function Hex(bs: seq<byte>): (s: string)
    ensures |s| == 2 * |bs|
    ensures forall i :: 0 <= i < |s| ==> IsLowerHex(s[i])
  {
    if bs == [] then "" else [HexDigit(bs[0] / 16), HexDigit(bs[0] % 16)] + Hex(bs[1..])
  }

  /** Decodes lower-case hex; missing for an odd length or a character outside `[0-9a-f]`. */
  function HexDecode(s: string): (r: Option<seq<byte>>)
    ensures r.Some? ==> |s| == 2 * |r.value|
  {
    if |s| == 0 then Some([])
    else if |s| == 1 then None
    else
      var hi, lo := HexValue(s[0]), HexValue(s[1]);
      if hi.None? || lo.None? then None
      else match HexDecode(s[2..])
        case None => None
        case Some(rest) => Some([(hi.value * 16 + lo.value) as byte] + rest)
  }

  /** Decoding the hex of any byte string gives the bytes back. */
  lemma {:induction false} HexRoundTrip(bs: seq<byte>)
    ensures HexDecode(Hex(bs)) == Some(bs)
  {
    if bs != [] {
      var s := Hex(bs);
      assert s[2..] == Hex(bs[1..]);
      HexRoundTrip(bs[1..]);
      assert bs == [bs[0]] + bs[1..];
    }
  }

  /** Hex is the only text HexDecode accepts for its result: the decoder is exactly the inverse. */
  lemma {:induction false} HexDecodeInverse(s: string, bs: seq<byte>)
    requires HexDecode(s) == Some(bs)
    ensures Hex(bs) == s
  {
    if |s| > 0 {
      var hi, lo := HexValue(s[0]).value, HexValue(s[1]).value;
      var rest := HexDecode(s[2..]).value;
      assert bs == [(hi * 16 + lo) as byte] + rest;
      HexDecodeInverse(s[2..], rest);
      assert HexDigit(hi) == s[0] && HexDigit(lo) == s[1];
      assert s == [s[0], s[1]] + s[2..];
    }
  }

  // ---------------------------------------------------------------- base64url

  /** A character of the base64url alphabet of section 5 of RFC 4648. */
  predicate IsBase64UrlChar(c: char) {
    'A' <= c <= 'Z' || 'a' <= c <= 'z' || '0' <= c <= '9' || c == '-' || c == '_'
  }

  /** The value of a base64url character; missing for any other character (padding included). */
  function SextetValue(c: char): (v: Option<nat>)
    ensures v.Some? <==> IsBase64UrlChar(c)
    ensures v.Some? ==> v.value < 64
  {
    if 'A' <= c <= 'Z' then Some(c as int - 'A' as int)
    else if 'a' <= c <= 'z' then Some(c as int - 'a' as int + 26)
    else if '0' <= c <= '9' then Some(c as int - '0' as int + 52)
    else if c == '-' then Some(62)
    else if c == '_' then Some(63)
    else None
  }

  /** The base64url character of a six-bit value. */
  function Sextet(v: nat): (c: char)
    requires v < 64
    ensures IsBase64UrlChar(c)
    ensures SextetValue(c) == Some(v)
  {
    if v < 26 then ('A' as int + v) as char
    else if v < 52 then ('a' as int + v - 26) as char
    else if v < 62 then ('0' as int + v - 52) as char
    else if v == 62 then '-'
    else '_'
  }

  /** Length of unpadded base64 text for `n` bytes: four characters per three bytes, plus two or three for a tail. */
  function Base64UrlLength(n: nat): nat {
    4 * (n / 3) + (if n % 3 == 0 then 0 else n % 3 + 1)
  }

  /** The four characters of a full group of three bytes. */
  function EncodeGroup(b0: byte, b1: byte, b2: byte): string {
    [Sextet(b0 / 4), Sextet(b0 % 4 * 16 + b1 / 16), Sextet(b1 % 16 * 4 + b2 / 64), Sextet(b2 % 64)]
  }

  /** `Buffer.from(bs).toString('base64url')`: groups of three bytes become four characters, no padding. */
  function Base64Url(bs: seq<byte>): (s: string)
    ensures |s| == Base64UrlLength(|bs|)
    ensures forall i :: 0 <= i < |s| ==> IsBase64UrlChar(s[i])
    decreases |bs|
  {
    if |bs| >= 3 then EncodeGroup(bs[0], bs[1], bs[2]) + Base64Url(bs[3..])
    else if |bs| == 2 then EncodeGroup(bs[0], bs[1], 0)[..3]
    else if |bs| == 1 then EncodeGroup(bs[0], 0, 0)[..2]
    else ""
  }

  /** The three bytes carried by four sextets. */
  function DecodeGroup(a: nat, b: nat, c: nat, d: nat): (r: seq<byte>)
    requires a < 64 && b < 64 && c < 64 && d < 64
    ensures |r| == 3
  {
    [(a * 4 + b / 16) as byte, (b % 16 * 16 + c / 4) as byte, (c % 4 * 64 + d) as byte]
  }

  /**
   * Decodes unpadded base64url; missing for a length of 1 modulo 4, a character
   * outside the alphabet, or a final character whose unused bits are not zero.
   */
  function Base64UrlDecode(s: string): (r: Option<seq<byte>>)
    decreases |s|
  {
    if |s| == 0 then Some([])
    else if |s| == 1 then None
    else
      var a, b := SextetValue(s[0]), SextetValue(s[1]);
      var c := if |s| >= 3 then SextetValue(s[2]) else Some(0);
      var d := if |s| >= 4 then SextetValue(s[3]) else Some(0);
      if a.None? || b.None? || c.None? || d.None? then None
      else
        var group := DecodeGroup(a.value, b.value, c.value, d.value);
        if |s| == 2 then (if b.value % 16 == 0 then Some(group[..1]) else None)
        else if |s| == 3 then (if c.value % 4 == 0 then Some(group[..2]) else None)
        else match Base64UrlDecode(s[4..])
          case None => None
          case Some(rest) => Some(group + rest)
  }

  /** Every base64url character is an unreserved URI character, so the text needs no escaping in a URL. */
  lemma Base64UrlCharIsUnreserved(c: char)
    requires IsBase64UrlChar(c)
    ensures IsUnreserved(c)
  {
  }

  /** The bytes of one group survive the split into four sextets, and a short group leaves zero bits behind. */
  lemma GroupRoundTrip(b0: byte, b1: byte, b2: byte)
    ensures var g := EncodeGroup(b0, b1, b2);
      && SextetValue(g[0]).Some? && SextetValue(g[1]).Some? && SextetValue(g[2]).Some? && SextetValue(g[3]).Some?
      && DecodeGroup(SextetValue(g[0]).value, SextetValue(g[1]).value, SextetValue(g[2]).value, SextetValue(g[3]).value)
         == [b0, b1, b2]
      && (b1 == 0 && b2 == 0 ==> SextetValue(g[1]).value % 16 == 0)
      && (b2 == 0 ==> SextetValue(g[2]).value % 4 == 0)
  {
    var s0, s1, s2, s3 := b0 / 4, b0 % 4 * 16 + b1 / 16, b1 % 16 * 4 + b2 / 64, b2 % 64;
    assert s1 / 16 == b0 % 4 && s1 % 16 == b1 / 16;
    assert s2 / 4 == b1 % 16 && s2 % 4 == b2 / 64;
  }

  /** One or two trailing bytes survive their short group. */
  lemma TailRoundTrip(bs: seq<byte>)
    requires 0 < |bs| < 3
    ensures Base64UrlDecode(Base64Url(bs)) == Some(bs)
  {
    if |bs| == 2 {
      GroupRoundTrip(bs[0], bs[1], 0);
      assert bs == [bs[0], bs[1], 0][..2];
    } else {
      GroupRoundTrip(bs[0], 0, 0);
      assert bs == [bs[0], 0, 0][..1];
    }
  }

  /** A full group in front of any decodable text decodes to its three bytes in front. */
  lemma FullGroupDecodes(b0: byte, b1: byte, b2: byte, t: string, rest: seq<byte>)
    requires Base64UrlDecode(t) == Some(rest)
    ensures Base64UrlDecode(EncodeGroup(b0, b1, b2) + t) == Some([b0, b1, b2] + rest)
  {
    var g := EncodeGroup(b0, b1, b2);
    GroupRoundTrip(b0, b1, b2);
    var s := g + t;
    assert s[0] == g[0] && s[1] == g[1] && s[2] == g[2] && s[3] == g[3];
    assert s[4..] == t;
  }

  /** Decoding the base64url text of any byte string gives the bytes back. */
  lemma {:induction false} Base64UrlRoundTrip(bs: seq<byte>)
    ensures Base64UrlDecode(Base64Url(bs)) == Some(bs)
    decreases |bs|
  {
    if |bs| >= 3 {
      Base64UrlRoundTrip(bs[3..]);
      FullGroupDecodes(bs[0], bs[1], bs[2], Base64Url(bs[3..]), bs[3..]);
      assert bs == [bs[0], bs[1], bs[2]] + bs[3..];
    } else if |bs| > 0 {
      TailRoundTrip(bs);
    }
  }
}
