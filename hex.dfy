/** The hex rendering of a digest in `hashName`: every byte becomes
    `byte.toString(16).padStart(2, '0')` and the pieces are joined in order. The
    digest itself (SHA-256 of the UTF-8 name) is an input here. The same lower-case
    rendering is what `hex::encode` produces for the chunk digests of the content
    manager. */
module Hex {
  import opened Common
  import opened Numerals

  /** JavaScript `s.padStart(width, fill)` for a one-character `fill`. */
  function PadStart(s: string, width: nat, fill: char): (r: string)
    ensures |r| == if |s| >= width then |s| else width
    ensures r[|r| - |s|..] == s
    ensures forall i :: 0 <= i < |r| - |s| ==> r[i] == fill
  {
    if |s| >= width then s else seq(width - |s|, _ => fill) + s
  }

  /** `byte.toString(16).padStart(2, '0')`. */
  function ByteToHex(b: Byte): string
  {
    PadStart(ToRadix(b, 16), 2, '0')
  }

  /** Padding makes every byte exactly two digits: the high and the low nibble. */
  lemma ByteToHexDigits(b: Byte)
    ensures ByteToHex(b) == [DigitChar(b / 16), DigitChar(b % 16)]
  {
    if b >= 16 {
      TwoDigits(b, 16);
    }
  }

  /** `Array.from(digest).map(byte => byte.toString(16).padStart(2, '0')).join('')`. */
  function HexEncode(bytes: seq<Byte>): (s: string)
    ensures |s| == 2 * |bytes|
  {
    if bytes == [] then []
    else
      ByteToHexDigits(bytes[0]);
      ByteToHex(bytes[0]) + HexEncode(bytes[1..])
  }

  /** Byte `i` is rendered as characters `2i` and `2i+1`, high nibble first. */
  lemma {:induction false} HexEncodeAt(bytes: seq<Byte>, i: nat)
    requires i < |bytes|
    ensures HexEncode(bytes)[2 * i] == DigitChar(bytes[i] / 16)
    ensures HexEncode(bytes)[2 * i + 1] == DigitChar(bytes[i] % 16)
    decreases i
  {
    ByteToHexDigits(bytes[0]);
    var head, tail := ByteToHex(bytes[0]), HexEncode(bytes[1..]);
    assert HexEncode(bytes) == head + tail;
    if i > 0 {
      HexEncodeAt(bytes[1..], i - 1);
      assert 2 * i == 2 * (i - 1) + |head|;
    }
  }

  /** Every character of the rendering is one of 0-9a-f. */
  lemma HexEncodeIsLowerHex(bytes: seq<Byte>)
    ensures forall k :: 0 <= k < |HexEncode(bytes)| ==> IsLowerHexChar(HexEncode(bytes)[k])
  {
    var s := HexEncode(bytes);
    forall k | 0 <= k < |s|
      ensures IsLowerHexChar(s[k])
    {
      HexEncodeAt(bytes, k / 2);
    }
  }

  /** The byte whose high and low nibbles are `hi` and `lo`. */
  function FromNibbles(hi: int, lo: int): (b: Byte)
    requires 0 <= hi < 16 && 0 <= lo < 16
  {
    hi * 16 + lo
  }

  /** The inverse reading: two hex digits per byte, a trailing odd digit ignored. */
  function HexDecode(s: string): (bytes: seq<Byte>)
    requires forall k :: 0 <= k < |s| ==> IsDigit(s[k], 16)
    ensures |bytes| == |s| / 2
  {
    if |s| < 2 then []
    else
      assert IsDigit(s[0], 16) && IsDigit(s[1], 16);
      [FromNibbles(DigitValue(s[0]), DigitValue(s[1]))] + HexDecode(s[2..])
  }

  /** Every character of the rendering is a radix-16 digit. */
  lemma HexEncodeIsDigits(bytes: seq<Byte>)
    ensures forall k :: 0 <= k < |HexEncode(bytes)| ==> IsDigit(HexEncode(bytes)[k], 16)
  {
    var s := HexEncode(bytes);
    forall k | 0 <= k < |s|
      ensures IsDigit(s[k], 16)
    {
      var i := k / 2;
      HexEncodeAt(bytes, i);
      DigitRoundTrip(bytes[i] / 16);
      DigitRoundTrip(bytes[i] % 16);
      assert k == 2 * i || k == 2 * i + 1;
    }
  }

  /** The two digits of a byte read back as that byte. */
  lemma ReadBackByte(b: Byte, hi: char, lo: char)
    requires hi == DigitChar(b / 16) && lo == DigitChar(b % 16)
    ensures DigitValue(hi) == b / 16 && DigitValue(lo) == b % 16
    ensures FromNibbles(DigitValue(hi), DigitValue(lo)) == b
  {
    DigitRoundTrip(b / 16);
    DigitRoundTrip(b % 16);
  }

  /** Decoding the rendering gives back the digest. */
  lemma {:induction false} HexRoundTrip(bytes: seq<Byte>)
    ensures forall k :: 0 <= k < |HexEncode(bytes)| ==> IsDigit(HexEncode(bytes)[k], 16)
    ensures HexDecode(HexEncode(bytes)) == bytes
  {
    HexEncodeIsDigits(bytes);
    if bytes != [] {
      var b, rest := bytes[0], bytes[1..];
      assert bytes == [b] + rest;
      var s, tail := HexEncode(bytes), HexEncode(rest);
      assert s[2..] == tail && s[0] == DigitChar(b / 16) && s[1] == DigitChar(b % 16) by {
        ByteToHexDigits(b);
      }
      assert HexDecode(s)[0] == b by {
        ReadBackByte(b, s[0], s[1]);
      }
      assert HexDecode(tail) == rest by {
        HexRoundTrip(rest);
      }
    }
  }

  /** Distinct digests have distinct renderings. */
  lemma HexEncodeInjective(a: seq<Byte>, b: seq<Byte>)
    requires HexEncode(a) == HexEncode(b)
    ensures a == b
  {
    HexRoundTrip(a);
    HexRoundTrip(b);
  }
}
