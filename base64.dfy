/**
 * `btoa`: the host's Base64 encoder (section 4 of RFC 4648), applied to a
 * string whose characters are read as bytes. A character above U+00FF
 * raises InvalidCharacterError. `Atob` is the matching decoder.
 *
 * Encoding goes through digit values: 0..63 for the alphabet and `Pad`
 * for the padding character '='.
 */
module Base64 {
  import opened Wrappers
  import Json

  newtype byte = x: int | 0 <= x < 256

  /** A Base64 digit value, or `Pad` for '='. */
  type Digit = x: int | 0 <= x <= 64
  const Pad: Digit := 64

  /** The alphabet of Table 1 in section 4 of RFC 4648 (A-Z, a-z, 0-9, '+', '/'), and '=' for padding. */
  function DigitChar(d: Digit): char {
    if d < 26 then (65 + d) as char
    else if d < 52 then (97 + d - 26) as char
    else if d < 62 then (48 + d - 52) as char
    else if d == 62 then '+'
    else if d == 63 then '/'
    else '='
  }

  /** The digit a character stands for; a character outside the alphabet reads as 0. */
  function CharDigit(c: char): Digit {
    if 'A' <= c <= 'Z' then c as int - 65
    else if 'a' <= c <= 'z' then c as int - 97 + 26
    else if '0' <= c <= '9' then c as int - 48 + 52
    else if c == '+' then 62
    else if c == '/' then 63
    else if c == '=' then Pad
    else 0
  }

  /** The six-bit value of a digit; padding counts as zero. */
  function Val(d: Digit): int { d % 64 }

  lemma DigitRoundTrip(d: Digit)
    ensures CharDigit(DigitChar(d)) == d
  {
  }

  /** The four digits of a full group of three bytes. */
  function EncodeGroup(b0: byte, b1: byte, b2: byte): seq<Digit> {
    var x0, x1, x2 := b0 as int, b1 as int, b2 as int;
    [x0 / 4, x0 % 4 * 16 + x1 / 16, x1 % 16 * 4 + x2 / 64, x2 % 64]
  }

  /** The four digits of a final group of one or two bytes, zero-filled and padded. */
  function EncodeTail(bs: seq<byte>): seq<Digit>
    requires 1 <= |bs| <= 2
  {
    var x0 := bs[0] as int;
    if |bs| == 1 then [x0 / 4, x0 % 4 * 16, Pad, Pad]
    else
      var x1 := bs[1] as int;
      [x0 / 4, x0 % 4 * 16 + x1 / 16, x1 % 16 * 4, Pad]
  }

  /** The digits of a Base64 encoding: three bytes to four digits, the last group padded. */
  function EncodeDigits(bs: seq<byte>): (ds: seq<Digit>)
    ensures |ds| == (|bs| + 2) / 3 * 4
  {
    if |bs| == 0 then []
    else if |bs| <= 2 then EncodeTail(bs)
    else EncodeGroup(bs[0], bs[1], bs[2]) + EncodeDigits(bs[3..])
  }

  /** The bytes a sequence of digits stands for, four digits at a time; padding ends the data. */
  function DecodeDigits(ds: seq<Digit>): seq<byte>
  {
    if |ds| < 4 then []
    else
      var d0, d1, d2, d3 := Val(ds[0]), Val(ds[1]), Val(ds[2]), Val(ds[3]);
      var b0 := (d0 * 4 + d1 / 16) as byte;
      if ds[2] == Pad then [b0]
      else
        var b1 := (d1 % 16 * 16 + d2 / 4) as byte;
        if ds[3] == Pad then [b0, b1]
        else [b0, b1, (d2 % 4 * 64 + d3) as byte] + DecodeDigits(ds[4..])
  }

  function Encode(bs: seq<byte>): (r: string)
    ensures |r| == (|bs| + 2) / 3 * 4
  {
    var ds := EncodeDigits(bs);
    seq(|ds|, i requires 0 <= i < |ds| => DigitChar(ds[i]))
  }

  function Decode(s: string): seq<byte> {
    DecodeDigits(seq(|s|, i requires 0 <= i < |s| => CharDigit(s[i])))
  }

  lemma Split16(x: int, y: int)
    requires 0 <= x < 4 && 0 <= y < 256
    ensures (x * 16 + y / 16) / 16 == x && (x * 16 + y / 16) % 16 == y / 16
  {
  }

  lemma Split4(x: int, y: int)
    requires 0 <= x < 16 && 0 <= y < 256
    ensures (x * 4 + y / 64) / 4 == x && (x * 4 + y / 64) % 4 == y / 64
  {
  }

  /** The digits of a full group decode to its three bytes. */
  lemma GroupArithmetic(b0: int, b1: int, b2: int)
    requires 0 <= b0 < 256 && 0 <= b1 < 256 && 0 <= b2 < 256
    ensures var d0, d1, d2, d3 := b0 / 4, b0 % 4 * 16 + b1 / 16, b1 % 16 * 4 + b2 / 64, b2 % 64;
            && Val(d0) * 4 + Val(d1) / 16 == b0
            && Val(d1) % 16 * 16 + Val(d2) / 4 == b1
            && Val(d2) % 4 * 64 + Val(d3) == b2
  {
    Split16(b0 % 4, b1);
    Split4(b1 % 16, b2);
  }

  /** Decoding a full group and what follows it. */
  lemma DecodeGroup(b0: byte, b1: byte, b2: byte, rest: seq<Digit>)
    ensures DecodeDigits(EncodeGroup(b0, b1, b2) + rest) == [b0, b1, b2] + DecodeDigits(rest)
  {
    var ds := EncodeGroup(b0, b1, b2) + rest;
    assert ds[4..] == rest;
    GroupArithmetic(b0 as int, b1 as int, b2 as int);
  }

  /** Decoding a final group of one or two bytes. */
  lemma DecodeTail(bs: seq<byte>)
    requires 1 <= |bs| <= 2
    ensures DecodeDigits(EncodeTail(bs)) == bs
  {
    var b1 := if |bs| == 2 then bs[1] as int else 0;
    GroupArithmetic(bs[0] as int, b1, 0);
    assert |bs| == 1 ==> bs == [bs[0]];
    assert |bs| == 2 ==> bs == [bs[0], bs[1]];
  }

  /** Decoding inverts encoding at the level of digits. */
  lemma {:induction false} DecodeEncodeDigits(bs: seq<byte>)
    ensures DecodeDigits(EncodeDigits(bs)) == bs
    decreases |bs|
  {
    if |bs| == 0 {
    } else if |bs| <= 2 {
      DecodeTail(bs);
    } else {
      DecodeGroup(bs[0], bs[1], bs[2], EncodeDigits(bs[3..]));
      DecodeEncodeDigits(bs[3..]);
      assert bs == [bs[0], bs[1], bs[2]] + bs[3..];
    }
  }

  /** Decoding inverts encoding. */
  lemma DecodeEncode(bs: seq<byte>)
    ensures Decode(Encode(bs)) == bs
  {
    var ds := EncodeDigits(bs);
    var e := Encode(bs);
    var back := seq(|e|, i requires 0 <= i < |e| => CharDigit(e[i]));
    forall i | 0 <= i < |ds| ensures back[i] == ds[i] {
      DigitRoundTrip(ds[i]);
    }
    assert back == ds;
    DecodeEncodeDigits(bs);
  }

  /** Every character is a single byte (at most U+00FF), as `btoa` demands. */
  predicate IsLatin1(s: string) {
    forall i :: 0 <= i < |s| ==> s[i] as int < 256
  }

  function Latin1Bytes(s: string): (bs: seq<byte>)
    requires IsLatin1(s)
    ensures |bs| == |s| && forall i :: 0 <= i < |s| ==> bs[i] as int == s[i] as int
  {
    seq(|s|, i requires 0 <= i < |s| => s[i] as int as byte)
  }

  /** `btoa(s)`. */
  function Btoa(s: string): (r: Result<string, Json.JsError>)
    ensures r.Failure? <==> !IsLatin1(s)
    ensures r.Failure? ==> r.error == Json.InvalidCharacterError
    ensures r.Success? ==> |r.value| == (|s| + 2) / 3 * 4
  {
    if IsLatin1(s) then Success(Encode(Latin1Bytes(s))) else Failure(Json.InvalidCharacterError)
  }

  /** `atob(t)` on a well-formed encoding: the decoded bytes read back as characters. */
  function Atob(t: string): string {
    var bs := Decode(t);
    seq(|bs|, i requires 0 <= i < |bs| => bs[i] as int as char)
  }

  /** Decoding what `btoa` produced gives the original string back. */
  lemma BtoaRoundTrip(s: string)
    requires IsLatin1(s)
    ensures Btoa(s).Success? && Atob(Btoa(s).value) == s
  {
    DecodeEncode(Latin1Bytes(s));
    assert Atob(Btoa(s).value) == s;
  }
}
