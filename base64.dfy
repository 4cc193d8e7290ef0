/**
 * The base64 text encoding of a byte buffer (section 4 of RFC 4648), as produced by
 * `resizedBuffer.toString('base64')` in camera/cameraCapture.js. It is modelled so that the
 * server's size ceiling on base64 text can be restated as a ceiling on JPEG bytes.
 */
module Base64 {

  import opened Wrappers

  /** The padding character. */
  const Pad: char := '='

  /** A character of the 64-character alphabet of section 4 of RFC 4648. */
  predicate IsAlphabetChar(c: char) {
    ('A' <= c <= 'Z') || ('a' <= c <= 'z') || ('0' <= c <= '9') || c == '+' || c == '/'
  }

  /** A character that may appear in encoded text. */
  predicate IsEncodingChar(c: char) {
    IsAlphabetChar(c) || c == Pad
  }

  /** The character for a six-bit value (Table 1 of RFC 4648): A-Z, a-z, 0-9, '+', '/'. */
  function Digit(v: int): (c: char)
    requires 0 <= v < 64
    ensures IsAlphabetChar(c)
  {
    if v < 26 then (65 + v) as char
    else if v < 52 then (97 + v - 26) as char
    else if v < 62 then (48 + v - 52) as char
    else if v == 62 then '+'
    else '/'
  }

  /** Encodes one group of one to three bytes as four characters, padding a short group. */
  function Group(g: seq<Byte>): (s: string)
    requires 1 <= |g| <= 3
    ensures |s| == 4
    ensures forall c :: c in s ==> IsEncodingChar(c)
  {
    var b1 := if |g| > 1 then g[1] else 0;
    var b2 := if |g| > 2 then g[2] else 0;
    [Digit(g[0] / 4),
     Digit((g[0] % 4) * 16 + b1 / 16),
     if |g| > 1 then Digit((b1 % 16) * 4 + b2 / 64) else Pad,
     if |g| > 2 then Digit(b2 % 64) else Pad]
  }

  /** Encodes three bytes at a time; a final group of one or two bytes is padded to four characters. */
  function Encode(b: seq<Byte>): (s: string)
    ensures |s| == 4 * ((|b| + 2) / 3)
    ensures forall c :: c in s ==> IsEncodingChar(c)
    decreases |b|
  {
    if |b| == 0 then ""
    else if |b| <= 3 then Group(b)
    else
      var rest := Encode(b[3..]);
      assert |rest| == 4 * ((|b| - 1) / 3);
      assert (|b| + 2) / 3 == (|b| - 1) / 3 + 1;
      Group(b[..3]) + rest
  }

  /** Encoded text is empty exactly when the buffer is. */
  lemma EncodeEmptyIff(b: seq<Byte>)
    ensures Encode(b) == "" <==> b == []
  {
  }

  /**
   * A ceiling of `4 * k` characters on the encoded text is a ceiling of `3 * k` bytes on the
   * buffer: the text fits exactly when the bytes do.
   */
  lemma EncodedFits(b: seq<Byte>, k: nat)
    ensures |Encode(b)| <= 4 * k <==> |b| <= 3 * k
  {
  }
}
