/**
 * Format sniffing of a raw capture in camera/cameraCapture.js: the first bytes of the file the
 * camera wrote select the decoder. The main capture path knows JPEG, BMP and PNG signatures; the
 * preview path only JPEG and BMP. An unrecognised signature is never rejected here: it goes to
 * the default decoder, whose own failure is the authoritative one.
 */
module ImageFormat {

  import opened Wrappers

  /** The container format the main capture path recognises. */
  datatype Format = Jpeg | Bmp | Png | Unknown

  /** The library that opens the file: `sharp` itself, or `sharp-bmp` for bitmaps. */
  datatype Decoder = Standard | BmpDecoder

  const JpegMagic: seq<Byte> := [0xFF, 0xD8]
  const BmpMagic: seq<Byte> := [0x42, 0x4D]
  const PngMagic: seq<Byte> := [0x89, 0x50, 0x4E, 0x47]

  /** The buffer begins with the given signature. */
  predicate StartsWith(buf: seq<Byte>, magic: seq<Byte>) {
    |magic| <= |buf| && buf[..|magic|] == magic
  }

  /** The if/else chain of the main capture path, with its length guards 2, 2 and 8. */
  function Classify(buf: seq<Byte>): (f: Format)
    ensures f == Jpeg <==> StartsWith(buf, JpegMagic)
    ensures f == Bmp <==> StartsWith(buf, BmpMagic)
    ensures f == Png <==> |buf| >= 8 && StartsWith(buf, PngMagic)
  {
    if |buf| >= 2 && buf[0] == 0xFF && buf[1] == 0xD8 then Jpeg
    else if |buf| >= 2 && buf[0] == 0x42 && buf[1] == 0x4D then Bmp
    else if |buf| >= 8 && buf[0] == 0x89 && buf[1] == 0x50 && buf[2] == 0x4E && buf[3] == 0x47 then Png
    else Unknown
  }

  /** Only a bitmap is opened with `sharp-bmp`; JPEG, PNG and unknown data all go to `sharp`. */
  function DecoderFor(f: Format): (d: Decoder)
    ensures d == BmpDecoder <==> f == Bmp
  {
    match f
    case Bmp => BmpDecoder
    case _ => Standard
  }

  /** Indexing a Node.js buffer: out of range yields `undefined`, which equals no byte value. */
  function At(buf: seq<Byte>, i: nat): (r: Option<Byte>)
    ensures r.Some? <==> i < |buf|
    ensures r.Some? ==> r.value == buf[i]
  {
    if i < |buf| then Some(buf[i]) else None
  }

  /** The weaker dispatch of the preview path: no length guard and no PNG branch. */
  function PreviewDecoder(buf: seq<Byte>): (d: Decoder)
    ensures d == BmpDecoder <==> StartsWith(buf, BmpMagic)
    ensures d == DecoderFor(Classify(buf))
  {
    if At(buf, 0) == Some(0xFF) && At(buf, 1) == Some(0xD8) then Standard
    else if At(buf, 0) == Some(0x42) && At(buf, 1) == Some(0x4D) then BmpDecoder
    else Standard
  }

  /** The BMP decoder is chosen exactly for buffers that start with `42 4D`. */
  lemma BmpDecoderIff(buf: seq<Byte>)
    ensures DecoderFor(Classify(buf)) == BmpDecoder <==> StartsWith(buf, BmpMagic)
  {
  }

  /** A PNG signature in a buffer of four to seven bytes falls through to the default decoder. */
  lemma ShortPngIsUnknown(buf: seq<Byte>)
    requires 4 <= |buf| < 8 && StartsWith(buf, PngMagic)
    ensures Classify(buf) == Unknown && DecoderFor(Classify(buf)) == Standard
  {
  }

  /** A buffer of fewer than two bytes is unknown and goes to the default decoder. */
  lemma ShortBufferIsUnknown(buf: seq<Byte>)
    requires |buf| < 2
    ensures Classify(buf) == Unknown && DecoderFor(Classify(buf)) == Standard
  {
  }

  /** The first four bytes of a buffer (fewer if it is shorter). */
  function Head(buf: seq<Byte>): (h: seq<Byte>)
    ensures |h| == if |buf| <= 4 then |buf| else 4
    ensures h == buf[..|h|]
  {
    if |buf| <= 4 then buf else buf[..4]
  }

  /** Classification reads nothing beyond the first four bytes and the thresholds 2 and 8. */
  lemma ClassifyDependsOnHead(a: seq<Byte>, b: seq<Byte>)
    requires Head(a) == Head(b)
    requires |a| >= 2 <==> |b| >= 2
    requires |a| >= 8 <==> |b| >= 8
    ensures Classify(a) == Classify(b)
  {
  }

}
