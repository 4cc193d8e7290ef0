/**
 * The capture object of camera/cameraCapture.js. The device handle becomes a flag (present or
 * `null`), the temp directory becomes a map from file path to file contents, and everything the
 * camera driver and the image libraries do is an input: what the camera's callback reports and
 * writes (`Shot`), whether `sharp-bmp` can open a bitmap, and the outcome of the resize and JPEG
 * encode (`Render`).
 */
module Camera {

  import opened Wrappers
  import ImageFormat
  import Base64

  /** What the capture callback reports (an error message or none) and the file it left, if any. */
  datatype Shot = Shot(error: Option<string>, output: Option<seq<Byte>>)

  /**
   * The `sharp` pipeline after the file is opened: cover-resize, JPEG encode and `toBuffer`,
   * given the decoder that opened the file and the file's bytes. It may fail with a message.
   */
  type Render = (ImageFormat.Decoder, seq<Byte>) -> Result<seq<Byte>, string>

  /** The temp directory after the camera ran: the file it wrote, if any, sits at `path`. */
  function AfterShot(files: map<string, seq<Byte>>, path: string, shot: Shot): (after: map<string, seq<Byte>>)
    ensures after.Keys == if shot.output.Some? then files.Keys + {path} else files.Keys
    ensures forall p :: p in files && p != path ==> p in after && after[p] == files[p]
  {
    if shot.output.Some? then files[path := shot.output.value] else files
  }

  /**
   * The processing stage of a capture (camera/cameraCapture.js:110-182): validate the temp file,
   * sniff its format, open it with the matching decoder, render and base64-encode. `file` is what
   * the temp path holds (`None` when it does not exist). A failure carries the inner message,
   * before the caller prefixes "Error de procesamiento: ".
   */
  function Normalize(file: Option<seq<Byte>>, path: string, openBmp: Option<string>, render: Render): (r: Result<string, string>)
    ensures file.None? ==> r == Failure("Archivo temporal no existe: " + path)
    ensures file == Some([]) ==> r == Failure("Archivo temporal vacío (0 bytes)")
    ensures r.Success? ==>
      && file.Some? && |file.value| > 0
      && var d := ImageFormat.DecoderFor(ImageFormat.Classify(file.value));
      && (d == ImageFormat.BmpDecoder ==> openBmp.None?)
      && render(d, file.value).Success?
      && r.value == Base64.Encode(render(d, file.value).value)
    ensures file.Some? && ImageFormat.StartsWith(file.value, ImageFormat.BmpMagic) && openBmp.Some? ==>
      r == Failure("Error procesando BMP: " + openBmp.value)
    ensures file.Some? && |file.value| > 0 && !(ImageFormat.StartsWith(file.value, ImageFormat.BmpMagic) && openBmp.Some?) ==>
      var d := ImageFormat.DecoderFor(ImageFormat.Classify(file.value));
      && (render(d, file.value).Success? ==> r == Success(Base64.Encode(render(d, file.value).value)))
      && (render(d, file.value).Failure? ==> r == Failure(render(d, file.value).error))
  {
    match file
    case None => Failure("Archivo temporal no existe: " + path)
    case Some(buf) =>
      if |buf| == 0 then Failure("Archivo temporal vacío (0 bytes)")
      else
        var d := ImageFormat.DecoderFor(ImageFormat.Classify(buf));
        ImageFormat.BmpDecoderIff(buf);
        if d == ImageFormat.BmpDecoder && openBmp.Some? then Failure("Error procesando BMP: " + openBmp.value)
        else
          match render(d, buf)
          case Success(jpeg) => Success(Base64.Encode(jpeg))
          case Failure(m) => Failure(m)
  }

  /** The contents at `path`, or `None` when no such file exists. */
  function Lookup(files: map<string, seq<Byte>>, path: string): (r: Option<seq<Byte>>)
    ensures r.Some? <==> path in files
    ensures r.Some? ==> r.value == files[path]
  {
    if path in files then Some(files[path]) else None
  }

  class CameraCapture {
    /** The `node-webcam` handle is present (non-null). */
    var camera: bool
    /** The files in the temp directory, by path. */
    var tempFiles: map<string, seq<Byte>>

    /**
     * `new CameraCapture()`: the temp directory keeps whatever it already holds, and the device
     * handle exists when `NodeWebcam.create` did not throw.
     */
    constructor (created: bool, existing: map<string, seq<Byte>>)
      ensures camera == created && tempFiles == existing
    {
      camera := created;
      tempFiles := existing;
    }

    /** Removes one temp file if it exists; nothing else changes. */
    method CleanupTempFile(path: string)
      modifies this`tempFiles
      ensures path !in tempFiles
      ensures tempFiles == old(tempFiles) - {path}
    {
      if path in tempFiles {
        tempFiles := tempFiles - {path};
      }
    }

    /** Removes every file in the temp directory, one `cleanupTempFile` per listed entry. */
    method Cleanup()
      modifies this`tempFiles
      ensures tempFiles == map[]
    {
      var listing := tempFiles.Keys;
      while listing != {}
        invariant tempFiles.Keys == listing
        decreases listing
      {
        var f :| f in listing;
        CleanupTempFile(f);
        listing := listing - {f};
      }
      assert tempFiles.Keys == {};
    }

    /**
     * The capture used by the server (camera/cameraCapture.js:88-191): it resolves with the
     * base64 text of a 672x672 JPEG, or rejects with a message. The temp file is removed on every
     * exit after a successful shot, and left alone when the camera reports an error.
     */
    method CaptureImage672x672(path: string, shot: Shot, openBmp: Option<string>, render: Render)
      returns (r: Result<string, string>)
      modifies this`tempFiles
      ensures !camera ==> r == Failure("Cámara no inicializada") && tempFiles == old(tempFiles)
      ensures camera && shot.error.Some? ==>
        && r == Failure("Error de cámara: " + shot.error.value)
        && tempFiles == AfterShot(old(tempFiles), path, shot)
      ensures camera && shot.error.None? ==>
        && tempFiles == AfterShot(old(tempFiles), path, shot) - {path}
        && r == match Normalize(Lookup(AfterShot(old(tempFiles), path, shot), path), path, openBmp, render)
                case Success(b64) => Success(b64)
                case Failure(m) => Failure("Error de procesamiento: " + m)
    {
      if !camera {
        return Failure("Cámara no inicializada");
      }
      if shot.output.Some? {
        tempFiles := tempFiles[path := shot.output.value];
      }
      if shot.error.Some? {
        return Failure("Error de cámara: " + shot.error.value);
      }
      var processed := Normalize(Lookup(tempFiles, path), path, openBmp, render);
      CleanupTempFile(path);
      match processed
      case Success(b64) =>
        r := Success(b64);
      case Failure(m) =>
        r := Failure("Error de procesamiento: " + m);
    }

    /**
     * The start-up self-test (camera/cameraCapture.js:60-86): capture to a test file, check that
     * it exists and is not empty, and remove it. Its only caller runs it right after the device
     * handle was created.
     */
    method CaptureTestImage(path: string, shot: Shot) returns (r: Result<bool, string>)
      requires camera
      modifies this`tempFiles
      ensures shot.error.Some? ==>
        && r == Failure("Error de cámara test: " + shot.error.value)
        && tempFiles == AfterShot(old(tempFiles), path, shot)
      ensures shot.error.None? && path !in AfterShot(old(tempFiles), path, shot) ==>
        && r == Failure("Archivo de test no fue creado")
        && tempFiles == old(tempFiles)
      ensures shot.error.None? && path in AfterShot(old(tempFiles), path, shot) ==>
        && tempFiles == AfterShot(old(tempFiles), path, shot) - {path}
        && r == if |AfterShot(old(tempFiles), path, shot)[path]| > 0 then Success(true)
                else Failure("Archivo de test vacío")
    {
      if shot.output.Some? {
        tempFiles := tempFiles[path := shot.output.value];
      }
      if shot.error.Some? {
        return Failure("Error de cámara test: " + shot.error.value);
      }
      if path in tempFiles {
        if |tempFiles[path]| > 0 {
          CleanupTempFile(path);
          r := Success(true);
        } else {
          CleanupTempFile(path);
          r := Failure("Archivo de test vacío");
        }
      } else {
        r := Failure("Archivo de test no fue creado");
      }
    }
  }

  /** Removing a temp file twice has the effect of removing it once: the second call is a no-op. */
  method CleanupTempFileTwice(capture: CameraCapture, path: string)
    modifies capture
    ensures capture.tempFiles == old(capture.tempFiles) - {path}
    ensures capture.camera == old(capture.camera)
  {
    capture.CleanupTempFile(path);
    var once := capture.tempFiles;
    capture.CleanupTempFile(path);
    assert capture.tempFiles == once;
  }
}
