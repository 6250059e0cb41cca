/**
 * `processImage` of the iOS plugin as one function from the settings, the
 * picked image and what the device answers: orientation, resizing, encoding
 * and the response sent back.
 */
module IosPipeline {
  import opened Wrappers
  import opened Text
  import opened Base64
  import opened Options
  import opened IosImage
  import opened Callbacks

  /** `pngData()` or `jpegData(compressionQuality:)` with its quality between 0 and 1. */
  datatype ImageData = PngData | JpegData(compressionQuality: real)

  /** The platform encoder: the bytes of an image, or nil. */
  type ImageEncoder = (UIImage, ImageData) -> Option<seq<byte>>

  /** What the device answers while an image is processed. */
  datatype Rendering = Rendering(
    orientationDrawn: bool,    // whether the orientation context yields an image
    resizeDrawn: bool,         // whether the resize context yields an image
    encode: ImageEncoder,
    tmpDir: string,            // NSTemporaryDirectory(), which ends with a path separator
    millis: int,               // Int(Date().timeIntervalSince1970 * 1000)
    writeSucceeds: bool)       // whether data.write(to:) succeeds

  /** A successful run: the response, the image it describes, the encoded bytes and the file written, if any. */
  datatype Processed = Processed(response: Response, image: UIImage, bytes: seq<byte>, written: Option<string>)

  const ProcessingError: string := "Error procesando imagen"
  const FilePrefix: string := "slm_camera_"

  /** Swift's string interpolation of an `Int`. */
  function IntText(n: int): (t: string)
    ensures |t| >= 1
  {
    if n < 0 then "-" + Decimal(-n) else Decimal(n)
  }

  /** The name of the file written for `fileURI`: prefix, timestamp in milliseconds, extension. */
  function FileName(millis: int, png: bool): string
  {
    FilePrefix + IntText(millis) + (if png then ".png" else ".jpg")
  }

  /** The encoder call: PNG, or JPEG at quality / 100. */
  function EncodingFor(s: Settings): ImageData
  {
    if s.encodingType == 1 then PngData else JpegData(s.quality as real / 100.0)
  }

  function Oriented(s: Settings, original: UIImage, r: Rendering): UIImage
  {
    if s.correctOrientation then FixOrientation(original, r.orientationDrawn) else original
  }

  function Resized(s: Settings, image: UIImage, r: Rendering): UIImage
  {
    if s.targetWidth > 0 || s.targetHeight > 0 then ResizeImage(image, s.targetWidth, s.targetHeight, r.resizeDrawn)
    else image
  }

  /**
   * `processImage(originalImage)` for a plugin with a pending callback. A nil
   * encoding is the only failure; a failed file write is ignored and the
   * file URI is reported anyway.
   */
  function Process(s: Settings, original: UIImage, r: Rendering): Result<Processed, string>
  {
    var image := Resized(s, Oriented(s, original, r), r);
    var format := if s.encodingType == 1 then "png" else "jpeg";
    match r.encode(image, EncodingFor(s))
    case None => Failure(ProcessingError)
    case Some(data) =>
      if s.fileUri then
        var path := r.tmpDir + FileName(r.millis, format == "png");
        Success(Processed(Response(ReportedWidth(image), ReportedHeight(image), format, FileScheme + path),
                          image, data, if r.writeSucceeds then Some(path) else None))
      else
        Success(Processed(Response(ReportedWidth(image), ReportedHeight(image), format, Encode(data)),
                          image, data, None))
  }

  /** Processing fails exactly when the encoder returns nil, and then with one fixed message. */
  lemma ProcessFailsExactly(s: Settings, original: UIImage, r: Rendering)
    ensures Process(s, original, r).Failure? <==> r.encode(Resized(s, Oriented(s, original, r), r), EncodingFor(s)).None?
    ensures Process(s, original, r).Failure? ==> Process(s, original, r).error == ProcessingError
  {
  }

  /**
   * A successful response describes the final image: corrected when asked
   * and drawn, resized when asked and drawn, encoded as asked, with its size
   * truncated to whole points.
   */
  lemma ProcessedResponse(s: Settings, original: UIImage, r: Rendering)
    requires Process(s, original, r).Success?
    ensures var p := Process(s, original, r).value;
      && p.image == Resized(s, Oriented(s, original, r), r)
      && p.response.width == ReportedWidth(p.image) && p.response.height == ReportedHeight(p.image)
      && p.response.format == (if s.encodingType == 1 then "png" else "jpeg")
      && r.encode(p.image, EncodingFor(s)) == Some(p.bytes)
      && (s.correctOrientation && r.orientationDrawn ==> p.image.orientation == Up)
      && (s.targetWidth > 0 && s.targetHeight > 0 && r.resizeDrawn ==>
            p.response.width == s.targetWidth && p.response.height == s.targetHeight)
      && (s.targetWidth <= 0 && s.targetHeight <= 0 ==> p.image.size == original.size)
  {
    var p := Process(s, original, r).value;
    if s.targetWidth > 0 && s.targetHeight > 0 && r.resizeDrawn {
      assert p.image.size == Size(s.targetWidth as real, s.targetHeight as real);
      assert ((s.targetWidth as real).Floor) == s.targetWidth;
      assert ((s.targetHeight as real).Floor) == s.targetHeight;
    }
  }

  /** A URI built as scheme, directory, prefix, middle and extension starts with the first three and ends with the last. */
  lemma UriShape(scheme: string, dir: string, prefix: string, middle: string, ext: string)
    ensures StartsWith(scheme + (dir + (prefix + middle + ext)), scheme + dir + prefix)
    ensures EndsWith(scheme + (dir + (prefix + middle + ext)), ext)
  {
    var name := prefix + middle + ext;
    assert name == prefix + (middle + ext);
    ConcatStartsWith(prefix, middle + ext);
    ConcatEndsWith(prefix + middle, ext);
    StartsWithBoth(scheme + dir, name, prefix);
    EndsWithAfter(scheme + dir, name, ext);
    assert scheme + (dir + name) == (scheme + dir) + name;
  }

  /**
   * The `fileURI` payload: the scheme, then the path of a plugin file in the
   * temporary directory, ending with the extension of its format.
   */
  lemma FileUriPayload(tmpDir: string, millis: int, png: bool)
    ensures StartsWith(FileScheme + (tmpDir + FileName(millis, png)), FileScheme + tmpDir + FilePrefix)
    ensures EndsWith(FileScheme + (tmpDir + FileName(millis, png)), if png then ".png" else ".jpg")
  {
    UriShape(FileScheme, tmpDir, FilePrefix, IntText(millis), if png then ".png" else ".jpg");
  }

  /**
   * The payload is a `file://` URI of a plugin file in the temporary
   * directory, with the extension of its format, exactly when `fileURI` was
   * asked for; otherwise it is Base64
   * text that decodes back to the encoded bytes.
   */
  lemma PayloadIsFileUriOrBase64(s: Settings, original: UIImage, r: Rendering)
    requires Process(s, original, r).Success?
    ensures var p := Process(s, original, r).value;
      && (StartsWith(p.response.imageData, FileScheme) <==> s.fileUri)
      && (s.fileUri ==> StartsWith(p.response.imageData, FileScheme + r.tmpDir + FilePrefix))
      && (s.fileUri ==> EndsWith(p.response.imageData, if s.encodingType == 1 then ".png" else ".jpg"))
      && (!s.fileUri ==> Decode(p.response.imageData) == Some(p.bytes))
  {
    var p := Process(s, original, r).value;
    if s.fileUri {
      var path := r.tmpDir + FileName(r.millis, s.encodingType == 1);
      assert p.response.imageData == FileScheme + path;
      ConcatStartsWith(FileScheme, path);
      FileUriPayload(r.tmpDir, r.millis, s.encodingType == 1);
    } else {
      EncodedIsNotFileUri(p.bytes);
      DecodeEncode(p.bytes);
    }
  }

  /** A file is recorded as written only when the write succeeded, and the response does not depend on it. */
  lemma WriteFailureIsSilent(s: Settings, original: UIImage, r: Rendering)
    requires Process(s, original, r).Success?
    ensures Process(s, original, r.(writeSucceeds := !r.writeSucceeds)).Success?
    ensures Process(s, original, r.(writeSucceeds := !r.writeSucceeds)).value.response == Process(s, original, r).value.response
    ensures Process(s, original, r).value.written.Some? <==> s.fileUri && r.writeSucceeds
  {
  }

  /** With default options the result is the corrected image as JPEG at compression quality 0.85, inline as Base64. */
  lemma DefaultsGiveInlineJpeg(original: UIImage, r: Rendering)
    ensures var image := FixOrientation(original, r.orientationDrawn);
      Process(IosSettings(map[]), original, r) ==
        match r.encode(image, JpegData(0.85))
        case None => Failure(ProcessingError)
        case Some(data) =>
          Success(Processed(Response(ReportedWidth(image), ReportedHeight(image), "jpeg", Encode(data)), image, data, None))
  {
    EmptyOptionsGiveDefaults();
  }

  lemma DropSign(x: string, y: string)
    requires "-" + x == "-" + y
    ensures x == y
  {
    assert x == ("-" + x)[1..];
    assert y == ("-" + y)[1..];
  }

  lemma SameDecimal(m: nat, n: nat)
    requires Decimal(m) == Decimal(n)
    ensures m == n
  {
    DecimalRoundTrip(m);
    DecimalRoundTrip(n);
  }

  /** The timestamp text determines the timestamp. */
  lemma {:induction false} IntTextInjective(m: int, n: int)
    requires IntText(m) == IntText(n)
    ensures m == n
  {
    if m < 0 && n < 0 {
      DropSign(Decimal(-m), Decimal(-n));
      SameDecimal(-m, -n);
    } else if m >= 0 && n >= 0 {
      SameDecimal(m, n);
    }
  }

  /**
   * Files written at different milliseconds have different names, and every
   * name written is one `cleanup` recognises by its prefix.
   */
  lemma {:induction false} FileNamesByTime(m: int, n: int, png: bool)
    ensures StartsWith(FileName(m, png), FilePrefix)
    ensures m != n ==> FileName(m, png) != FileName(n, png)
  {
    var ext := if png then ".png" else ".jpg";
    ConcatStartsWith(FilePrefix, IntText(m) + ext);
    assert FileName(m, png) == FilePrefix + (IntText(m) + ext);
    if FileName(m, png) == FileName(n, png) {
      var a := FileName(m, png);
      assert |IntText(m)| == |IntText(n)|;
      assert IntText(m) == a[|FilePrefix|..|a| - 4] == IntText(n);
      IntTextInjective(m, n);
    }
  }
}
