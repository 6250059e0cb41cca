/**
 * `processImage` of the Android plugin as one function from the settings,
 * the decoded bitmap and what the device answers to the payload: orientation
 * correction, resizing, compression and the response it hands back.
 */
module AndroidPipeline {
  import opened Wrappers
  import opened Text
  import opened Base64
  import opened Options
  import opened AndroidImage
  import opened Callbacks

  datatype CompressFormat = Jpeg | Png

  /** A successful run: the response, the bitmap it describes and the compressed bytes. */
  datatype Processed = Processed(response: Response, bitmap: Bitmap, bytes: seq<byte>)

  /**
   * `Bitmap.compress` as the plugin sees it: the bytes the platform codec
   * writes for a bitmap, a format and a quality (the codec is not modelled).
   */
  type Encoder = (Bitmap, CompressFormat, int) -> seq<byte>

  /** The cache directory as the `fileURI` branch meets it. */
  datatype CacheFiles = CacheFiles(
    cacheDir: string,                    // `getCacheDir()`, an absolute path
    tempName: Result<string, string>,    // the part `File.createTempFile` generates, or its IOException message
    writeError: Option<string>)          // the IOException message of writing or closing the file, if any

  const ErrorPrefix: string := "Error procesando imagen: "
  const BadQualityMessage: string := "quality must be 0..100"
  const CacheSubdir: string := "/slm_camera/"
  const TempPrefix: string := "slm_camera_"

  function FormatOf(encodingType: int): (f: CompressFormat)
    ensures f == Png <==> encodingType == 1
  {
    if encodingType == 1 then Png else Jpeg
  }

  /** The `format` field of the response. */
  function FormatName(f: CompressFormat): string
  {
    if f == Png then "png" else "jpeg"
  }

  /** The extension of a file written for `fileURI`. */
  function Extension(f: CompressFormat): string
  {
    if f == Png then "png" else "jpg"
  }

  /** `Bitmap.compress(format, quality, stream)`: the codec's bytes, or the exception for a quality outside 0..100. */
  function Compress(b: Bitmap, f: CompressFormat, quality: int, encode: Encoder): (r: Result<seq<byte>, string>)
    ensures r.Success? <==> 0 <= quality <= 100
    ensures r.Success? ==> r.value == encode(b, f, quality)
    ensures r.Failure? ==> r.error == BadQualityMessage
  {
    if 0 <= quality <= 100 then Success(encode(b, f, quality)) else Failure(BadQualityMessage)
  }

  /** PNG is always compressed at quality 100; JPEG at the requested quality. */
  function QualityFor(f: CompressFormat, quality: int): int
  {
    if f == Png then 100 else quality
  }

  /** `createTempFile(extension)`: the absolute path of a new file under the plugin's cache directory. */
  function TempFilePath(files: CacheFiles, extension: string): (r: Result<string, string>)
    ensures r.Success? <==> files.tempName.Success?
    ensures r.Success? ==> StartsWith(r.value, files.cacheDir + CacheSubdir + TempPrefix)
    ensures r.Success? ==> EndsWith(r.value, "." + extension)
  {
    match files.tempName
    case Failure(m) => Failure(m)
    case Success(name) =>
      var path := files.cacheDir + CacheSubdir + TempPrefix + name + "." + extension;
      ConcatStartsWith(files.cacheDir + CacheSubdir + TempPrefix, name + "." + extension);
      assert path == (files.cacheDir + CacheSubdir + TempPrefix) + (name + "." + extension);
      ConcatEndsWith(files.cacheDir + CacheSubdir + TempPrefix + name, "." + extension);
      Success(path)
  }

  /** The bitmap after the orientation step: only a file with a path is corrected. */
  function Oriented(s: Settings, original: Bitmap, sourcePath: Option<string>, exif: ExifRead): Bitmap
  {
    if s.correctOrientation && sourcePath.Some? then FixOrientation(original, exif) else original
  }

  /** The bitmap after the resize step, which runs when either target is positive. */
  function Resized(s: Settings, b: Bitmap): Result<Bitmap, string>
  {
    if s.targetWidth > 0 || s.targetHeight > 0 then ResizeBitmap(b, s.targetWidth, s.targetHeight) else Success(b)
  }

  /**
   * `processImage(originalBitmap, sourcePath)`; `exif` is what reading the
   * Exif data at `sourcePath` gives. A failure carries the text of the error
   * callback.
   */
  function Process(s: Settings, original: Bitmap, sourcePath: Option<string>, exif: ExifRead,
                   encode: Encoder, files: CacheFiles): Result<Processed, string>
  {
    var oriented := Oriented(s, original, sourcePath, exif);
    match Resized(s, oriented)
    case Failure(m) => Failure(ErrorPrefix + m)
    case Success(bitmap) =>
      var format := FormatOf(s.encodingType);
      match Compress(bitmap, format, QualityFor(format, s.quality), encode)
      case Failure(m) => Failure(ErrorPrefix + m)
      case Success(bytes) =>
        if s.fileUri then
          match TempFilePath(files, Extension(format))
          case Failure(m) => Failure(ErrorPrefix + m)
          case Success(path) =>
            if files.writeError.Some? then Failure(ErrorPrefix + files.writeError.value)
            else Success(Processed(Response(bitmap.width, bitmap.height, FormatName(format), FileScheme + path), bitmap, bytes))
        else
          Success(Processed(Response(bitmap.width, bitmap.height, FormatName(format), Encode(bytes)), bitmap, bytes))
  }

  /** Processing fails exactly when resizing, JPEG quality or the file write fails; every failure is reported under one prefix. */
  lemma ProcessFailsExactly(s: Settings, original: Bitmap, sourcePath: Option<string>, exif: ExifRead,
                            encode: Encoder, files: CacheFiles)
    ensures Process(s, original, sourcePath, exif, encode, files).Failure? <==>
      || Resized(s, Oriented(s, original, sourcePath, exif)).Failure?
      || (s.encodingType != 1 && !(0 <= s.quality <= 100))
      || (s.fileUri && (files.tempName.Failure? || files.writeError.Some?))
    ensures Process(s, original, sourcePath, exif, encode, files).Failure? ==>
      StartsWith(Process(s, original, sourcePath, exif, encode, files).error, ErrorPrefix)
  {
    var r := Process(s, original, sourcePath, exif, encode, files);
    if r.Failure? {
      assert exists m :: r.error == ErrorPrefix + m;
      var m :| r.error == ErrorPrefix + m;
      ConcatStartsWith(ErrorPrefix, m);
    }
  }

  /** A successful response describes the final bitmap: oriented, then resized, then compressed in the chosen format. */
  lemma ProcessedResponse(s: Settings, original: Bitmap, sourcePath: Option<string>, exif: ExifRead,
                          encode: Encoder, files: CacheFiles)
    requires Process(s, original, sourcePath, exif, encode, files).Success?
    ensures var p := Process(s, original, sourcePath, exif, encode, files).value;
      && p.response.width == p.bitmap.width && p.response.height == p.bitmap.height
      && Resized(s, Oriented(s, original, sourcePath, exif)) == Success(p.bitmap)
      && (s.targetWidth > 0 && s.targetHeight > 0 ==>
            p.bitmap.width == s.targetWidth && p.bitmap.height == s.targetHeight)
      && (s.targetWidth <= 0 && s.targetHeight <= 0 ==> p.bitmap == Oriented(s, original, sourcePath, exif))
      && p.response.format == (if s.encodingType == 1 then "png" else "jpeg")
      && p.bytes == encode(p.bitmap, FormatOf(s.encodingType), if s.encodingType == 1 then 100 else s.quality)
  {
  }

  /**
   * The payload is a `file://` URI of a new file in the plugin's cache
   * directory exactly when `fileURI` was asked for; otherwise it is Base64
   * text that decodes back to the compressed bytes.
   */
  lemma PayloadIsFileUriOrBase64(s: Settings, original: Bitmap, sourcePath: Option<string>, exif: ExifRead,
                                 encode: Encoder, files: CacheFiles)
    requires Process(s, original, sourcePath, exif, encode, files).Success?
    ensures var p := Process(s, original, sourcePath, exif, encode, files).value;
      && (StartsWith(p.response.imageData, FileScheme) <==> s.fileUri)
      && (s.fileUri ==> StartsWith(p.response.imageData, FileScheme + files.cacheDir + CacheSubdir + TempPrefix))
      && (s.fileUri ==> EndsWith(p.response.imageData, "." + Extension(FormatOf(s.encodingType))))
      && (!s.fileUri ==> Decode(p.response.imageData) == Some(p.bytes))
  {
    var p := Process(s, original, sourcePath, exif, encode, files).value;
    if s.fileUri {
      var path := TempFilePath(files, Extension(FormatOf(s.encodingType))).value;
      assert p.response.imageData == FileScheme + path;
      ConcatStartsWith(FileScheme, path);
      StartsWithBoth(FileScheme, path, files.cacheDir + CacheSubdir + TempPrefix);
      EndsWithAfter(FileScheme, path, "." + Extension(FormatOf(s.encodingType)));
    } else {
      assert p.response.imageData == Encode(p.bytes);
      EncodedIsNotFileUri(p.bytes);
      DecodeEncode(p.bytes);
    }
  }

  /** A gallery pick has no file path, so its Exif data plays no part. */
  lemma GalleryPickIgnoresExif(s: Settings, original: Bitmap, exif1: ExifRead, exif2: ExifRead,
                               encode: Encoder, files: CacheFiles)
    ensures Process(s, original, None, exif1, encode, files) == Process(s, original, None, exif2, encode, files)
  {
  }

  /** An unreadable Exif block is not an error: the result is that of not correcting at all. */
  lemma UnreadableExifIsNotAnError(s: Settings, original: Bitmap, sourcePath: Option<string>,
                                   encode: Encoder, files: CacheFiles)
    ensures Process(s, original, sourcePath, ExifUnreadable, encode, files) ==
            Process(s.(correctOrientation := false), original, sourcePath, ExifUnreadable, encode, files)
  {
  }

  /** With default options the result is the oriented bitmap as JPEG at quality 85, inline as Base64. */
  lemma DefaultsGiveInlineJpeg(original: Bitmap, sourcePath: Option<string>, exif: ExifRead,
                               encode: Encoder, files: CacheFiles)
    ensures var b := Oriented(Defaults, original, sourcePath, exif);
      var bytes := encode(b, Jpeg, 85);
      Process(AndroidSettings(map[]), original, sourcePath, exif, encode, files) ==
        Success(Processed(Response(b.width, b.height, "jpeg", Encode(bytes)), b, bytes))
  {
    EmptyOptionsGiveDefaults();
  }
}
