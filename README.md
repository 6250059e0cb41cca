# cordova-plugin-slm-camera, modelled in Dafny

A model of the native side of the SLM camera plugin for Cordova. The plugin
takes a photo with the camera or picks one from the gallery. It then
post-processes the image: orientation correction, then resizing, then JPEG or
PNG encoding. It answers the JavaScript caller with `{width, height, format,
imageData}`. `imageData` is either Base64 text or a `file://` URI. A
`cleanup` command empties the plugin's scratch files and reports how many it
cleaned. Both native implementations are modelled:

- `src/android/SLMCamera.java`: the `SLMCamera` Cordova plugin. It has
  runtime permission requests, `startActivityForResult`, `BitmapFactory`
  decoding, Exif-driven `Matrix` transforms, `createScaledBitmap` and
  `Bitmap.compress`.
- `src/ios/SLMCamera.swift`: the `SLMCamera` plugin for iOS. It uses
  `UIImagePickerController` or PHPicker, redraws through `UIGraphics`
  contexts, and encodes with `pngData`/`jpegData`.

## Layout

| file | module | what it holds |
|---|---|---|
| `wrappers.dfy` | `Wrappers` | `Option`, `Result` |
| `text.dfy` | `Text` | prefixes and suffixes, ASCII case folding, decimal rendering and its inverse |
| `base64.dfy` | `Base64` | the Base64 encoding of section 4 of RFC 4648, and a decoder proved inverse to it |
| `options.dfy` | `Options` | the options object; org.json's `optBoolean`/`optInt`/`optString`; Swift's `as?` casts; the `Settings` each platform reads |
| `android_image.dfy` | `AndroidImage` | `resizeBitmap` and `fixOrientation` on bitmap sizes; the pixel maps of the transforms; the Exif orientation table |
| `android_pipeline.dfy` | `AndroidPipeline` | Android `processImage` as a function `Process` |
| `android_plugin.dfy` | `AndroidPlugin` | the plugin object `CameraPlugin`, its step functions, the cleanup loop, lifecycle lemmas |
| `ios_image.dfy` | `IosImage` | `fixOrientation` and `resizeImage` on `UIImage` size, scale and orientation |
| `ios_pipeline.dfy` | `IosPipeline` | iOS `processImage` as a function `Process` |
| `ios_plugin.dfy` | `IosPlugin` | the plugin object `CameraPlugin`, its step functions, the cleanup loop, lifecycle lemmas |
| `callbacks.dfy` | `Callbacks` | the response object and the results delivered to JavaScript |
| `listing.dfy` | `Listing` | directory listings filtered by a test |

### How the model is built

**The world outside the plugin is a set of parameters.** That covers what
the device and the libraries answer:
- permissions granted and the API level;
- whether a temp file or a URI could be created;
- whether an activity could be started;
- what decoding a stream or reading Exif gives;
- the codec's bytes;
- whether a `UIGraphics` context yields an image;
- the temporary directory and the clock;
- whether a write or a removal succeeds.

**Each plugin class has a step function per method.** Each `CameraPlugin`
keeps the source's fields: the current callback, the current options and, on
Android, `photoUri`. It also keeps sequences recording what the plugin has
done outside itself:
- results sent;
- permission requests;
- activities launched or pickers presented;
- gallery saves;
- files written.

Every method updates these fields step by step, as the source does. Its
postcondition equates the new snapshot of the fields with a step function of
the old one. The lifecycle lemmas are about the step functions. The two
`processImage` bodies are also written step by step on local variables
(`RunPipeline`). They are proved equal to the `Process` functions, and the
properties of `Process` are proved as lemmas.

**The JSON arguments are a map from keys to tagged values.** Each platform's
reader is modelled with its own coercions. Android accepts `"true"`/`"false"`
strings as booleans, truncates fractional numbers and cuts longs to 32 bits.
iOS accepts only the matching kind. `SameSettingsWhenWellTyped` proves the
two agree on well-typed input. `FractionalWidthDiffers` and
`StringFlagDiffers` exhibit where they do not.

### Where the two platforms differ

- **A failed file write.** On iOS the write is `try?`
  (`src/ios/SLMCamera.swift:163`): a failure is ignored, and the `file://` URI
  is still reported (`IosPipeline.WriteFailureIsSilent`). On Android it is an
  error.
- **Orientation correction.** Android corrects only an image with a source
  path, and only camera photos have one, so gallery picks are never corrected
  (`AndroidPlugin.GalleryPickIgnoresExif`). On iOS correction needs no path:
  it follows the `UIImage`'s own orientation flag for every image.
- **The gallery save.** Android saves the final processed bitmap. iOS saves
  the image as picked, before correction and resizing, and only on the
  `UIImagePickerController` path. An image chosen through PHPicker is never
  saved (`IosPlugin.AlbumGetsTheOriginal`).
- **The cleanup count.** Android counts successful deletions. iOS counts
  every file with the `slm_camera_` prefix whether or not its removal
  succeeded (`IosPlugin.SweepCountsAttempts`,
  `IosPlugin.UnremovableFileIsCounted`).
- **A quality outside 0..100.** On Android it makes `Bitmap.compress` throw
  for JPEG, which ends in an error. On iOS it is divided by 100 and handed to
  `jpegData`, and is never an error.
- **Orientation tags 5 and 7.** Transpose and transverse fall to the
  `default` branch of the Android `fixOrientation` and are left uncorrected.
  The model proves such an image stays sideways
  (`AndroidImage.TransposedTagsStaySideways`), measured against the Exif 2.3
  orientation table (section 4.6.4 A).

### Library stand-ins

Some functions stand for a library call and are given meaning by the lemmas
about the code that uses them, not rows of their own:
- `Options.OptString` stands for org.json's `optString`; `AndroidSettings`
  states what the plugin takes from it.
- `Options.CastBool`, `Options.CastInt` and `Options.CastString` stand for
  Swift's `as?`. `IosWrongKindGivesDefault` and `SameSettingsWhenWellTyped`
  state what they mean for the settings.
- `AndroidImage.ScaledBitmap` stands for `createScaledBitmap`; `ResizeBitmap`
  states its results.
- `AndroidPipeline.FormatOf` and `AndroidPipeline.Compress` stand for the
  choice of `CompressFormat` and for `Bitmap.compress`.
  `AndroidPipeline.ProcessFailsExactly` and `AndroidPipeline.ProcessedResponse`
  state their effect.
- `IosImage.ResizeImage` stands for the redraw in `resizeImage`.
  `IosPipeline.ProcessedResponse` states the size and orientation it gives.
- `Callbacks.Notify` stands for sending a result to the current callback when
  there is one. The lifecycle lemmas of both plugins state who is answered.

## Model

| member | source | states |
|---|---|---|
| Text.Decimal | src/ios/SLMCamera.swift:161 | the decimal rendering of a number is non-empty, all digits, and has no leading zero |
| Text.DecimalRoundTrip | src/ios/SLMCamera.swift:161 | parsing the decimal rendering of `n` gives back `n` |
| Base64.Encode | src/android/SLMCamera.java:257 | encoded text is four characters for every started group of three bytes (no line breaks, `NO_WRAP`) |
| Base64.EncodeAlphabet | src/android/SLMCamera.java:257 | every character of encoded text is in the Base64 alphabet or is the pad `=` |
| Base64.DecodeEncode | src/android/SLMCamera.java:257 | decoding the encoding of any byte sequence gives back exactly those bytes |
| Base64.EncodeDecode | src/ios/SLMCamera.swift:166 | any text the decoder accepts is exactly the encoding of what it decodes to (the encoding is canonical) |
| Base64.TripleRoundTrip | src/android/SLMCamera.java:257 | a full group of three bytes decodes back from its four characters |
| Base64.PairRoundTrip | src/android/SLMCamera.java:257 | a final pair of bytes decodes back from its three characters and one pad |
| Base64.SingleRoundTrip | src/android/SLMCamera.java:257 | a final single byte decodes back from its two characters and two pads |
| Base64.QuadInverse | src/ios/SLMCamera.swift:166 | a group of four characters that decodes is the encoding of the one to three bytes it decodes to; a short group only at the end |
| Options.WrapToInt | src/android/SLMCamera.java:221-222 | a long option narrowed to `int` is a 32-bit value congruent to it modulo 2^32, and unchanged when it fits |
| Options.DoubleToInt | src/android/SLMCamera.java:221-222 | a fractional option is truncated toward zero; a result below the 32-bit range gives `Integer.MIN_VALUE`, one above it `Integer.MAX_VALUE` |
| Options.OptBoolean | src/android/SLMCamera.java:215 | an absent key gives the fallback and a boolean gives itself. The strings `true` and `false` in any ASCII case give `true` and `false`. Any other string or value gives the fallback |
| Options.OptInt | src/android/SLMCamera.java:221-222 | an absent key gives the fallback. An integer that fits 64 bits is cut to its low 32 bits, and a wider one is saturated. A fractional number is truncated and saturated. A signed decimal string is read and saturated. Any other string, a boolean, null or a compound gives the fallback |
| Options.AndroidSettings | src/android/SLMCamera.java:215-230 | the Android settings ask for a file URI exactly when `returnType` is the string `"fileURI"`, and the four numeric settings are 32-bit values |
| Options.IosSettings | src/ios/SLMCamera.swift:118-133 | the iOS settings ask for a file URI exactly when `returnType` is the string `"fileURI"`, and the four numeric settings are 64-bit values |
| Options.EmptyOptionsGiveDefaults | src/android/SLMCamera.java:48 | an empty options object gives the defaults on both platforms: correct orientation, no resize, quality 85, JPEG, inline, no gallery save |
| Options.IosWrongKindGivesDefault | src/ios/SLMCamera.swift:118-133 | on iOS a value of a kind the cast refuses (a non-boolean flag, a non-string return type, a number that is not an integer fitting 64 bits) reads exactly as if the key were absent |
| Options.SameSettingsWhenWellTyped | src/ios/SLMCamera.swift:118-133 | on options whose values have the expected kinds, Android and iOS read the same settings |
| Options.FractionalWidthDiffers | src/android/SLMCamera.java:221 | a width of 800.5 is read as 800 on Android and ignored (0) on iOS |
| Options.StringFlagDiffers | src/android/SLMCamera.java:215 | `correctOrientation: "False"` turns correction off on Android but leaves the default on iOS |
| AndroidImage.QuotientBounds | src/android/SLMCamera.java:318-324 | the truncated quotient lies between the two multiples of the divisor, and is positive exactly when the dividend reaches the divisor |
| AndroidImage.ResizeBitmap | src/android/SLMCamera.java:307-330 | both targets give exactly that size; one target fixes that side and scales the other by the same ratio, truncated, failing when that truncates to 0; no target gives the bitmap itself |
| AndroidImage.ResizeExample | src/android/SLMCamera.java:314-320 | 4000x3000 resized to width 800 is 800x600; resized to 500x500 it is 500x500 |
| AndroidImage.WidthResizeKeepsAspect | src/android/SLMCamera.java:317-320 | a width-only resize keeps the aspect ratio up to the truncated pixel row |
| AndroidImage.TransformFor | src/android/SLMCamera.java:280-298 | exactly the tags 2, 3, 4, 6 and 8 select a transform; every other value leaves the bitmap alone |
| AndroidImage.Apply | src/android/SLMCamera.java:300 | a transformed bitmap has the same number of pixels |
| AndroidImage.FixOrientation | src/android/SLMCamera.java:274-305 | an unreadable file leaves the bitmap unchanged; tags 6 and 8 swap width and height; every other tag keeps the size |
| AndroidImage.TransformIsBijection | src/android/SLMCamera.java:280-300 | each transform moves every pixel to exactly one pixel of the result, and back |
| AndroidImage.FlipReversesColumns | src/android/SLMCamera.java:290-291 | a horizontal flip keeps the size and reverses the column order |
| AndroidImage.CorrectedTagsAreUpright | src/android/SLMCamera.java:280-295 | for tags 1, 2, 3, 4, 6 and 8 the chosen transform puts the stored first row and first column on the sides Exif 2.3 assigns them |
| AndroidImage.TransposedTagsStaySideways | src/android/SLMCamera.java:296-297 | tags 5 and 7 select no transform, so the stored first row is not moved to the side Exif 2.3 assigns it |
| AndroidPipeline.TempFilePath | src/android/SLMCamera.java:332-336 | a temp file, when it can be created, lies under `<cache>/slm_camera/slm_camera_` and ends with `.<extension>` |
| AndroidPipeline.ProcessFailsExactly | src/android/SLMCamera.java:210-272 | processing fails exactly when resizing fails, when a JPEG quality is outside 0..100, or when a file URI was asked for and the temp file or the write fails; every failure starts with `Error procesando imagen: ` |
| AndroidPipeline.ProcessedResponse | src/android/SLMCamera.java:212-248 | a response reports the final bitmap's size; that bitmap is the oriented one, resized; two targets give exactly that size; the format is `png` exactly for `encodingType` 1; PNG is compressed at 100 |
| AndroidPipeline.PayloadIsFileUriOrBase64 | src/android/SLMCamera.java:250-258 | the payload starts with `file://` exactly when a file URI was asked for. Such a URI names a plugin file in the cache directory with the format's extension. Otherwise the payload decodes back to the compressed bytes |
| AndroidPipeline.GalleryPickIgnoresExif | src/android/SLMCamera.java:216 | without a source path the Exif data plays no part in the result |
| AndroidPipeline.UnreadableExifIsNotAnError | src/android/SLMCamera.java:301-303 | unreadable Exif data gives the same result as not correcting at all |
| AndroidPipeline.DefaultsGiveInlineJpeg | src/android/SLMCamera.java:215-258 | default options give the oriented bitmap as a JPEG at quality 85, inline as Base64 |
| Callbacks.EncodedIsNotFileUri | src/ios/SLMCamera.swift:160-167 | Base64 text never begins with `file://`, so the two payload kinds cannot be confused |
| AndroidPlugin.DeleteAll | src/android/SLMCamera.java:124-131 | the loop counts exactly the files whose deletion succeeds; what remains is exactly the files it could not delete |
| AndroidPlugin.RunPipeline | src/android/SLMCamera.java:210-258 | the step-by-step body of `processImage` computes exactly `Process` of the settings read from the options |
| AndroidPlugin.FailAnswersOnce | src/android/SLMCamera.java:152 | an error sends one reply to the pending callback and changes nothing else |
| AndroidPlugin.ProcessImageAnswersOnce | src/android/SLMCamera.java:261-270 | processing sends one reply to the pending callback; only a success may add a bitmap to the gallery |
| AndroidPlugin.ActivityResultAnswersOnce | src/android/SLMCamera.java:147-185 | without a pending callback an activity result does nothing. With one, it sends exactly one reply to that callback. A success needs RESULT_OK and is the only reply that may save a bitmap |
| AndroidPlugin.CancelledActivity | src/android/SLMCamera.java:151-154 | an activity that did not end with RESULT_OK is answered `Usuario cancelo la captura` |
| AndroidPlugin.GalleryPickIgnoresExif | src/android/SLMCamera.java:166-171 | the result of a gallery pick does not depend on any Exif data |
| AndroidPlugin.SidewaysPhotoIsTurned | src/android/SLMCamera.java:161-165 | with default options, a camera photo is answered with its sides swapped, as a quality-85 JPEG inline, when the Exif read at its content URI's path says "rotate 90" |
| AndroidPlugin.UnreadableUriPathLeavesPhoto | src/android/SLMCamera.java:161-165 | when no Exif data can be read at the content URI's path, a camera photo is answered as decoded, whatever its orientation: with default options, a quality-85 JPEG inline of the bitmap as it is |
| AndroidPlugin.CameraGrantThenLaunch | src/android/SLMCamera.java:68-72 | without the camera permission `takePicture` asks for it. A grant then retries and starts the camera with the new photo URI, sending nothing |
| AndroidPlugin.GalleryGrantThenLaunch | src/android/SLMCamera.java:94-103 | without the gallery permission `chooseFromGallery` asks for it. A grant then retries and starts the picker, sending nothing |
| AndroidPlugin.DenialEndsRequest | src/android/SLMCamera.java:199-203 | a denied or empty answer sends `Permiso denegado` to a pending callback and starts nothing |
| AndroidPlugin.TakePictureOutcomes | src/android/SLMCamera.java:68-88 | `takePicture` does exactly one thing. It asks for the permission exactly when it is missing. It starts the camera exactly when the photo URI and the launch succeed, and records that URI. Otherwise it reports the failure's message |
| AndroidPlugin.ChooseFromGalleryOutcomes | src/android/SLMCamera.java:94-113 | the gallery needs READ_MEDIA_IMAGES from API level 33 on, READ_EXTERNAL_STORAGE before. It asks for that permission exactly when it is missing. It starts the picker exactly when the launch succeeds, and otherwise reports the failure |
| AndroidPlugin.ExecuteDispatch | src/android/SLMCamera.java:43-62 | exactly three actions are handled, and an unknown one changes nothing. `cleanup` leaves the pending capture alone and answers its own callback. The capture actions replace the callback and the options |
| AndroidPlugin.CleanupCountBounds | src/android/SLMCamera.java:124-135 | the cleanup count is at most the number of files, and equals it exactly when every deletion succeeds |
| AndroidPlugin.CameraPlugin.constructor | src/android/SLMCamera.java:39-41 | a new plugin has no callback, no options, no photo URI and has done nothing |
| AndroidPlugin.CameraPlugin.Execute | src/android/SLMCamera.java:43-62 | the new state and the answer are those of `ExecuteStep` |
| AndroidPlugin.CameraPlugin.Error | src/android/SLMCamera.java:86 | an error is appended for the current callback if there is one |
| AndroidPlugin.CameraPlugin.TakePicture | src/android/SLMCamera.java:68-88 | the new state is that of `TakePictureStep` |
| AndroidPlugin.CameraPlugin.ChooseFromGallery | src/android/SLMCamera.java:94-113 | the new state is that of `ChooseFromGalleryStep` |
| AndroidPlugin.CameraPlugin.Cleanup | src/android/SLMCamera.java:119-141 | the new state is that of `CleanupStep`: one `cleaned` reply with the count of successful deletions |
| AndroidPlugin.CameraPlugin.OnActivityResult | src/android/SLMCamera.java:147-185 | the new state is that of `ActivityResultStep` |
| AndroidPlugin.CameraPlugin.OnRequestPermissionResult | src/android/SLMCamera.java:191-204 | the new state is that of `PermissionResultStep` |
| AndroidPlugin.CameraPlugin.ProcessImage | src/android/SLMCamera.java:210-272 | the new state is that of `ProcessImageStep` |
| IosImage.FixOrientation | src/ios/SLMCamera.swift:174-183 | size and scale are kept. The result is upright exactly when the input was or the redraw succeeded. A result that is not upright is the input itself |
| IosImage.FixOrientationIdempotent | src/ios/SLMCamera.swift:174-175 | correcting a corrected image changes nothing more |
| IosImage.ResizedSize | src/ios/SLMCamera.swift:185-205 | a new size exists exactly when a target is positive, and has each positive target as its side |
| IosImage.ResizeKeepsAspect | src/ios/SLMCamera.swift:195-202 | with one target the new size has exactly the proportions of the old one |
| IosImage.ReportedWidth | src/ios/SLMCamera.swift:155 | the reported width is the image width truncated to whole points |
| IosImage.ReportedHeight | src/ios/SLMCamera.swift:156 | the reported height is the image height truncated to whole points |
| IosImage.WidthResizeMatchesAndroid | src/ios/SLMCamera.swift:195-198 | for whole-point sizes, a width-only resize reports the same height Android computes, and reports 0 exactly where Android fails |
| IosPipeline.IntText | src/ios/SLMCamera.swift:161 | the rendering of the timestamp is never empty |
| IosPipeline.ProcessFailsExactly | src/ios/SLMCamera.swift:146-152 | processing fails exactly when the encoder gives nil, and then with `Error procesando imagen` |
| IosPipeline.ProcessedResponse | src/ios/SLMCamera.swift:115-158 | a response reports the final image truncated to whole points. That image is the corrected one, then resized. A successful redraw makes it upright. Two targets give exactly that size. The encoder was called as asked |
| IosPipeline.FileUriPayload | src/ios/SLMCamera.swift:161-164 | a file URI names a file with the plugin prefix in the temporary directory, ending with `.png` or `.jpg` by format |
| IosPipeline.PayloadIsFileUriOrBase64 | src/ios/SLMCamera.swift:160-167 | the payload starts with `file://` exactly when a file URI was asked for. Such a URI names a plugin file in the temporary directory, ending with `.png` for PNG and `.jpg` otherwise. Otherwise the payload decodes back to the encoded bytes |
| IosPipeline.WriteFailureIsSilent | src/ios/SLMCamera.swift:163 | whether the write succeeds changes only whether a file is recorded, never the response |
| IosPipeline.DefaultsGiveInlineJpeg | src/ios/SLMCamera.swift:118-166 | default options give the corrected image as a JPEG at compression quality 0.85, inline as Base64, or the processing error |
| IosPipeline.IntTextInjective | src/ios/SLMCamera.swift:161 | different timestamps have different renderings |
| IosPipeline.FileNamesByTime | src/ios/SLMCamera.swift:161 | file names written at different milliseconds differ, and all carry the prefix cleanup looks for |
| IosPlugin.SweepTemporary | src/ios/SLMCamera.swift:67-74 | the loop counts every file with the plugin prefix. What remains is everything but the plugin files whose removal succeeded |
| IosPlugin.PickerOutcomesAnswerOnce | src/ios/SLMCamera.swift:84-109 | with a pending callback a picked image, a cancel and a PHPicker result are each answered exactly once, to that callback. None of them changes the callback, the options or the presented pickers |
| IosPlugin.NoCallbackNoReply | src/ios/SLMCamera.swift:84-152 | without a pending callback a picked image sends nothing and writes no file, and a cancel or a PHPicker result changes nothing at all |
| IosPlugin.AlbumGetsTheOriginal | src/ios/SLMCamera.swift:96-99 | the image picker saves the image as picked when `saveToGallery` is `true`. PHPicker never saves |
| IosPlugin.LoadErrorMessage | src/ios/SLMCamera.swift:233-237 | a PHPicker load failure reports its description, or `desconocido` |
| IosPlugin.CameraUnavailable | src/ios/SLMCamera.swift:19-23 | a missing camera is reported to the command's own callback and no picker is shown |
| IosPlugin.CameraPresented | src/ios/SLMCamera.swift:13-31 | with a camera, `takePicture` presents exactly the camera picker, sends nothing and remembers the command; a cancel is then answered to that command's callback |
| IosPlugin.GalleryPresentsOnePicker | src/ios/SLMCamera.swift:35-56 | choosing from the gallery presents exactly one picker and sends nothing. The picker is PHPicker exactly from iOS 14 on, and never the camera. A cancel or an empty selection is then answered to the command's own callback |
| IosPlugin.WrittenFilesAreSwept | src/ios/SLMCamera.swift:160-164 | processing writes at most one file, in the temporary directory, with a name cleanup recognises |
| IosPlugin.SweepCountsAttempts | src/ios/SLMCamera.swift:67-74 | the cleanup count is at least the number of files removed, and equals it exactly when every removal of a plugin file succeeds |
| IosPlugin.UnremovableFileIsCounted | src/ios/SLMCamera.swift:70-71 | a plugin file that cannot be removed stays in the directory and is still counted |
| IosPlugin.RunPipeline | src/ios/SLMCamera.swift:113-167 | the step-by-step body of `processImage` computes exactly `Process` of the settings read from the options |
| IosPlugin.CameraPlugin.constructor | src/ios/SLMCamera.swift:8-9 | a new plugin has no callback, empty options and has done nothing |
| IosPlugin.CameraPlugin.Error | src/ios/SLMCamera.swift:105-108 | an error is appended for the current callback if there is one |
| IosPlugin.CameraPlugin.TakePicture | src/ios/SLMCamera.swift:13-31 | the new state is that of `TakePictureStep` |
| IosPlugin.CameraPlugin.ChooseFromGallery | src/ios/SLMCamera.swift:35-56 | the new state is that of `ChooseFromGalleryStep` |
| IosPlugin.CameraPlugin.Cleanup | src/ios/SLMCamera.swift:60-80 | the new state is that of `CleanupStep`: one `cleaned` reply with the count of plugin files |
| IosPlugin.CameraPlugin.ImagePickerFinished | src/ios/SLMCamera.swift:84-101 | the new state is that of `ImagePickedStep` |
| IosPlugin.CameraPlugin.ImagePickerCancelled | src/ios/SLMCamera.swift:103-109 | the new state is that of `PickerCancelledStep` |
| IosPlugin.CameraPlugin.PhotoPickerFinished | src/ios/SLMCamera.swift:221-243 | the new state is that of `PhotoPickedStep` |
| IosPlugin.CameraPlugin.ProcessImage | src/ios/SLMCamera.swift:113-172 | the new state is that of `ProcessImageStep` |
| Listing.KeepSplits | src/android/SLMCamera.java:127-129 | the files that pass a test and those that fail it add up to the listing |
| Listing.KeepAllNegated | src/android/SLMCamera.java:127-129 | no file fails a test exactly when every file passes it |
| Listing.KeepWeaker | src/ios/SLMCamera.swift:69-71 | a stronger test passes no more files than a weaker one, and as many exactly when they agree on the files the weaker one passes |

## Left out

- Pixels and codecs are not modelled. Bitmaps and images are reduced to their
  size (plus scale and orientation on iOS). The transforms are given meaning
  through the pixel coordinate maps `TargetOf`/`SourceOf`. JPEG and PNG bytes
  come from an encoder parameter, so lossless PNG and JPEG quality are not
  modelled.
- AndroidImage.ResizeBitmap: sizes are unbounded integers, so two things
  Android does with very large sizes are not modelled. The `(int)` casts of
  the scaled side (`src/android/SLMCamera.java:320`, `:324`) saturate at
  2^31-1, where the model keeps the exact quotient (a 1x10000 bitmap resized
  to width 300000, say). And `Bitmap.createScaledBitmap` (`:329`) cannot
  allocate a huge bitmap (100000x100000, say) and throws OutOfMemoryError. That
  is an `Error`, which the `catch (Exception e)` at `:268` does not catch, so
  no reply is sent at all. The model answers with a bitmap of exactly the
  requested size. The same holds for `AndroidImage.FixOrientation`:
  `Bitmap.createBitmap` with the rotation matrix (`:300`) allocates a second
  full-size bitmap. Its OutOfMemoryError escapes both the
  `catch (IOException e)` at `:301` and the `catch (Exception e)` at `:268`.
- IosPlugin.SweepTemporary: the prefix test is a comparison of characters.
  Swift's `hasPrefix` (`src/ios/SLMCamera.swift:69`) compares grapheme clusters
  under canonical equivalence. The two differ only on a name with a combining
  mark right after `slm_camera_`, which the plugin never writes.
- Floating point: the resize ratio (`float` on Android, `CGFloat` on iOS) and
  `quality / 100` are computed exactly. A result that `float` rounding would
  put on the other side of a whole pixel is not captured.
- `UIGraphicsBeginImageContextWithOptions` rounding of non-integral sizes to
  pixels is not modelled. The drawn image has exactly the requested size in
  points.
- Threads and asynchrony are not modelled. `cordova.getThreadPool()`,
  `commandDelegate.run`, `DispatchQueue.main.async` and `picker.dismiss`
  completions run to completion at the call. A callback or options changed
  by another command in the middle of processing is not modelled.
- UI and platform glue are reduced to the answers they give: intents,
  `MediaStore` insertion, `FileProvider` URIs (`SLMCameraFileProvider.java`
  has no logic), `UIImagePickerController`/PHPicker presentation and
  dismissal, and `Log` output.
- Temp-file naming on Android is not modelled. `File.createTempFile` picks
  the middle of the name, a parameter here; its uniqueness is the platform's
  guarantee.
- `AndroidPlugin.ActivityResultStep`: an exception thrown by
  `processImage`'s own error path is not modelled, because every exception
  inside `processImage` is already caught there.
- `AndroidPlugin.Fail`: calling `error` on a null `currentCallbackContext`
  throws a NullPointerException in Java. The model sends nothing instead.
  This happens only when a permission grant or an open failure arrives with
  no command pending.
- `AndroidPlugin.CameraPlugin.Cleanup`: the "Error limpiando archivos: "
  path is not modelled. It is reached only when `getCacheDir()` or the JSON
  `put` throws, and the model treats both as succeeding.
- `AndroidPlugin.ProcessImageStep`: a failure of
  `MediaStore.Images.Media.insertImage` is not modelled. The platform call
  returns null rather than throwing.
- `Options.OptInt`: among strings it reads only optionally signed decimal
  digits. Other text `Double.parseDouble` accepts (`"1.5"`, `"1e3"`,
  `"NaN"`) gives the fallback in the model.
- `Options.OptBoolean`: case-insensitive comparison covers ASCII letters
  only.
- `Options.CastBool` and `Options.CastInt`: Foundation's bridging of
  `NSNumber` between booleans and integers (`1 as? Bool`, `true as? Int`) is
  not modelled. Casts succeed only on the matching kind.
- A Swift `command.arguments` with no first element traps at run time; this
  is not modelled. The JavaScript side always passes one element.
- The `[weak self]` of the PHPicker completion is not modelled. The plugin is
  assumed to be alive when loading finishes.
- `AndroidPlugin.PickedSource`: a camera photo's Exif data is read at
  `photoUri.getPath()`, the path of the content URI `FileProvider` returned,
  not at the path of the file in the cache. Whether `ExifInterface` can open
  that path is a parameter of the model; `file_paths.xml` and the provider's
  mapping are not part of this model. When it cannot, the photo is never
  turned (`AndroidPlugin.UnreadableUriPathLeavesPhoto`).
- `IosPipeline.IntText`: `Int(Date().timeIntervalSince1970 * 1000)` is taken
  as a given integer. The conversion of the clock value is not modelled.
