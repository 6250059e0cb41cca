/**
 * The Android plugin object: the actions JavaScript invokes, the permission
 * and activity callbacks Android delivers, and the results sent back.
 *
 * Each method of `CameraPlugin` updates the plugin's fields the way the
 * Java method does; what it does to them is specified by a step function on
 * a `State` snapshot of those fields, and the lifecycle properties are
 * proved about the step functions.
 */
module AndroidPlugin {
  import opened Wrappers
  import opened Base64
  import opened Options
  import opened AndroidImage
  import opened AndroidPipeline
  import opened Callbacks
  import opened Listing

  const RequestTakePicture: int := 9001
  const RequestChooseGallery: int := 9002
  const PermissionRequestCamera: int := 9003
  const PermissionRequestGallery: int := 9004

  /** `Activity.RESULT_OK` */
  const ResultOk: int := -1
  /** `PackageManager.PERMISSION_GRANTED` */
  const PermissionGranted: int := 0

  const CameraOpenError: string := "Error abriendo camara: "
  const GalleryOpenError: string := "Error abriendo galeria: "
  const CancelledMessage: string := "Usuario cancelo la captura"
  const UndecodableMessage: string := "No se pudo decodificar la imagen"
  const DeniedMessage: string := "Permiso denegado"

  datatype Permission = Camera | ReadMediaImages | ReadExternalStorage

  /** A content URI; `path` is what `Uri.getPath()` returns for it. */
  datatype Uri = Uri(path: string)

  /** What the device answers while the plugin opens the camera or the gallery. */
  datatype Device = Device(
    sdk: int,                          // Build.VERSION.SDK_INT
    granted: set<Permission>,          // what cordova.hasPermission answers yes to
    photoFile: Result<Uri, string>,    // createTempFile and FileProvider.getUriForFile, or the exception message
    launchError: Option<string>)       // the exception message of startActivityForResult, if it throws

  /** What the device answers while a returned image is read and processed. */
  datatype Media = Media(
    open: Uri -> Result<Option<Bitmap>, string>,  // openInputStream and decodeStream: a bitmap, none, or the exception message
    exif: string -> ExifRead,                     // new ExifInterface(path): the tag read at a path, or the IOException
    encode: Encoder,
    files: CacheFiles)

  /** The plugin's fields, and what it has done to the outside world so far. */
  datatype State = State(
    context: Option<CallbackId>,  // currentCallbackContext
    options: OptionMap,           // currentOptions
    photoUri: Option<Uri>,
    sent: seq<Delivery>,          // results delivered to JavaScript, in order
    requested: seq<int>,          // permission request codes passed to requestPermission, in order
    launched: seq<int>,           // request codes passed to startActivityForResult, in order
    gallery: seq<Bitmap>)         // bitmaps inserted into the media store, in order

  const Initial: State := State(None, map[], None, [], [], [], [])

  // ---------------------------------------------------------------- steps

  /** An error to the current callback (nothing when there is none). */
  function Fail(st: State, message: string): State
  {
    st.(sent := st.sent + Notify(st.context, Err(message)))
  }

  /** `takePicture()` */
  function TakePictureStep(st: State, device: Device): State
  {
    if Camera !in device.granted then st.(requested := st.requested + [PermissionRequestCamera])
    else match device.photoFile
      case Failure(m) => Fail(st, CameraOpenError + m)
      case Success(uri) =>
        var withUri := st.(photoUri := Some(uri));
        if device.launchError.Some? then Fail(withUri, CameraOpenError + device.launchError.value)
        else withUri.(launched := st.launched + [RequestTakePicture])
  }

  /** The permission reading the gallery needs: READ_MEDIA_IMAGES from API level 33 on. */
  function GalleryPermission(sdk: int): Permission
  {
    if sdk >= 33 then ReadMediaImages else ReadExternalStorage
  }

  /** `chooseFromGallery()` */
  function ChooseFromGalleryStep(st: State, device: Device): State
  {
    if GalleryPermission(device.sdk) !in device.granted then st.(requested := st.requested + [PermissionRequestGallery])
    else if device.launchError.Some? then Fail(st, GalleryOpenError + device.launchError.value)
    else st.(launched := st.launched + [RequestChooseGallery])
  }

  /** The `cleaned` count: files of the plugin's cache directory whose deletion succeeds. */
  function DeletedCount(listing: Option<seq<string>>, deletable: string -> bool): nat
  {
    match listing
    case None => 0
    case Some(files) => |Keep(files, deletable, true)|
  }

  /** `cleanup(callbackContext)`: the count goes to the command's own callback. */
  function CleanupStep(st: State, to: CallbackId, listing: Option<seq<string>>, deletable: string -> bool): State
  {
    st.(sent := st.sent + [Delivery(to, Cleaned(DeletedCount(listing, deletable)))])
  }

  /** `args.optJSONObject(0)`, or an empty object. */
  function ArgumentOptions(args: Option<OptionMap>): OptionMap
  {
    args.GetOrDefault(map[])
  }

  /** `execute(action, args, callbackContext)`: the new state and whether the action was recognised. */
  function ExecuteStep(st: State, action: string, args: Option<OptionMap>, to: CallbackId,
                       device: Device, listing: Option<seq<string>>, deletable: string -> bool): (State, bool)
  {
    if action == "takePicture" then
      (TakePictureStep(st.(context := Some(to), options := ArgumentOptions(args)), device), true)
    else if action == "chooseFromGallery" then
      (ChooseFromGalleryStep(st.(context := Some(to), options := ArgumentOptions(args)), device), true)
    else if action == "cleanup" then
      (CleanupStep(st, to, listing, deletable), true)
    else
      (st, false)
  }

  function ExifAt(media: Media, sourcePath: Option<string>): ExifRead
  {
    if sourcePath.Some? then media.exif(sourcePath.value) else ExifUnreadable
  }

  /** `processImage(bitmap, sourcePath)`: the result, and the final bitmap in the gallery when asked. */
  function ProcessImageStep(st: State, original: Bitmap, sourcePath: Option<string>, media: Media): State
  {
    var s := AndroidSettings(st.options);
    match Process(s, original, sourcePath, ExifAt(media, sourcePath), media.encode, media.files)
    case Failure(m) => Fail(st, m)
    case Success(p) =>
      st.(gallery := st.gallery + (if s.saveToGallery then [p.bitmap] else []),
          sent := st.sent + Notify(st.context, Ok(p.response)))
  }

  /**
   * The image a returned activity names. A camera photo also comes with the
   * path its Exif data is read at: the path of the content URI that
   * `FileProvider` gave for it, not the path of the file in the cache.
   */
  function PickedSource(st: State, requestCode: int, data: Option<Uri>): Option<(Uri, Option<string>)>
  {
    if requestCode == RequestTakePicture && st.photoUri.Some? then Some((st.photoUri.value, Some(st.photoUri.value.path)))
    else if requestCode == RequestChooseGallery && data.Some? then Some((data.value, None))
    else None
  }

  /** `onActivityResult(requestCode, resultCode, data)`; `data` is the intent's data URI, if any. */
  function ActivityResultStep(st: State, requestCode: int, resultCode: int, data: Option<Uri>, media: Media): State
  {
    if st.context.None? then st
    else if resultCode != ResultOk then Fail(st, CancelledMessage)
    else match PickedSource(st, requestCode, data)
      case None => Fail(st, UndecodableMessage)
      case Some((uri, sourcePath)) =>
        match media.open(uri)
        case Failure(m) => Fail(st, ErrorPrefix + m)
        case Success(None) => Fail(st, UndecodableMessage)
        case Success(Some(bitmap)) => ProcessImageStep(st, bitmap, sourcePath, media)
  }

  predicate Granted(grantResults: seq<int>)
  {
    |grantResults| > 0 && grantResults[0] == PermissionGranted
  }

  /** `onRequestPermissionResult(requestCode, permissions, grantResults)` */
  function PermissionResultStep(st: State, requestCode: int, grantResults: seq<int>, device: Device): State
  {
    if Granted(grantResults) then
      if requestCode == PermissionRequestCamera then TakePictureStep(st, device)
      else if requestCode == PermissionRequestGallery then ChooseFromGalleryStep(st, device)
      else st
    else Fail(st, DeniedMessage)
  }

  // ---------------------------------------------------------------- lifecycle properties

  /** Apart from the results sent and the bitmaps saved, handling an activity result changes nothing. */
  predicate OnlyRepliesAndGallery(before: State, after: State)
  {
    && after.context == before.context && after.options == before.options
    && after.photoUri == before.photoUri && after.requested == before.requested
    && after.launched == before.launched
  }

  /** What every answer to a pending callback looks like: one more reply, to that callback, and nothing else but the gallery changed. */
  predicate AnsweredOnce(before: State, after: State)
    requires before.context.Some?
  {
    && OnlyRepliesAndGallery(before, after)
    && |after.sent| == |before.sent| + 1 && after.sent[..|before.sent|] == before.sent
    && after.sent[|before.sent|].to == before.context.value
    && |before.gallery| <= |after.gallery| <= |before.gallery| + 1
    && after.gallery[..|before.gallery|] == before.gallery
  }

  lemma FailAnswersOnce(st: State, message: string)
    requires st.context.Some?
    ensures AnsweredOnce(st, Fail(st, message))
    ensures Fail(st, message).sent[|st.sent|].reply == Err(message)
    ensures Fail(st, message).gallery == st.gallery
  {
    var r := Fail(st, message);
    assert r.sent[..|st.sent|] == st.sent;
    assert r.gallery[..|st.gallery|] == st.gallery;
  }

  lemma ProcessImageAnswersOnce(st: State, original: Bitmap, sourcePath: Option<string>, media: Media)
    requires st.context.Some?
    ensures AnsweredOnce(st, ProcessImageStep(st, original, sourcePath, media))
    ensures var r := ProcessImageStep(st, original, sourcePath, media);
      r.sent[|st.sent|].reply.Ok? || r.gallery == st.gallery
  {
    var s := AndroidSettings(st.options);
    match Process(s, original, sourcePath, ExifAt(media, sourcePath), media.encode, media.files)
    case Failure(m) =>
      FailAnswersOnce(st, m);
    case Success(p) =>
      var r := ProcessImageStep(st, original, sourcePath, media);
      assert r.sent[..|st.sent|] == st.sent;
      assert r.gallery[..|st.gallery|] == st.gallery;
  }

  /**
   * With a pending callback, every activity result is answered exactly once,
   * to that callback; a success is the only answer that may save a bitmap,
   * and it needs the activity to have ended with RESULT_OK. Without a
   * pending callback, nothing happens.
   */
  lemma ActivityResultAnswersOnce(st: State, requestCode: int, resultCode: int, data: Option<Uri>, media: Media)
    ensures var r := ActivityResultStep(st, requestCode, resultCode, data, media);
      && (st.context.None? ==> r == st)
      && (st.context.Some? ==>
            && AnsweredOnce(st, r)
            && (r.sent[|st.sent|].reply.Ok? || r.gallery == st.gallery)
            && (r.sent[|st.sent|].reply.Ok? ==> resultCode == ResultOk))
  {
    if st.context.Some? {
      if resultCode != ResultOk {
        FailAnswersOnce(st, CancelledMessage);
      } else {
        match PickedSource(st, requestCode, data)
        case None =>
          FailAnswersOnce(st, UndecodableMessage);
        case Some((uri, sourcePath)) =>
          match media.open(uri)
          case Failure(m) =>
            FailAnswersOnce(st, ErrorPrefix + m);
          case Success(None) =>
            FailAnswersOnce(st, UndecodableMessage);
          case Success(Some(bitmap)) =>
            ProcessImageAnswersOnce(st, bitmap, sourcePath, media);
      }
    }
  }

  /** A cancelled activity is reported as such, whatever it was for. */
  lemma CancelledActivity(st: State, requestCode: int, resultCode: int, data: Option<Uri>, media: Media)
    requires st.context.Some? && resultCode != ResultOk
    ensures ActivityResultStep(st, requestCode, resultCode, data, media).sent ==
            st.sent + [Delivery(st.context.value, Err(CancelledMessage))]
  {
  }

  /** A picture from the gallery has no file path: its Exif data plays no part in the result. */
  lemma GalleryPickIgnoresExif(st: State, resultCode: int, data: Option<Uri>, media: Media, exif: string -> ExifRead)
    ensures ActivityResultStep(st, RequestChooseGallery, resultCode, data, media) ==
            ActivityResultStep(st, RequestChooseGallery, resultCode, data, media.(exif := exif))
  {
  }

  /**
   * A camera photo whose Exif data, read at its content URI's path, says it
   * was taken rotated 90 degrees comes back turned upright: with default
   * options, as a JPEG at quality 85 of the bitmap with its sides swapped,
   * inline as Base64.
   */
  lemma SidewaysPhotoIsTurned(st: State, media: Media, uri: Uri, b: Bitmap)
    requires st.context.Some? && st.options == map[] && st.photoUri == Some(uri)
    requires media.open(uri) == Success(Some(b))
    requires media.exif(uri.path) == ExifRead(Some(OrientationRotate90))
    ensures var turned := Bitmap(b.height, b.width);
      ActivityResultStep(st, RequestTakePicture, ResultOk, None, media).sent ==
        st.sent + [Delivery(st.context.value,
                            Ok(Response(b.height, b.width, "jpeg", Encode(media.encode(turned, Jpeg, 85)))))]
  {
    EmptyOptionsGiveDefaults();
  }

  /**
   * When no Exif data can be read at the content URI's path, the camera photo
   * comes back as decoded, whatever its orientation: with default options, a
   * JPEG at quality 85 of the bitmap as it is, inline as Base64.
   */
  lemma UnreadableUriPathLeavesPhoto(st: State, media: Media, uri: Uri, b: Bitmap)
    requires st.context.Some? && st.options == map[] && st.photoUri == Some(uri)
    requires media.open(uri) == Success(Some(b))
    requires media.exif(uri.path) == ExifUnreadable
    ensures ActivityResultStep(st, RequestTakePicture, ResultOk, None, media).sent ==
      st.sent + [Delivery(st.context.value, Ok(Response(b.width, b.height, "jpeg", Encode(media.encode(b, Jpeg, 85)))))]
  {
    EmptyOptionsGiveDefaults();
  }

  /** A camera request without the permission asks for it; once granted, the retry opens the camera. */
  lemma CameraGrantThenLaunch(st: State, before: Device, after: Device, uri: Uri)
    requires Camera !in before.granted
    requires Camera in after.granted && after.photoFile == Success(uri) && after.launchError.None?
    ensures var asked := TakePictureStep(st, before);
      var r := PermissionResultStep(asked, asked.requested[|asked.requested| - 1], [PermissionGranted], after);
      && asked.requested == st.requested + [PermissionRequestCamera]
      && r.launched == st.launched + [RequestTakePicture]
      && r.photoUri == Some(uri)
      && r.sent == st.sent
  {
  }

  /** The same for the gallery, with the permission that belongs to the API level. */
  lemma GalleryGrantThenLaunch(st: State, before: Device, after: Device)
    requires GalleryPermission(before.sdk) !in before.granted
    requires GalleryPermission(after.sdk) in after.granted && after.launchError.None?
    ensures var asked := ChooseFromGalleryStep(st, before);
      var r := PermissionResultStep(asked, asked.requested[|asked.requested| - 1], [PermissionGranted], after);
      && asked.requested == st.requested + [PermissionRequestGallery]
      && r.launched == st.launched + [RequestChooseGallery]
      && r.sent == st.sent
  {
  }

  /** A denied (or empty) permission answer ends the request with one error and opens nothing. */
  lemma DenialEndsRequest(st: State, requestCode: int, grantResults: seq<int>, device: Device)
    requires !Granted(grantResults)
    ensures var r := PermissionResultStep(st, requestCode, grantResults, device);
      && r.sent == st.sent + Notify(st.context, Err(DeniedMessage))
      && r.launched == st.launched && r.requested == st.requested && r.photoUri == st.photoUri
  {
  }

  /**
   * `takePicture` does exactly one of three things: it asks for the camera
   * permission, it starts the camera with a new photo URI, or it reports why
   * it could not.
   */
  lemma TakePictureOutcomes(st: State, device: Device)
    ensures var r := TakePictureStep(st, device);
      && r.context == st.context && r.options == st.options && r.gallery == st.gallery
      && (r.requested == st.requested + [PermissionRequestCamera] <==> Camera !in device.granted)
      && (r.requested != st.requested ==> r.launched == st.launched && r.sent == st.sent)
      && (r.launched == st.launched + [RequestTakePicture] <==>
            Camera in device.granted && device.photoFile.Success? && device.launchError.None?)
      && (r.launched != st.launched ==> r.photoUri == Some(device.photoFile.value) && r.sent == st.sent)
      && (r.requested == st.requested && r.launched == st.launched ==>
            r.sent == st.sent + Notify(st.context, Err(CameraOpenError + (
              if device.photoFile.Failure? then device.photoFile.error else device.launchError.value))))
  {
  }

  /** `chooseFromGallery` likewise: ask for the permission of the API level, start the picker, or report why not. */
  lemma ChooseFromGalleryOutcomes(st: State, device: Device)
    ensures var r := ChooseFromGalleryStep(st, device);
      && r.context == st.context && r.options == st.options && r.photoUri == st.photoUri && r.gallery == st.gallery
      && (GalleryPermission(device.sdk) == ReadMediaImages <==> device.sdk >= 33)
      && (r.requested == st.requested + [PermissionRequestGallery] <==> GalleryPermission(device.sdk) !in device.granted)
      && (r.launched == st.launched + [RequestChooseGallery] <==>
            GalleryPermission(device.sdk) in device.granted && device.launchError.None?)
      && (r.requested == st.requested && r.launched == st.launched ==>
            r.sent == st.sent + Notify(st.context, Err(GalleryOpenError + device.launchError.value)))
  {
  }

  /**
   * `execute` handles exactly the three actions; an unknown action changes
   * nothing, and `cleanup` leaves the pending capture (its callback, options
   * and photo) alone.
   */
  lemma ExecuteDispatch(st: State, action: string, args: Option<OptionMap>, to: CallbackId,
                        device: Device, listing: Option<seq<string>>, deletable: string -> bool)
    ensures var (r, handled) := ExecuteStep(st, action, args, to, device, listing, deletable);
      && (handled <==> action in {"takePicture", "chooseFromGallery", "cleanup"})
      && (!handled ==> r == st)
      && (action == "cleanup" ==>
            r.context == st.context && r.options == st.options && r.photoUri == st.photoUri
            && r.sent == st.sent + [Delivery(to, Cleaned(DeletedCount(listing, deletable)))])
      && (action in {"takePicture", "chooseFromGallery"} ==>
            r.context == Some(to) && r.options == ArgumentOptions(args))
  {
    var (r, handled) := ExecuteStep(st, action, args, to, device, listing, deletable);
    if action == "takePicture" {
      TakePictureOutcomes(st.(context := Some(to), options := ArgumentOptions(args)), device);
    } else if action == "chooseFromGallery" {
      ChooseFromGalleryOutcomes(st.(context := Some(to), options := ArgumentOptions(args)), device);
    }
  }

  /** The cleanup count never exceeds the listing, and equals it exactly when every deletion succeeds. */
  lemma CleanupCountBounds(files: seq<string>, deletable: string -> bool)
    ensures DeletedCount(Some(files), deletable) <= |files|
    ensures DeletedCount(Some(files), deletable) == |files| <==> forall i :: 0 <= i < |files| ==> deletable(files[i])
  {
    KeepSplits(files, deletable);
    KeepAllNegated(files, deletable);
  }

  // ---------------------------------------------------------------- cleanup loop

  /** The loop of `cleanup`: delete every file of the listing, counting the deletions that succeed. */
  method DeleteAll(files: seq<string>, deletable: string -> bool) returns (cleaned: nat, remaining: seq<string>)
    ensures cleaned == |Keep(files, deletable, true)|
    ensures remaining == Keep(files, deletable, false)
    ensures cleaned + |remaining| == |files|
  {
    cleaned := 0;
    remaining := [];
    for i := 0 to |files|
      invariant cleaned == |Keep(files[..i], deletable, true)|
      invariant remaining == Keep(files[..i], deletable, false)
    {
      KeepStep(files, i, deletable, true);
      KeepStep(files, i, deletable, false);
      if deletable(files[i]) {
        cleaned := cleaned + 1;
      } else {
        remaining := remaining + [files[i]];
      }
    }
    assert files[..|files|] == files;
    KeepSplits(files, deletable);
  }

  /**
   * The body of `processImage` up to the point where the result is sent,
   * step by step on local variables: the options are read as they are needed
   * and every exception ends the run with its message.
   */
  method RunPipeline(options: OptionMap, originalBitmap: Bitmap, sourcePath: Option<string>, media: Media)
    returns (result: Result<Processed, string>)
    ensures result == Process(AndroidSettings(options), originalBitmap, sourcePath, ExifAt(media, sourcePath),
                              media.encode, media.files)
  {
    var bitmap := originalBitmap;

    var correctOrientation := OptBoolean(options, "correctOrientation", true);
    if correctOrientation && sourcePath.Some? {
      bitmap := FixOrientation(bitmap, media.exif(sourcePath.value));
    }

    var targetWidth := OptInt(options, "targetWidth", 0);
    var targetHeight := OptInt(options, "targetHeight", 0);
    if targetWidth > 0 || targetHeight > 0 {
      var resized := ResizeBitmap(bitmap, targetWidth, targetHeight);
      if resized.Failure? {
        return Failure(ErrorPrefix + resized.error);
      }
      bitmap := resized.value;
    }

    var quality := OptInt(options, "quality", 85);
    var encodingType := OptInt(options, "encodingType", 0);
    var returnType := OptString(options, "returnType", "base64");

    var format: CompressFormat;
    var compressed: Result<seq<byte>, string>;
    if encodingType == 1 {
      compressed := Compress(bitmap, Png, 100, media.encode);
      format := Png;
    } else {
      compressed := Compress(bitmap, Jpeg, quality, media.encode);
      format := Jpeg;
    }
    if compressed.Failure? {
      return Failure(ErrorPrefix + compressed.error);
    }

    var imageData: string;
    if returnType == Some("fileURI") {
      var file := TempFilePath(media.files, Extension(format));
      if file.Failure? {
        return Failure(ErrorPrefix + file.error);
      }
      if media.files.writeError.Some? {
        return Failure(ErrorPrefix + media.files.writeError.value);
      }
      imageData := FileScheme + file.value;
    } else {
      imageData := Encode(compressed.value);
    }
    var response := Response(bitmap.width, bitmap.height, FormatName(format), imageData);
    return Success(Processed(response, bitmap, compressed.value));
  }

  // ---------------------------------------------------------------- the plugin object

  class CameraPlugin {
    var currentCallbackContext: Option<CallbackId>
    var currentOptions: OptionMap
    var photoUri: Option<Uri>
    var sent: seq<Delivery>
    var requested: seq<int>
    var launched: seq<int>
    var gallery: seq<Bitmap>

    function Snapshot(): State
      reads this
    {
      State(currentCallbackContext, currentOptions, photoUri, sent, requested, launched, gallery)
    }

    constructor()
      ensures Snapshot() == Initial
    {
      currentCallbackContext := None;
      currentOptions := map[];
      photoUri := None;
      sent := [];
      requested := [];
      launched := [];
      gallery := [];
    }

    method Execute(action: string, args: Option<OptionMap>, callbackContext: CallbackId,
                   device: Device, listing: Option<seq<string>>, deletable: string -> bool)
      returns (handled: bool)
      modifies this
      ensures (Snapshot(), handled) == ExecuteStep(old(Snapshot()), action, args, callbackContext, device, listing, deletable)
    {
      if action == "takePicture" {
        currentCallbackContext := Some(callbackContext);
        currentOptions := ArgumentOptions(args);
        TakePicture(device);
        handled := true;
      } else if action == "chooseFromGallery" {
        currentCallbackContext := Some(callbackContext);
        currentOptions := ArgumentOptions(args);
        ChooseFromGallery(device);
        handled := true;
      } else if action == "cleanup" {
        Cleanup(callbackContext, listing, deletable);
        handled := true;
      } else {
        handled := false;
      }
    }

    /** `currentCallbackContext.error(message)`, skipped when there is no context. */
    method Error(message: string)
      modifies this
      ensures Snapshot() == Fail(old(Snapshot()), message)
    {
      if currentCallbackContext.Some? {
        sent := sent + [Delivery(currentCallbackContext.value, Err(message))];
      }
    }

    method TakePicture(device: Device)
      modifies this
      ensures Snapshot() == TakePictureStep(old(Snapshot()), device)
    {
      if Camera !in device.granted {
        requested := requested + [PermissionRequestCamera];
        return;
      }
      match device.photoFile
      case Failure(m) =>
        Error(CameraOpenError + m);
      case Success(uri) =>
        photoUri := Some(uri);
        if device.launchError.Some? {
          Error(CameraOpenError + device.launchError.value);
        } else {
          launched := launched + [RequestTakePicture];
        }
    }

    method ChooseFromGallery(device: Device)
      modifies this
      ensures Snapshot() == ChooseFromGalleryStep(old(Snapshot()), device)
    {
      if device.sdk >= 33 {
        if ReadMediaImages !in device.granted {
          requested := requested + [PermissionRequestGallery];
          return;
        }
      } else if ReadExternalStorage !in device.granted {
        requested := requested + [PermissionRequestGallery];
        return;
      }
      if device.launchError.Some? {
        Error(GalleryOpenError + device.launchError.value);
      } else {
        launched := launched + [RequestChooseGallery];
      }
    }

    /** `listing` is the cache sub-directory's files, or None when it does not exist or cannot be listed. */
    method Cleanup(callbackContext: CallbackId, listing: Option<seq<string>>, deletable: string -> bool)
      modifies this
      ensures Snapshot() == CleanupStep(old(Snapshot()), callbackContext, listing, deletable)
    {
      var cleaned := 0;
      if listing.Some? {
        var remaining;
        cleaned, remaining := DeleteAll(listing.value, deletable);
      }
      sent := sent + [Delivery(callbackContext, Cleaned(cleaned))];
    }

    method OnActivityResult(requestCode: int, resultCode: int, data: Option<Uri>, media: Media)
      modifies this
      ensures Snapshot() == ActivityResultStep(old(Snapshot()), requestCode, resultCode, data, media)
    {
      if currentCallbackContext.None? {
        return;
      }
      if resultCode != ResultOk {
        Error(CancelledMessage);
        return;
      }
      var bitmap: Option<Bitmap> := None;
      var sourcePath: Option<string> := None;
      var stream: Result<Option<Bitmap>, string> := Success(None);
      if requestCode == RequestTakePicture && photoUri.Some? {
        stream := media.open(photoUri.value);
        sourcePath := Some(photoUri.value.path);
      } else if requestCode == RequestChooseGallery && data.Some? {
        stream := media.open(data.value);
      }
      if stream.Failure? {
        Error(ErrorPrefix + stream.error);
        return;
      }
      bitmap := stream.value;
      if bitmap.None? {
        Error(UndecodableMessage);
        return;
      }
      ProcessImage(bitmap.value, sourcePath, media);
    }

    method OnRequestPermissionResult(requestCode: int, grantResults: seq<int>, device: Device)
      modifies this
      ensures Snapshot() == PermissionResultStep(old(Snapshot()), requestCode, grantResults, device)
    {
      if |grantResults| > 0 && grantResults[0] == PermissionGranted {
        if requestCode == PermissionRequestCamera {
          TakePicture(device);
        } else if requestCode == PermissionRequestGallery {
          ChooseFromGallery(device);
        }
      } else {
        Error(DeniedMessage);
      }
    }

    method ProcessImage(originalBitmap: Bitmap, sourcePath: Option<string>, media: Media)
      modifies this
      ensures Snapshot() == ProcessImageStep(old(Snapshot()), originalBitmap, sourcePath, media)
    {
      var result := RunPipeline(currentOptions, originalBitmap, sourcePath, media);
      match result
      case Failure(m) =>
        Error(m);
      case Success(p) =>
        if OptBoolean(currentOptions, "saveToGallery", false) {
          gallery := gallery + [p.bitmap];
        }
        if currentCallbackContext.Some? {
          sent := sent + [Delivery(currentCallbackContext.value, Ok(p.response))];
        }
    }
  }
}
