/**
 * The iOS plugin object: the three commands JavaScript invokes, the picker
 * delegate callbacks UIKit and PhotosUI deliver, and the results sent back.
 *
 * As on Android, each method of `CameraPlugin` is specified by a step
 * function on a `State` snapshot of the plugin's fields and of what it has
 * done to the outside world; the lifecycle properties are proved about the
 * step functions.
 */
module IosPlugin {
  import opened Wrappers
  import opened Text
  import opened Base64
  import opened Options
  import opened IosImage
  import opened IosPipeline
  import opened Callbacks
  import opened Listing

  const CameraUnavailableMessage: string := "Camara no disponible"
  const NoImageMessage: string := "No se pudo obtener la imagen"
  const CancelledMessage: string := "Usuario cancelo la captura"
  const NothingSelectedMessage: string := "No se selecciono ninguna imagen"
  const LoadErrorPrefix: string := "Error cargando imagen: "
  const UnknownError: string := "desconocido"

  /** The picker presented: the camera, the photo library picker before iOS 14, or PHPicker from iOS 14 on. */
  datatype Picker = CameraPicker | LibraryPicker | PhotoPicker

  /** A `CDVInvokedUrlCommand`: its callback and `arguments[0] as? [String: Any]`. */
  datatype Command = Command(callbackId: CallbackId, options: Option<OptionMap>)

  /** What a PHPicker selection gives. */
  datatype PhotoPick =
    | NothingPicked                          // no result, or its provider cannot load a UIImage
    | LoadFailed(description: Option<string>) // loading gave no image; the error's description, if any
    | Loaded(image: UIImage)

  /** The plugin's fields, and what it has done to the outside world so far. */
  datatype State = State(
    callbackId: Option<CallbackId>,  // currentCallbackId
    options: OptionMap,              // currentOptions
    sent: seq<Delivery>,             // results delivered to JavaScript, in order
    presented: seq<Picker>,          // pickers presented, in order
    album: seq<UIImage>,             // images saved to the photo album, in order
    written: seq<string>)            // files written for fileURI, in order

  const Initial: State := State(None, map[], [], [], [], [])

  // ---------------------------------------------------------------- steps

  function Fail(st: State, message: string): State
  {
    st.(sent := st.sent + Notify(st.callbackId, Err(message)))
  }

  /** What every command does first: remember its callback and its options. */
  function Begin(st: State, command: Command): State
  {
    st.(callbackId := Some(command.callbackId), options := command.options.GetOrDefault(map[]))
  }

  /** `takePicture(command)`; `cameraAvailable` is `isSourceTypeAvailable(.camera)`. */
  function TakePictureStep(st: State, command: Command, cameraAvailable: bool): State
  {
    var begun := Begin(st, command);
    if !cameraAvailable then begun.(sent := begun.sent + [Delivery(command.callbackId, Err(CameraUnavailableMessage))])
    else begun.(presented := begun.presented + [CameraPicker])
  }

  /** `chooseFromGallery(command)`; `ios14` says whether PHPicker is available. */
  function ChooseFromGalleryStep(st: State, command: Command, ios14: bool): State
  {
    var begun := Begin(st, command);
    begun.(presented := begun.presented + [if ios14 then PhotoPicker else LibraryPicker])
  }

  /** The files `cleanup` looks at: those whose name starts with the plugin's prefix. */
  predicate IsPluginFile(name: string)
  {
    StartsWith(name, FilePrefix)
  }

  /** The files a sweep does remove: plugin files whose removal succeeds. */
  function Removed(removable: string -> bool): string -> bool
  {
    name => IsPluginFile(name) && removable(name)
  }

  /** One more name of the listing: what the count and the remaining files gain. */
  lemma SweepStep(files: seq<string>, i: nat, removable: string -> bool)
    requires i < |files|
    ensures IsPluginFile(files[i]) ==>
      Keep(files[..i + 1], IsPluginFile, true) == Keep(files[..i], IsPluginFile, true) + [files[i]]
    ensures !IsPluginFile(files[i]) ==>
      Keep(files[..i + 1], IsPluginFile, true) == Keep(files[..i], IsPluginFile, true)
    ensures IsPluginFile(files[i]) && removable(files[i]) ==>
      Keep(files[..i + 1], Removed(removable), false) == Keep(files[..i], Removed(removable), false)
    ensures !(IsPluginFile(files[i]) && removable(files[i])) ==>
      Keep(files[..i + 1], Removed(removable), false) == Keep(files[..i], Removed(removable), false) + [files[i]]
  {
    KeepStep(files, i, IsPluginFile, true);
    KeepStep(files, i, Removed(removable), false);
    assert Removed(removable)(files[i]) == (IsPluginFile(files[i]) && removable(files[i]));
  }

  /** The `cleaned` count: every plugin file, whether or not its removal succeeds. */
  function SweptCount(listing: Option<seq<string>>): nat
  {
    match listing
    case None => 0
    case Some(files) => |Keep(files, IsPluginFile, true)|
  }

  /** `cleanup(command)`; `listing` is the temporary directory's contents, or None when they cannot be read. */
  function CleanupStep(st: State, to: CallbackId, listing: Option<seq<string>>): State
  {
    st.(sent := st.sent + [Delivery(to, Cleaned(SweptCount(listing)))])
  }

  /** `processImage(image)`: without a pending callback nothing happens at all, not even the file write. */
  function ProcessImageStep(st: State, image: UIImage, r: Rendering): State
  {
    if st.callbackId.None? then st
    else match Process(IosSettings(st.options), image, r)
      case Failure(m) => Fail(st, m)
      case Success(p) =>
        st.(written := st.written + (if p.written.Some? then [p.written.value] else []),
            sent := st.sent + [Delivery(st.callbackId.value, Ok(p.response))])
  }

  predicate SaveRequested(options: OptionMap)
  {
    CastBool(options, "saveToGallery") == Some(true)
  }

  /** `imagePickerController(_:didFinishPickingMediaWithInfo:)`; `image` is the original image, if any. */
  function ImagePickedStep(st: State, image: Option<UIImage>, r: Rendering): State
  {
    match image
    case None => Fail(st, NoImageMessage)
    case Some(original) =>
      var processed := ProcessImageStep(st, original, r);
      processed.(album := processed.album + (if SaveRequested(st.options) then [original] else []))
  }

  /** `imagePickerControllerDidCancel(_:)` */
  function PickerCancelledStep(st: State): State
  {
    Fail(st, CancelledMessage)
  }

  /** `picker(_:didFinishPicking:)` of PHPicker. */
  function PhotoPickedStep(st: State, pick: PhotoPick, r: Rendering): State
  {
    match pick
    case NothingPicked => Fail(st, NothingSelectedMessage)
    case LoadFailed(description) => Fail(st, LoadErrorPrefix + description.GetOrDefault(UnknownError))
    case Loaded(image) => ProcessImageStep(st, image, r)
  }

  // ---------------------------------------------------------------- cleanup loop

  /**
   * The loop of `cleanup`: try to remove every plugin file, counting each one
   * tried; `remaining` is what the directory holds afterwards.
   */
  method SweepTemporary(files: seq<string>, removable: string -> bool) returns (cleaned: nat, remaining: seq<string>)
    ensures cleaned == |Keep(files, IsPluginFile, true)|
    ensures remaining == Keep(files, Removed(removable), false)
  {
    cleaned := 0;
    remaining := [];
    for i := 0 to |files|
      invariant cleaned == |Keep(files[..i], IsPluginFile, true)|
      invariant remaining == Keep(files[..i], Removed(removable), false)
    {
      SweepStep(files, i, removable);
      var file := files[i];
      if IsPluginFile(file) {
        if !removable(file) {
          remaining := remaining + [file];
        }
        cleaned := cleaned + 1;
      } else {
        remaining := remaining + [file];
      }
    }
    assert files[..|files|] == files;
  }

  // ---------------------------------------------------------------- lifecycle properties

  /** `after` answers the pending callback of `st` once and changes nothing about the request. */
  predicate AnsweredOnce(st: State, after: State)
    requires st.callbackId.Some?
  {
    && after.callbackId == st.callbackId && after.options == st.options && after.presented == st.presented
    && |after.sent| == |st.sent| + 1 && after.sent[..|st.sent|] == st.sent
    && after.sent[|st.sent|].to == st.callbackId.value
  }

  lemma FailAnswersOnce(st: State, message: string)
    requires st.callbackId.Some?
    ensures AnsweredOnce(st, Fail(st, message))
  {
    assert Fail(st, message).sent[..|st.sent|] == st.sent;
  }

  lemma ProcessImageAnswersOnce(st: State, image: UIImage, r: Rendering)
    requires st.callbackId.Some?
    ensures AnsweredOnce(st, ProcessImageStep(st, image, r))
  {
    assert ProcessImageStep(st, image, r).sent[..|st.sent|] == st.sent;
  }

  /** Every picker outcome is answered exactly once to the pending callback, and changes nothing about the request. */
  lemma PickerOutcomesAnswerOnce(st: State, image: Option<UIImage>, pick: PhotoPick, r: Rendering)
    requires st.callbackId.Some?
    ensures forall after :: after in {ImagePickedStep(st, image, r), PickerCancelledStep(st), PhotoPickedStep(st, pick, r)} ==>
      && after.callbackId == st.callbackId && after.options == st.options && after.presented == st.presented
      && |after.sent| == |st.sent| + 1 && after.sent[..|st.sent|] == st.sent
      && after.sent[|st.sent|].to == st.callbackId.value
  {
    FailAnswersOnce(st, CancelledMessage);
    match image {
      case None => FailAnswersOnce(st, NoImageMessage);
      case Some(i) => ProcessImageAnswersOnce(st, i, r);
    }
    match pick {
      case NothingPicked => FailAnswersOnce(st, NothingSelectedMessage);
      case LoadFailed(description) => FailAnswersOnce(st, LoadErrorPrefix + description.GetOrDefault(UnknownError));
      case Loaded(i) => ProcessImageAnswersOnce(st, i, r);
    }
    assert AnsweredOnce(st, ImagePickedStep(st, image, r));
    assert AnsweredOnce(st, PickerCancelledStep(st));
    assert AnsweredOnce(st, PhotoPickedStep(st, pick, r));
  }

  /** Without a pending callback nothing is sent and no file is written; only the album may still change. */
  lemma NoCallbackNoReply(st: State, image: Option<UIImage>, pick: PhotoPick, r: Rendering)
    requires st.callbackId.None?
    ensures ImagePickedStep(st, image, r).sent == st.sent && ImagePickedStep(st, image, r).written == st.written
    ensures PhotoPickedStep(st, pick, r) == st
    ensures PickerCancelledStep(st) == st
  {
  }

  /**
   * Only the UIImagePickerController path saves to the album, and it saves
   * the image as picked, before any correction or resizing; the PHPicker path
   * never saves.
   */
  lemma AlbumGetsTheOriginal(st: State, original: UIImage, pick: PhotoPick, r: Rendering)
    ensures ImagePickedStep(st, Some(original), r).album ==
            st.album + (if SaveRequested(st.options) then [original] else [])
    ensures PhotoPickedStep(st, pick, r).album == st.album
  {
  }

  /** A PHPicker load error names its cause, or says it is unknown. */
  lemma LoadErrorMessage(st: State, description: Option<string>, r: Rendering)
    requires st.callbackId.Some?
    ensures PhotoPickedStep(st, LoadFailed(description), r).sent ==
      st.sent + [Delivery(st.callbackId.value,
                          Err(LoadErrorPrefix + (if description.Some? then description.value else UnknownError)))]
  {
  }

  /** A missing camera is reported to the command that asked, and no picker is shown. */
  lemma CameraUnavailable(st: State, command: Command)
    ensures var r := TakePictureStep(st, command, false);
      && r.sent == st.sent + [Delivery(command.callbackId, Err(CameraUnavailableMessage))]
      && r.presented == st.presented
      && r.callbackId == Some(command.callbackId)
  {
  }

  /**
   * With a camera, taking a picture presents the camera picker and sends
   * nothing yet; a cancel is then answered to the command that asked.
   */
  lemma CameraPresented(st: State, command: Command)
    ensures var c := TakePictureStep(st, command, true);
      && c.sent == st.sent && c.album == st.album && c.written == st.written
      && c.presented == st.presented + [CameraPicker]
      && c.callbackId == Some(command.callbackId)
      && (command.options.None? ==> c.options == map[])
      && PickerCancelledStep(c).sent == st.sent + [Delivery(command.callbackId, Err(CancelledMessage))]
  {
  }

  /**
   * Choosing from the gallery presents one picker, PHPicker exactly from
   * iOS 14 on and never the camera, and sends nothing yet; a cancel or an
   * empty selection is then answered to the command that asked.
   */
  lemma GalleryPresentsOnePicker(st: State, command: Command, ios14: bool, r: Rendering)
    ensures var g := ChooseFromGalleryStep(st, command, ios14);
      && g.sent == st.sent && g.album == st.album && g.written == st.written
      && |g.presented| == |st.presented| + 1 && g.presented[..|st.presented|] == st.presented
      && (g.presented[|st.presented|] == PhotoPicker <==> ios14)
      && g.presented[|st.presented|] != CameraPicker
      && (command.options.None? ==> g.options == map[])
      && PickerCancelledStep(g).sent == st.sent + [Delivery(command.callbackId, Err(CancelledMessage))]
      && PhotoPickedStep(g, NothingPicked, r).sent == st.sent + [Delivery(command.callbackId, Err(NothingSelectedMessage))]
  {
  }

  /** A successful capture writes at most one file, a plugin file in the temporary directory. */
  lemma WrittenFilesAreSwept(st: State, image: UIImage, r: Rendering)
    ensures var after := ProcessImageStep(st, image, r);
      && |st.written| <= |after.written| <= |st.written| + 1
      && after.written[..|st.written|] == st.written
      && (|after.written| > |st.written| ==>
            exists name :: after.written[|st.written|] == r.tmpDir + name && IsPluginFile(name))
  {
    var after := ProcessImageStep(st, image, r);
    assert after.written[..|st.written|] == st.written;
    if |after.written| > |st.written| {
      var s := IosSettings(st.options);
      var name := FileName(r.millis, s.encodingType == 1);
      FileNamesByTime(r.millis, r.millis, s.encodingType == 1);
      assert after.written[|st.written|] == r.tmpDir + name;
    }
  }

  /**
   * The count is of files tried, not files removed: it is at least the
   * number removed, and equal to it exactly when every removal succeeds.
   */
  lemma {:induction false} SweepCountsAttempts(files: seq<string>, removable: string -> bool)
    ensures |files| - |Keep(files, Removed(removable), false)| <= SweptCount(Some(files))
    ensures |files| - |Keep(files, Removed(removable), false)| == SweptCount(Some(files)) <==>
            forall i :: 0 <= i < |files| && IsPluginFile(files[i]) ==> removable(files[i])
  {
    KeepSplits(files, Removed(removable));
    KeepWeaker(files, Removed(removable), IsPluginFile);
  }

  /** An example: a plugin file that cannot be removed is still counted. */
  lemma UnremovableFileIsCounted()
    ensures SweptCount(Some(["slm_camera_1.jpg"])) == 1
    ensures Keep(["slm_camera_1.jpg"], Removed(_ => false), false) == ["slm_camera_1.jpg"]
  {
    var files := ["slm_camera_1.jpg"];
    assert files[..0] == [];
    assert IsPluginFile(files[0]);
  }

  // ---------------------------------------------------------------- the plugin object

  /**
   * The body of `processImage` up to the point where the result is sent, step
   * by step on local variables.
   */
  method RunPipeline(options: OptionMap, originalImage: UIImage, r: Rendering) returns (result: Result<Processed, string>)
    ensures result == Process(IosSettings(options), originalImage, r)
  {
    var image := originalImage;

    var correctOrientation := CastBool(options, "correctOrientation").GetOrDefault(true);
    if correctOrientation {
      image := FixOrientation(image, r.orientationDrawn);
    }

    var targetWidth := CastInt(options, "targetWidth").GetOrDefault(0);
    var targetHeight := CastInt(options, "targetHeight").GetOrDefault(0);
    if targetWidth > 0 || targetHeight > 0 {
      image := ResizeImage(image, targetWidth, targetHeight, r.resizeDrawn);
    }

    var quality := CastInt(options, "quality").GetOrDefault(85);
    var encodingType := CastInt(options, "encodingType").GetOrDefault(0);
    var returnType := CastString(options, "returnType").GetOrDefault("base64");

    var imageData: Option<seq<byte>>;
    var format := "jpeg";
    if encodingType == 1 {
      imageData := r.encode(image, PngData);
      format := "png";
    } else {
      imageData := r.encode(image, JpegData(quality as real / 100.0));
      format := "jpeg";
    }
    if imageData.None? {
      return Failure(ProcessingError);
    }
    var data := imageData.value;

    var payload: string;
    var written: Option<string> := None;
    if returnType == "fileURI" {
      var fileName := FileName(r.millis, format == "png");
      var filePath := r.tmpDir + fileName;
      if r.writeSucceeds {
        written := Some(filePath);
      }
      payload := FileScheme + filePath;
    } else {
      payload := Encode(data);
    }
    var response := Response(ReportedWidth(image), ReportedHeight(image), format, payload);
    return Success(Processed(response, image, data, written));
  }

  class CameraPlugin {
    var currentCallbackId: Option<CallbackId>
    var currentOptions: OptionMap
    var sent: seq<Delivery>
    var presented: seq<Picker>
    var album: seq<UIImage>
    var written: seq<string>

    function Snapshot(): State
      reads this
    {
      State(currentCallbackId, currentOptions, sent, presented, album, written)
    }

    constructor()
      ensures Snapshot() == Initial
    {
      currentCallbackId := None;
      currentOptions := map[];
      sent := [];
      presented := [];
      album := [];
      written := [];
    }

    /** An error to the current callback, if there is one. */
    method Error(message: string)
      modifies this
      ensures Snapshot() == Fail(old(Snapshot()), message)
    {
      if currentCallbackId.Some? {
        sent := sent + [Delivery(currentCallbackId.value, Err(message))];
      }
    }

    method TakePicture(command: Command, cameraAvailable: bool)
      modifies this
      ensures Snapshot() == TakePictureStep(old(Snapshot()), command, cameraAvailable)
    {
      currentCallbackId := Some(command.callbackId);
      currentOptions := command.options.GetOrDefault(map[]);
      if !cameraAvailable {
        sent := sent + [Delivery(command.callbackId, Err(CameraUnavailableMessage))];
        return;
      }
      presented := presented + [CameraPicker];
    }

    method ChooseFromGallery(command: Command, ios14: bool)
      modifies this
      ensures Snapshot() == ChooseFromGalleryStep(old(Snapshot()), command, ios14)
    {
      currentCallbackId := Some(command.callbackId);
      currentOptions := command.options.GetOrDefault(map[]);
      if ios14 {
        presented := presented + [PhotoPicker];
      } else {
        presented := presented + [LibraryPicker];
      }
    }

    method Cleanup(command: Command, listing: Option<seq<string>>, removable: string -> bool)
      modifies this
      ensures Snapshot() == CleanupStep(old(Snapshot()), command.callbackId, listing)
    {
      var cleaned := 0;
      if listing.Some? {
        var remaining;
        cleaned, remaining := SweepTemporary(listing.value, removable);
      }
      sent := sent + [Delivery(command.callbackId, Cleaned(cleaned))];
    }

    method ImagePickerFinished(image: Option<UIImage>, r: Rendering)
      modifies this
      ensures Snapshot() == ImagePickedStep(old(Snapshot()), image, r)
    {
      if image.None? {
        Error(NoImageMessage);
        return;
      }
      var save := CastBool(currentOptions, "saveToGallery") == Some(true);
      ProcessImage(image.value, r);
      if save {
        album := album + [image.value];
      }
    }

    method ImagePickerCancelled()
      modifies this
      ensures Snapshot() == PickerCancelledStep(old(Snapshot()))
    {
      Error(CancelledMessage);
    }

    method PhotoPickerFinished(pick: PhotoPick, r: Rendering)
      modifies this
      ensures Snapshot() == PhotoPickedStep(old(Snapshot()), pick, r)
    {
      match pick
      case NothingPicked =>
        Error(NothingSelectedMessage);
      case LoadFailed(description) =>
        Error(LoadErrorPrefix + description.GetOrDefault(UnknownError));
      case Loaded(image) =>
        ProcessImage(image, r);
    }

    method ProcessImage(originalImage: UIImage, r: Rendering)
      modifies this
      ensures Snapshot() == ProcessImageStep(old(Snapshot()), originalImage, r)
    {
      var result := RunPipeline(currentOptions, originalImage, r);
      if currentCallbackId.None? {
        return;
      }
      match result
      case Failure(m) =>
        sent := sent + [Delivery(currentCallbackId.value, Err(m))];
      case Success(p) =>
        if p.written.Some? {
          written := written + [p.written.value];
        }
        sent := sent + [Delivery(currentCallbackId.value, Ok(p.response))];
    }
  }
}
