/**
 * The sequential logic of ARController (the Unity component that owns the
 * ARToolKit session): the bounded log, the run/pause state machine, the
 * tracker-option accessors and the way they fall back on defaults, the video
 * viewport rectangle, the orientation table, the content-mode cycle and the
 * initial contents of the video colour buffers.
 *
 * Native plugin calls are not executed: their results are parameters, and
 * the calls that change native state are recorded, in order, in `nativeCalls`.
 */
module Controller {
  import opened Basics

  // ------------------------------------------------------------------ log

  const MaximumLogMessages: nat := 1000

  const LogTag := "ARController: "
  const TemplateSizeWarning := LogTag + "Warning: template size changed. Please reload scene."
  const TemplateCountMaxWarning := LogTag + "Warning: template maximum count changed. Please reload scene."

  /** The newest `n` entries of `s`, oldest first. */
  function Newest(s: seq<string>, n: nat): (r: seq<string>)
  {
    if |s| <= n then s else s[|s| - n..]
  }

  /** The static logMessages list behind ARController.Log. */
  class MessageLog {
    var messages: seq<string>

    constructor ()
      ensures messages == []
    {
      messages := [];
    }

    /** Log appends, then drops the oldest entries while there are more than 1000. */
    method Log(msg: string)
      modifies this
      ensures messages == Newest(old(messages) + [msg], MaximumLogMessages)
      ensures |messages| == if |old(messages)| + 1 <= MaximumLogMessages then |old(messages)| + 1 else MaximumLogMessages
      ensures messages[|messages| - 1] == msg
    {
      ghost var all := messages + [msg];
      messages := messages + [msg];
      while |messages| > MaximumLogMessages
        invariant |messages| >= 1
        invariant messages == all[|all| - |messages|..]
        invariant |messages| >= MaximumLogMessages || messages == all
        decreases |messages|
      {
        messages := messages[1..];
      }
    }
  }

  /** The retained entries are a suffix of the full history: order is kept and only the oldest go. */
  lemma NewestIsSuffix(s: seq<string>, n: nat)
    ensures |Newest(s, n)| == if |s| <= n then |s| else n
    ensures forall i :: 0 <= i < |Newest(s, n)| ==> Newest(s, n)[i] == s[|s| - |Newest(s, n)| + i]
  {
  }

  // -------------------------------------------------------------- options

  /** The tracker options that ARController reads and writes as integers. */
  datatype IntOption =
    | TwoDMaxImages
    | SquareThreshold
    | SquareThresholdMode
    | SquareLabelingMode
    | SquarePatternDetectionMode
    | SquareMatrixCodeType
    | SquareImageProcMode

  // Enum values as the C# enums number them (a C# enum variable can hold any int).
  const ThresholdModeManual := 0
  const LabelingWhiteRegion := 0
  const LabelingBlackRegion := 1
  const TemplateMatchingColor := 0
  const TemplateMatchingMono := 1
  const MatrixCodeDetection := 2
  const TemplateMatchingColorAndMatrix := 3
  const TemplateMatchingMonoAndMatrix := 4
  const MatrixCode3x3 := 3
  const ImageProcFrame := 0

  /** The initial value of each option's backing field. */
  function DefaultIntOption(o: IntOption): int
  {
    match o
    case TwoDMaxImages => 1
    case SquareThreshold => 100
    case SquareThresholdMode => ThresholdModeManual
    case SquareLabelingMode => LabelingBlackRegion
    case SquarePatternDetectionMode => TemplateMatchingColor
    case SquareMatrixCodeType => MatrixCode3x3
    case SquareImageProcMode => ImageProcFrame
  }

  /** The value an option keeps when the getter reads `ret` from a running tracker. */
  function IntOptionFromNative(o: IntOption, ret: int): (v: int)
    ensures o == SquareThreshold ==> 0 <= v <= 255 && (v == ret || v == 100)
    ensures o == SquareThreshold && 0 <= ret <= 255 ==> v == ret
    ensures o == SquareThreshold && (ret < 0 || ret > 255) ==> v == 100
    ensures o == TwoDMaxImages ==> v == ret
    ensures o != SquareThreshold && o != TwoDMaxImages ==>
      (ret >= 0 ==> v == ret) && (ret < 0 ==> v == DefaultIntOption(o))
  {
    match o
    case TwoDMaxImages => ret
    case SquareThreshold => if ret < 0 || ret > 255 then 100 else ret
    case _ => if ret >= 0 then ret else DefaultIntOption(o)
  }

  /** Every value read back from the tracker is non-negative, except the unclamped 2D marker count. */
  lemma OptionFromNativeNonNegative(o: IntOption, ret: int)
    requires o != TwoDMaxImages
    ensures IntOptionFromNative(o, ret) >= 0
  {
  }

  /** The border size kept when the getter reads `ret` from a running tracker. */
  function BorderSizeFromNative(ret: real): (v: real)
    ensures 0.0 < v < 0.5
    ensures 0.0 < ret < 0.5 ==> v == ret
    ensures !(0.0 < ret < 0.5) ==> v == 0.25
  {
    if ret > 0.0 && ret < 0.5 then ret else 0.25
  }

  /** Calls into the native plugin that change its state. */
  datatype NativeCall =
    | SetOptionInt(option: IntOption, value: int)
    | SetBorderSizeOption(size: real)
    | StartRunning(stereo: bool)
    | StopRunning
    | ShutdownAR

  // ------------------------------------------------------------- viewport

  datatype ContentMode = Stretch | Fit | Fill | OneToOne

  datatype ContentAlign = TopLeft | Top | TopRight | Left | Center | Right | BottomLeft | Bottom | BottomRight

  datatype ViewEye = LeftEye | RightEye

  datatype Rect = Rect(left: int, bottom: int, width: int, height: int)

  predicate AlignedLeft(a: ContentAlign) { a == TopLeft || a == Left || a == BottomLeft }
  predicate AlignedRight(a: ContentAlign) { a == TopRight || a == Right || a == BottomRight }
  predicate AlignedBottom(a: ContentAlign) { a == BottomLeft || a == Bottom || a == BottomRight }
  predicate AlignedTop(a: ContentAlign) { a == TopLeft || a == Top || a == TopRight }

  /**
   * getViewport. Screen.width and Screen.height are the parameters
   * `screenWidth` and `screenHeight`; `fitted` is the size that the
   * floating-point Fit/Fill scaling produces (that arithmetic is not
   * modelled) and is used only in those two modes.
   */
  function Viewport(screenWidth: int, screenHeight: int, mode: ContentMode, align: ContentAlign,
                    rotate90: bool, contentWidth: int, contentHeight: int, stereo: bool, eye: ViewEye,
                    fitted: (int, int)): (r: Rect)
    ensures stereo ==> r == Rect(if eye == LeftEye then 0 else DivTrunc(screenWidth, 2), 0,
                                DivTrunc(screenWidth, 2), screenHeight)
    ensures !stereo && mode == Stretch ==> r.width == screenWidth && r.height == screenHeight
    ensures !stereo && mode == OneToOne ==>
      r.width == (if rotate90 then contentHeight else contentWidth) &&
      r.height == (if rotate90 then contentWidth else contentHeight)
    ensures !stereo && (mode == Fit || mode == Fill) ==> (r.width, r.height) == fitted
    ensures !stereo ==>
      r.left == (if AlignedLeft(align) then 0
                 else if AlignedRight(align) then screenWidth - r.width
                 else DivTrunc(screenWidth - r.width, 2))
    ensures !stereo ==>
      r.bottom == (if AlignedBottom(align) then 0
                   else if AlignedTop(align) then screenHeight - r.height
                   else DivTrunc(screenHeight - r.height, 2))
  {
    if stereo then
      var w := DivTrunc(screenWidth, 2);
      Rect(if eye == LeftEye then 0 else DivTrunc(screenWidth, 2), 0, w, screenHeight)
    else
      var (w, h) :=
        if mode == Stretch then (screenWidth, screenHeight)
        else
          var cw := if rotate90 then contentHeight else contentWidth;
          var ch := if rotate90 then contentWidth else contentHeight;
          if mode == Fit || mode == Fill then fitted else (cw, ch);
      var left := if AlignedLeft(align) then 0
                  else if AlignedRight(align) then screenWidth - w
                  else DivTrunc(screenWidth - w, 2);
      var bottom := if AlignedBottom(align) then 0
                    else if AlignedTop(align) then screenHeight - h
                    else DivTrunc(screenHeight - h, 2);
      Rect(left, bottom, w, h)
  }

  /** Is a rectangle inside a screen of the given size? */
  predicate OnScreen(r: Rect, screenWidth: int, screenHeight: int)
  {
    0 <= r.left && r.left + r.width <= screenWidth && 0 <= r.bottom && r.bottom + r.height <= screenHeight
  }

  /**
   * Whatever the alignment, a mono viewport no larger than the screen lies on
   * the screen; in Stretch mode it is the whole screen.
   */
  lemma MonoViewportOnScreen(screenWidth: int, screenHeight: int, mode: ContentMode, align: ContentAlign,
                             rotate90: bool, contentWidth: int, contentHeight: int, eye: ViewEye, fitted: (int, int))
    requires screenWidth >= 0 && screenHeight >= 0
    requires var r := Viewport(screenWidth, screenHeight, mode, align, rotate90, contentWidth, contentHeight, false, eye, fitted);
      0 <= r.width <= screenWidth && 0 <= r.height <= screenHeight
    ensures OnScreen(Viewport(screenWidth, screenHeight, mode, align, rotate90, contentWidth, contentHeight, false, eye, fitted),
                     screenWidth, screenHeight)
    ensures mode == Stretch ==>
      Viewport(screenWidth, screenHeight, mode, align, rotate90, contentWidth, contentHeight, false, eye, fitted)
        == Rect(0, 0, screenWidth, screenHeight)
  {
  }

  /** The two stereo viewports are the left and right halves of the screen, side by side. */
  lemma StereoViewportsAdjacent(screenWidth: int, screenHeight: int, mode: ContentMode, align: ContentAlign,
                                rotate90: bool, contentWidth: int, contentHeight: int, fitted: (int, int))
    requires screenWidth >= 0
    ensures var l := Viewport(screenWidth, screenHeight, mode, align, rotate90, contentWidth, contentHeight, true, LeftEye, fitted);
            var r := Viewport(screenWidth, screenHeight, mode, align, rotate90, contentWidth, contentHeight, true, RightEye, fitted);
            l.left == 0 && l.left + l.width == r.left && r.left + r.width <= screenWidth
            && screenWidth - (r.left + r.width) <= 1 && l.width == r.width
  {
  }

  // ---------------------------------------------- orientation and cycling

  datatype ScreenOrientation = Unknown | Portrait | PortraitUpsideDown | LandscapeLeft | LandscapeRight | AutoRotation

  /** CycleContentMode's choice of the next mode. */
  function NextContentMode(m: ContentMode): (n: ContentMode)
    ensures n == Stretch || n == Fit
    ensures n == Stretch <==> m == Fit
  {
    match m
    case Fit => Stretch
    case _ => Fit
  }

  /** Cycling alternates between Fit and Stretch; after one step it never reaches Fill or 1:1. */
  lemma CycleAlternates(m: ContentMode)
    ensures NextContentMode(NextContentMode(m)) == (if m == Fit then Fit else Stretch)
    ensures NextContentMode(NextContentMode(NextContentMode(m))) == NextContentMode(m)
  {
  }

  // ------------------------------------------------------ colour buffers

  datatype Color32 = Color32(r: int, g: int, b: int, a: int)

  const BlackOpaque := Color32(0, 0, 0, 255)
  /** The value a new C# Color32 array holds in every slot. */
  const ClearColor := Color32(0, 0, 0, 0)

  /** The colour array and the initial texture pixels of a video background. */
  datatype VideoBuffers = VideoBuffers(colors: seq<Color32>, texture: seq<Color32>)

  /**
   * The buffer part of CreateVideoBackgroundMesh: None for a non-positive
   * video size; otherwise a w*h colour array and a w*h texture filled with
   * opaque black.
   */
  method CreateVideoBuffers(w: int, h: int) returns (r: Option<VideoBuffers>)
    ensures r.None? <==> (w <= 0 || h <= 0)
    ensures r.Some? ==> |r.value.colors| == w * h && |r.value.texture| == w * h
    ensures r.Some? ==> forall i :: 0 <= i < |r.value.texture| ==> r.value.texture[i] == BlackOpaque
    ensures r.Some? ==> forall i :: 0 <= i < |r.value.colors| ==> r.value.colors[i] == ClearColor
  {
    if w <= 0 || h <= 0 {
      return None;
    }
    var colors := new Color32[w * h](_ => ClearColor);
    var cleared := colors[..];
    var arr := new Color32[w * h](_ => ClearColor);
    var i := 0;
    while i < arr.Length
      invariant 0 <= i <= arr.Length
      invariant forall k :: 0 <= k < i ==> arr[k] == BlackOpaque
    {
      arr[i] := BlackOpaque;
      i := i + 1;
    }
    return Some(VideoBuffers(cleared, arr[..]));
  }

  // ----------------------------------------------------------- controller

  /** The error code arwGetError reports when the camera is in use elsewhere. */
  const ErrorDeviceUnavailable := -13

  const CameraInUseMessage := "Unable to start AR tracking. The camera may be in use by another application."
  const NoCameraMessage := "Unable to start AR tracking. Please check that you have a camera connected."

  /** Where StartAR looks for a camera-parameter file of the given base name. */
  function CameraParamSource(streamingAssetsPath: string, dir: string, name: string): string
  {
    PathCombine(PathCombine(streamingAssetsPath, dir), name + ".dat")
  }

  /**
   * Are the parameter files StartAR needs all found? `dest` is the
   * destination GetFileFromStreamingAssets reports for a source path
   * (empty when the file could not be provided).
   */
  predicate ParamFilesFound(streamingAssetsPath: string, dest: string -> string,
                            name0: string, stereo: bool, name1: string, transName: string)
  {
    (|name0| == 0 || |dest(CameraParamSource(streamingAssetsPath, "ARToolKit/Camera parameters", name0))| > 0)
    && (stereo ==>
         (|name1| == 0 || |dest(CameraParamSource(streamingAssetsPath, "ARToolKit/Camera parameters", name1))| > 0)
         && (|transName| == 0 || |dest(CameraParamSource(streamingAssetsPath, "ARToolKit/Stereo camera parameters", transName))| > 0))
  }

  class ARController {
    var running: bool
    var runOnUnpause: bool
    var sceneConfiguredForVideo: bool
    var sceneConfiguredForVideoWaitingMessageLogged: bool
    var showGUIErrorDialog: bool
    var showGUIErrorDialogContent: string

    var videoIsStereo: bool
    var videoCParamName0: string
    var videoCParamName1: string
    var transL2RName: string

    /** The backing fields of the integer-valued tracker options (currentThreshold, ...). */
    var intOptions: map<IntOption, int>
    var currentBorderSize: real
    var currentTemplateSize: int
    var currentTemplateCountMax: int

    var currentContentMode: ContentMode
    var contentAlign: ContentAlign
    var contentRotate90: bool
    var contentFlipH: bool
    var contentFlipV: bool

    /** The state-changing native calls made so far, oldest first. */
    var nativeCalls: seq<NativeCall>

    ghost predicate Valid()
      reads this`intOptions
    {
      forall o: IntOption :: o in intOptions
    }

    constructor ()
      ensures Valid() && !running && !runOnUnpause && nativeCalls == []
      ensures forall o: IntOption :: intOptions[o] == DefaultIntOption(o)
      ensures currentBorderSize == 0.25 && currentTemplateSize == 16 && currentTemplateCountMax == 25
      ensures currentContentMode == Fit && contentAlign == Center
      ensures !contentRotate90 && !contentFlipH && !contentFlipV
      ensures !videoIsStereo && videoCParamName0 == "camera_para" && videoCParamName1 == "camera_paraR"
      ensures transL2RName == "transL2R"
    {
      running := false;
      runOnUnpause := false;
      sceneConfiguredForVideo := false;
      sceneConfiguredForVideoWaitingMessageLogged := false;
      showGUIErrorDialog := false;
      showGUIErrorDialogContent := "";
      videoIsStereo := false;
      videoCParamName0 := "camera_para";
      videoCParamName1 := "camera_paraR";
      transL2RName := "transL2R";
      intOptions := map o: IntOption | true :: DefaultIntOption(o);
      currentBorderSize := 0.25;
      currentTemplateSize := 16;
      currentTemplateCountMax := 25;
      currentContentMode := Fit;
      contentAlign := Center;
      contentRotate90 := false;
      contentFlipH := false;
      contentFlipV := false;
      nativeCalls := [];
    }

    /** The writes StartAR makes after a successful start, in the source's order. */
    function StartupOptionWrites(): (w: seq<NativeCall>)
      reads this`intOptions, this`currentBorderSize
      requires Valid()
      ensures |w| == 8
    {
      [ SetOptionInt(TwoDMaxImages, intOptions[TwoDMaxImages]),
        SetOptionInt(SquareThreshold, intOptions[SquareThreshold]),
        SetOptionInt(SquareThresholdMode, intOptions[SquareThresholdMode]),
        SetOptionInt(SquareLabelingMode, intOptions[SquareLabelingMode]),
        SetBorderSizeOption(currentBorderSize),
        SetOptionInt(SquarePatternDetectionMode, intOptions[SquarePatternDetectionMode]),
        SetOptionInt(SquareMatrixCodeType, intOptions[SquareMatrixCodeType]),
        SetOptionInt(SquareImageProcMode, intOptions[SquareImageProcMode]) ]
    }

    /**
     * StartAR. `dest` stands for GetFileFromStreamingAssets, `nativeStarted`
     * for the result of arwStartRunningB / arwStartRunningStereoB and
     * `nativeError` for arwGetError after a failed start.
     */
    method StartAR(streamingAssetsPath: string, dest: string -> string, nativeStarted: bool, nativeError: int)
      returns (ok: bool)
      requires Valid()
      modifies this`running, this`nativeCalls, this`showGUIErrorDialog, this`showGUIErrorDialogContent
      modifies this`sceneConfiguredForVideo, this`sceneConfiguredForVideoWaitingMessageLogged
      ensures old(running) ==> !ok && unchanged(this)
      ensures !old(running) && !ParamFilesFound(streamingAssetsPath, dest, videoCParamName0, videoIsStereo,
                                               videoCParamName1, transL2RName) ==>
        !ok && !running && nativeCalls == old(nativeCalls) && showGUIErrorDialog == old(showGUIErrorDialog)
      ensures !old(running) && ParamFilesFound(streamingAssetsPath, dest, videoCParamName0, videoIsStereo,
                                              videoCParamName1, transL2RName) ==>
        ok == nativeStarted && running == nativeStarted
        && nativeCalls == old(nativeCalls) + [StartRunning(videoIsStereo)] + (if ok then StartupOptionWrites() else [])
        && (!ok ==> showGUIErrorDialog && showGUIErrorDialogContent ==
                      (if nativeError == ErrorDeviceUnavailable then CameraInUseMessage else NoCameraMessage))
      ensures !old(running) ==> !sceneConfiguredForVideo && !sceneConfiguredForVideoWaitingMessageLogged
    {
      if running {
        return false;
      }
      sceneConfiguredForVideo, sceneConfiguredForVideoWaitingMessageLogged := false, false;
      if !ParamFilesFound(streamingAssetsPath, dest, videoCParamName0, videoIsStereo, videoCParamName1, transL2RName) {
        return false;
      }
      ok := StartTracking(nativeStarted, nativeError);
    }

    /**
     * The second half of StartAR, once the parameter files are in place:
     * start the native tracker and, when it runs, push the stored options.
     */
    method StartTracking(nativeStarted: bool, nativeError: int) returns (ok: bool)
      requires Valid()
      modifies this`running, this`nativeCalls, this`showGUIErrorDialog, this`showGUIErrorDialogContent
      ensures ok == nativeStarted && running == nativeStarted
      ensures nativeCalls == old(nativeCalls) + [StartRunning(videoIsStereo)] + (if ok then StartupOptionWrites() else [])
      ensures !ok ==> showGUIErrorDialog && showGUIErrorDialogContent ==
                        (if nativeError == ErrorDeviceUnavailable then CameraInUseMessage else NoCameraMessage)
      ensures ok ==> showGUIErrorDialog == old(showGUIErrorDialog)
    {
      nativeCalls := nativeCalls + [StartRunning(videoIsStereo)];
      running := nativeStarted;
      if !running {
        if nativeError == ErrorDeviceUnavailable {
          showGUIErrorDialogContent := CameraInUseMessage;
        } else {
          showGUIErrorDialogContent := NoCameraMessage;
        }
        showGUIErrorDialog := true;
        return false;
      }
      nativeCalls := nativeCalls + StartupOptionWrites();
      return true;
    }

    /** StopAR: nothing when not running; otherwise stop and shut down the tracker. */
    method StopAR() returns (ok: bool)
      modifies this`running, this`nativeCalls
      ensures ok == old(running)
      ensures !running
      ensures nativeCalls == old(nativeCalls) + (if ok then [StopRunning, ShutdownAR] else [])
    {
      if !running {
        return false;
      }
      nativeCalls := nativeCalls + [StopRunning, ShutdownAR];
      running := false;
      return true;
    }

    /**
     * OnApplicationPause: pausing while running stops and remembers to
     * restart; resuming with that flag set attempts a start and clears it.
     */
    method OnApplicationPause(paused: bool, streamingAssetsPath: string, dest: string -> string,
                              nativeStarted: bool, nativeError: int)
      requires Valid()
      modifies this`running, this`runOnUnpause, this`nativeCalls, this`showGUIErrorDialog, this`showGUIErrorDialogContent
      modifies this`sceneConfiguredForVideo, this`sceneConfiguredForVideoWaitingMessageLogged
      ensures paused && old(running) ==>
        !running && runOnUnpause && nativeCalls == old(nativeCalls) + [StopRunning, ShutdownAR]
        && showGUIErrorDialog == old(showGUIErrorDialog) && showGUIErrorDialogContent == old(showGUIErrorDialogContent)
        && sceneConfiguredForVideo == old(sceneConfiguredForVideo)
        && sceneConfiguredForVideoWaitingMessageLogged == old(sceneConfiguredForVideoWaitingMessageLogged)
      ensures !paused && old(runOnUnpause) ==> !runOnUnpause
      ensures !paused && old(runOnUnpause) && old(running) ==>
        running && nativeCalls == old(nativeCalls)
        && showGUIErrorDialog == old(showGUIErrorDialog) && showGUIErrorDialogContent == old(showGUIErrorDialogContent)
        && sceneConfiguredForVideo == old(sceneConfiguredForVideo)
        && sceneConfiguredForVideoWaitingMessageLogged == old(sceneConfiguredForVideoWaitingMessageLogged)
      ensures !paused && old(runOnUnpause) && !old(running) ==>
        !sceneConfiguredForVideo && !sceneConfiguredForVideoWaitingMessageLogged
      ensures !paused && old(runOnUnpause) && !old(running)
              && !ParamFilesFound(streamingAssetsPath, dest, videoCParamName0, videoIsStereo, videoCParamName1, transL2RName)
              ==> !running && nativeCalls == old(nativeCalls) && showGUIErrorDialog == old(showGUIErrorDialog)
      ensures !paused && old(runOnUnpause) && !old(running)
              && ParamFilesFound(streamingAssetsPath, dest, videoCParamName0, videoIsStereo, videoCParamName1, transL2RName)
              ==> running == nativeStarted
                  && nativeCalls == old(nativeCalls) + [StartRunning(videoIsStereo)]
                                    + (if nativeStarted then StartupOptionWrites() else [])
                  && (!nativeStarted ==>
                        showGUIErrorDialog && showGUIErrorDialogContent ==
                        (if nativeError == ErrorDeviceUnavailable then CameraInUseMessage else NoCameraMessage))
      ensures (paused && !old(running)) || (!paused && !old(runOnUnpause)) ==> unchanged(this)
    {
      if paused {
        if running {
          var _ := StopAR();
          runOnUnpause := true;
        }
      } else {
        if runOnUnpause {
          var _ := StartAR(streamingAssetsPath, dest, nativeStarted, nativeError);
          runOnUnpause := false;
        }
      }
    }

    /** The getter of an integer option: a running tracker is asked and its answer made safe. */
    method GetIntOption(o: IntOption, nativeValue: int) returns (v: int)
      requires Valid()
      modifies this`intOptions
      ensures Valid()
      ensures running ==> intOptions == old(intOptions)[o := IntOptionFromNative(o, nativeValue)]
      ensures !running ==> intOptions == old(intOptions)
      ensures v == intOptions[o]
    {
      if running {
        intOptions := intOptions[o := IntOptionFromNative(o, nativeValue)];
      }
      v := intOptions[o];
    }

    /** The setter of an integer option: always stored, sent to the tracker only while running. */
    method SetIntOption(o: IntOption, value: int)
      requires Valid()
      modifies this`intOptions, this`nativeCalls
      ensures Valid()
      ensures intOptions == old(intOptions)[o := value]
      ensures nativeCalls == old(nativeCalls) + (if running then [SetOptionInt(o, value)] else [])
    {
      intOptions := intOptions[o := value];
      if running {
        nativeCalls := nativeCalls + [SetOptionInt(o, value)];
      }
    }

    /** The BorderSize getter. */
    method GetBorderSize(nativeValue: real) returns (v: real)
      modifies this`currentBorderSize
      ensures currentBorderSize == if running then BorderSizeFromNative(nativeValue) else old(currentBorderSize)
      ensures v == currentBorderSize
    {
      if running {
        currentBorderSize := BorderSizeFromNative(nativeValue);
      }
      v := currentBorderSize;
    }

    /** The BorderSize setter. */
    method SetBorderSize(value: real)
      modifies this`currentBorderSize, this`nativeCalls
      ensures currentBorderSize == value
      ensures nativeCalls == old(nativeCalls) + (if running then [SetBorderSizeOption(value)] else [])
    {
      currentBorderSize := value;
      if running {
        nativeCalls := nativeCalls + [SetBorderSizeOption(value)];
      }
    }

    /**
     * The TemplateSize setter: a new value is stored locally only and a
     * warning asks for the scene to be reloaded; the same value does nothing.
     */
    method SetTemplateSize(value: int, log: MessageLog)
      modifies this`currentTemplateSize, log
      ensures currentTemplateSize == value
      ensures value != old(currentTemplateSize) ==>
        log.messages == Newest(old(log.messages) + [TemplateSizeWarning], MaximumLogMessages)
      ensures value == old(currentTemplateSize) ==> log.messages == old(log.messages)
    {
      if value == currentTemplateSize {
        return;
      }
      currentTemplateSize := value;
      log.Log(TemplateSizeWarning);
    }

    /** The TemplateCountMax setter: as TemplateSize, with its own warning. */
    method SetTemplateCountMax(value: int, log: MessageLog)
      modifies this`currentTemplateCountMax, log
      ensures currentTemplateCountMax == value
      ensures value != old(currentTemplateCountMax) ==>
        log.messages == Newest(old(log.messages) + [TemplateCountMaxWarning], MaximumLogMessages)
      ensures value == old(currentTemplateCountMax) ==> log.messages == old(log.messages)
    {
      if value == currentTemplateCountMax {
        return;
      }
      currentTemplateCountMax := value;
      log.Log(TemplateCountMaxWarning);
    }

    /** The ContentMode setter (re-configuring viewports while running is Unity work, not modelled). */
    method SetContentMode(value: ContentMode)
      modifies this`currentContentMode
      ensures currentContentMode == value
    {
      if value == currentContentMode {
        return;
      }
      currentContentMode := value;
    }

    /** CycleContentMode. */
    method CycleContentMode()
      modifies this`currentContentMode
      ensures currentContentMode == NextContentMode(old(currentContentMode))
    {
      match currentContentMode
      case Fit => SetContentMode(Stretch);
      case _ => SetContentMode(Fit);
    }

    /**
     * getViewport for this controller's content settings: each eye gets its
     * half of the screen in stereo; otherwise the size follows the current
     * content mode (the whole screen, the content's own size rotated with
     * the content, or the fitted size) and the origin follows the content
     * alignment.
     */
    function GetViewport(screenWidth: int, screenHeight: int, contentWidth: int, contentHeight: int,
                         stereo: bool, eye: ViewEye, fitted: (int, int)): (r: Rect)
      reads this`currentContentMode, this`contentAlign, this`contentRotate90
      ensures stereo ==> r.left == (if eye == LeftEye then 0 else DivTrunc(screenWidth, 2)) && r.bottom == 0
                         && r.width == DivTrunc(screenWidth, 2) && r.height == screenHeight
      ensures !stereo && currentContentMode == Stretch ==> r.width == screenWidth && r.height == screenHeight
      ensures !stereo && currentContentMode == OneToOne ==>
        (r.width, r.height) == (if contentRotate90 then (contentHeight, contentWidth) else (contentWidth, contentHeight))
      ensures !stereo && (currentContentMode == Fit || currentContentMode == Fill) ==> (r.width, r.height) == fitted
      ensures !stereo && AlignedLeft(contentAlign) ==> r.left == 0
      ensures !stereo && AlignedRight(contentAlign) && !AlignedLeft(contentAlign) ==> r.left + r.width == screenWidth
      ensures !stereo && AlignedBottom(contentAlign) ==> r.bottom == 0
      ensures !stereo && AlignedTop(contentAlign) && !AlignedBottom(contentAlign) ==> r.bottom + r.height == screenHeight
      ensures !stereo && !AlignedLeft(contentAlign) && !AlignedRight(contentAlign) ==>
        r.left == DivTrunc(screenWidth - r.width, 2)
      ensures !stereo && !AlignedBottom(contentAlign) && !AlignedTop(contentAlign) ==>
        r.bottom == DivTrunc(screenHeight - r.height, 2)
    {
      Viewport(screenWidth, screenHeight, currentContentMode, contentAlign, contentRotate90,
               contentWidth, contentHeight, stereo, eye, fitted)
    }

    /** SetContentForScreenOrientation: the four known orientations set all three flags. */
    method SetContentForScreenOrientation(orientation: ScreenOrientation, cameraIsFrontFacing: bool)
      modifies this`contentRotate90, this`contentFlipV, this`contentFlipH
      ensures match OrientationFlags(orientation, cameraIsFrontFacing)
              case Some(f) => (contentRotate90, contentFlipV, contentFlipH) == f
              case None => contentRotate90 == old(contentRotate90) && contentFlipV == old(contentFlipV)
                           && contentFlipH == old(contentFlipH)
    {
      if orientation == Portrait {
        contentRotate90, contentFlipV, contentFlipH := true, false, cameraIsFrontFacing;
      } else if orientation == LandscapeLeft {
        contentRotate90, contentFlipV, contentFlipH := false, false, cameraIsFrontFacing;
      } else if orientation == PortraitUpsideDown {
        contentRotate90, contentFlipV, contentFlipH := true, true, !cameraIsFrontFacing;
      } else if orientation == LandscapeRight {
        contentRotate90, contentFlipV, contentFlipH := false, true, !cameraIsFrontFacing;
      }
    }
  }

  /** The (rotate90, flipV, flipH) table of SetContentForScreenOrientation. */
  function OrientationFlags(o: ScreenOrientation, front: bool): Option<(bool, bool, bool)>
  {
    match o
    case Portrait => Some((true, false, front))
    case LandscapeLeft => Some((false, false, front))
    case PortraitUpsideDown => Some((true, true, !front))
    case LandscapeRight => Some((false, true, !front))
    case _ => None
  }

  /**
   * The table's structure: exactly the four fixed orientations have an entry;
   * rotation is on exactly for the portrait ones; the vertical flip is on
   * exactly for the upside-down ones; and the horizontal flip is the camera
   * facing combined by exclusive-or with the vertical flip.
   */
  lemma OrientationFlagsStructure(o: ScreenOrientation, front: bool)
    ensures OrientationFlags(o, front).Some? <==> o in {Portrait, PortraitUpsideDown, LandscapeLeft, LandscapeRight}
    ensures OrientationFlags(o, front).Some? ==>
      var (rot, flipV, flipH) := OrientationFlags(o, front).value;
      (rot <==> o in {Portrait, PortraitUpsideDown})
      && (flipV <==> o in {PortraitUpsideDown, LandscapeRight})
      && flipH == (front != flipV)
  {
  }
}
