/**
 * ARTrackable: a Unity component standing for one native ARToolKit marker.
 * It owns the marker's configuration (type, image name, pattern contents,
 * barcode ID, ...), loads it into the native tracker under a unique ID
 * (NO_ID while not loaded), reloads when a configuration property changes,
 * and turns the tracker's per-frame visibility into Found / Lost / Tracked
 * notifications and the activation of its child objects.
 *
 * What the native plugin and Unity's streaming assets answer is given by a
 * `Host` value; the calls that change native state are recorded in
 * `nativeCalls`. C#'s formatting of a float is the uninterpreted `format`.
 */
module Trackable {
  import opened Basics
  import opened ARUtility

  const NO_ID: int := -1

  /** ARTOOLKIT_TO_UNITY: metres to ARToolKit's millimetres. */
  const ArtoolkitToUnity: real := 1000.0
  /** UNITY_TO_ARTOOLKIT. */
  const UnityToArtoolkit: real := 1.0 / 1000.0

  datatype TrackableType = TwoD | Square | SquareBarcode | Multimarker

  datatype TrackableOption = Filtered | FilterSampleRate | FilterCutoffFreq | SquareUseContPoseEstimation | ImageHeight

  /** The state-changing native calls a trackable makes. */
  datatype NativeCall =
    | AddMarker(config: string)
    | RemoveMarker(uid: int)
    | SetOptionBool(uid: int, option: TrackableOption, flag: bool)
    | SetOptionFloat(uid: int, option: TrackableOption, value: real)

  /** One native pattern of a loaded marker (ARPattern(UID, index)). */
  datatype Pattern = Pattern(uid: int, index: nat)

  /**
   * The world outside the component: PluginFunctions.inited, the destination
   * GetFileFromStreamingAssets gives for a relative path ("" when it fails),
   * the native arwAddMarker, arwGetTrackableAppearanceCount and the width
   * arwGetTrackableAppearanceConfig reports, and float formatting.
   */
  datatype Host = Host(inited: bool, assetDest: string -> string, addMarker: string -> int,
                       appearanceCount: int -> int, appearanceWidth: int -> real, format: real -> string)

  /** The tag a configuration string starts with, per trackable type. */
  function TypeTag(t: TrackableType): string
  {
    match t
    case TwoD => "2d"
    case Square => "square_buffer"
    case SquareBarcode => "square_barcode"
    case Multimarker => "multisquare"
  }

  /** Where a 2D image or a multimarker file is looked up among the streaming assets. */
  function AssetPath(t: TrackableType, twoDImageName: string, multiConfigFile: string): string
  {
    if t == TwoD then PathCombine("ARToolKit/Images", twoDImageName)
    else PathCombine("ARToolKit", multiConfigFile + ".dat")
  }

  /**
   * The configuration Load passes to arwAddMarker, or "" when Load gives up
   * before adding a marker (no image name, no multimarker file, or an asset
   * that cannot be provided). Formats: "2d;{dir};{height*1000}",
   * "square_buffer;{width*1000};buffer={contents}",
   * "square_barcode;{id};{width*1000}", "multisquare;{dir}".
   */
  function Configuration(t: TrackableType, twoDImageName: string, twoDImageHeight: real, patternWidth: real,
                         patternContents: string, barcodeID: int, multiConfigFile: string,
                         assetDest: string -> string, format: real -> string): (c: string)
    ensures t == TwoD && |twoDImageName| == 0 ==> c == ""
    ensures t == Multimarker && |multiConfigFile| == 0 ==> c == ""
    ensures (t == TwoD || t == Multimarker) && |assetDest(AssetPath(t, twoDImageName, multiConfigFile))| == 0 ==> c == ""
    ensures t == Square || t == SquareBarcode ==> c != ""
    ensures c != "" ==> |c| > |TypeTag(t)| && c[..|TypeTag(t)| + 1] == TypeTag(t) + ";"
  {
    match t
    case TwoD =>
      if |twoDImageName| == 0 then ""
      else
        var dir := assetDest(AssetPath(t, twoDImageName, multiConfigFile));
        if |dir| == 0 then "" else "2d;" + dir + ";" + format(twoDImageHeight * ArtoolkitToUnity)
    case Square =>
      "square_buffer;" + format(patternWidth * ArtoolkitToUnity) + ";buffer=" + patternContents
    case SquareBarcode =>
      "square_barcode;" + IntToString(barcodeID) + ";" + format(patternWidth * ArtoolkitToUnity)
    case Multimarker =>
      if |multiConfigFile| == 0 then ""
      else
        var dir := assetDest(AssetPath(t, twoDImageName, multiConfigFile));
        if |dir| == 0 then "" else "multisquare;" + dir
  }

  /** The first ';'-separated field of a non-empty configuration names the trackable type. */
  lemma ConfigurationTag(t: TrackableType, twoDImageName: string, twoDImageHeight: real, patternWidth: real,
                         patternContents: string, barcodeID: int, multiConfigFile: string,
                         assetDest: string -> string, format: real -> string)
    requires Configuration(t, twoDImageName, twoDImageHeight, patternWidth, patternContents, barcodeID,
                           multiConfigFile, assetDest, format) != ""
    ensures FieldBefore(Configuration(t, twoDImageName, twoDImageHeight, patternWidth, patternContents, barcodeID,
                                      multiConfigFile, assetDest, format), ';') == TypeTag(t)
  {
    var c := Configuration(t, twoDImageName, twoDImageHeight, patternWidth, patternContents, barcodeID,
                           multiConfigFile, assetDest, format);
    var tag := TypeTag(t);
    assert c == tag + [';'] + c[|tag| + 1..];
    SplitAtFirst(tag, ';', c[|tag| + 1..]);
  }

  /** Different types never produce the same configuration. */
  lemma TypeTagInjective(t: TrackableType, u: TrackableType)
    requires TypeTag(t) == TypeTag(u)
    ensures t == u
  {
  }

  /** The second field of a barcode configuration reads back as the barcode ID. */
  lemma BarcodeConfigurationID(twoDImageName: string, twoDImageHeight: real, patternWidth: real,
                               patternContents: string, barcodeID: int, multiConfigFile: string,
                               assetDest: string -> string, format: real -> string)
    requires -0x8000_0000 <= barcodeID < 0x8000_0000
    ensures var c := Configuration(SquareBarcode, twoDImageName, twoDImageHeight, patternWidth, patternContents,
                                   barcodeID, multiConfigFile, assetDest, format);
            ParseInt32(FieldBefore(FieldAfter(c, ';'), ';')) == Some(barcodeID)
  {
    var id := IntToString(barcodeID);
    var w := format(patternWidth * ArtoolkitToUnity);
    var c := Configuration(SquareBarcode, twoDImageName, twoDImageHeight, patternWidth, patternContents,
                           barcodeID, multiConfigFile, assetDest, format);
    assert c == "square_barcode" + [';'] + (id + [';'] + w);
    SplitAtFirst("square_barcode", ';', id + [';'] + w);
    assert ';' !in id by {
      if barcodeID < 0 { assert id == "-" + NatToString(-barcodeID); }
    }
    SplitAtFirst(id, ';', w);
    ParseInt32OfIntToString(barcodeID);
  }

  /** The third field of a barcode configuration is the marker width in millimetres. */
  lemma BarcodeConfigurationWidth(twoDImageName: string, twoDImageHeight: real, patternWidth: real,
                                  patternContents: string, barcodeID: int, multiConfigFile: string,
                                  assetDest: string -> string, format: real -> string)
    ensures var c := Configuration(SquareBarcode, twoDImageName, twoDImageHeight, patternWidth, patternContents,
                                   barcodeID, multiConfigFile, assetDest, format);
            FieldAfter(FieldAfter(c, ';'), ';') == format(patternWidth * ArtoolkitToUnity)
  {
    var id := IntToString(barcodeID);
    var w := format(patternWidth * ArtoolkitToUnity);
    var c := Configuration(SquareBarcode, twoDImageName, twoDImageHeight, patternWidth, patternContents,
                           barcodeID, multiConfigFile, assetDest, format);
    assert c == "square_barcode" + [';'] + (id + [';'] + w);
    SplitAtFirst("square_barcode", ';', id + [';'] + w);
    assert ';' !in id by {
      if barcodeID < 0 { assert id == "-" + NatToString(-barcodeID); }
    }
    SplitAtFirst(id, ';', w);
  }

  /**
   * The second field of a non-empty 2D or multimarker configuration is the
   * directory the asset was found in, when that path has no ';' of its own.
   */
  lemma AssetConfigurationPath(t: TrackableType, twoDImageName: string, twoDImageHeight: real, patternWidth: real,
                               patternContents: string, barcodeID: int, multiConfigFile: string,
                               assetDest: string -> string, format: real -> string)
    requires t == TwoD || t == Multimarker
    requires Configuration(t, twoDImageName, twoDImageHeight, patternWidth, patternContents, barcodeID,
                           multiConfigFile, assetDest, format) != ""
    requires ';' !in assetDest(AssetPath(t, twoDImageName, multiConfigFile))
    ensures var c := Configuration(t, twoDImageName, twoDImageHeight, patternWidth, patternContents,
                                   barcodeID, multiConfigFile, assetDest, format);
            FieldBefore(FieldAfter(c, ';'), ';') == assetDest(AssetPath(t, twoDImageName, multiConfigFile))
  {
    var dir := assetDest(AssetPath(t, twoDImageName, multiConfigFile));
    var h := format(twoDImageHeight * ArtoolkitToUnity);
    var c := Configuration(t, twoDImageName, twoDImageHeight, patternWidth, patternContents,
                           barcodeID, multiConfigFile, assetDest, format);
    if t == TwoD {
      assert c == "2d" + [';'] + (dir + [';'] + h);
      SplitAtFirst("2d", ';', dir + [';'] + h);
      SplitAtFirst(dir, ';', h);
    } else {
      assert c == "multisquare" + [';'] + dir;
      SplitAtFirst("multisquare", ';', dir);
    }
  }

  /** The third field of a non-empty 2D configuration is the image height in millimetres. */
  lemma TwoDConfigurationHeight(twoDImageName: string, twoDImageHeight: real, patternWidth: real,
                                patternContents: string, barcodeID: int, multiConfigFile: string,
                                assetDest: string -> string, format: real -> string)
    requires Configuration(TwoD, twoDImageName, twoDImageHeight, patternWidth, patternContents, barcodeID,
                           multiConfigFile, assetDest, format) != ""
    requires ';' !in assetDest(AssetPath(TwoD, twoDImageName, multiConfigFile))
    ensures var c := Configuration(TwoD, twoDImageName, twoDImageHeight, patternWidth, patternContents,
                                   barcodeID, multiConfigFile, assetDest, format);
            FieldAfter(FieldAfter(c, ';'), ';') == format(twoDImageHeight * ArtoolkitToUnity)
  {
    var dir := assetDest(AssetPath(TwoD, twoDImageName, multiConfigFile));
    var h := format(twoDImageHeight * ArtoolkitToUnity);
    var c := Configuration(TwoD, twoDImageName, twoDImageHeight, patternWidth, patternContents,
                           barcodeID, multiConfigFile, assetDest, format);
    assert c == "2d" + [';'] + (dir + [';'] + h);
    SplitAtFirst("2d", ';', dir + [';'] + h);
    SplitAtFirst(dir, ';', h);
  }

  /**
   * A square configuration reads back as the width in millimetres and then
   * "buffer=" followed by the pattern contents, when the formatted width has
   * no ';'.
   */
  lemma SquareConfigurationFields(twoDImageName: string, twoDImageHeight: real, patternWidth: real,
                                  patternContents: string, barcodeID: int, multiConfigFile: string,
                                  assetDest: string -> string, format: real -> string)
    requires ';' !in format(patternWidth * ArtoolkitToUnity)
    ensures var c := Configuration(Square, twoDImageName, twoDImageHeight, patternWidth, patternContents,
                                   barcodeID, multiConfigFile, assetDest, format);
            FieldBefore(FieldAfter(c, ';'), ';') == format(patternWidth * ArtoolkitToUnity)
            && FieldAfter(FieldAfter(c, ';'), ';') == "buffer=" + patternContents
  {
    var w := format(patternWidth * ArtoolkitToUnity);
    var c := Configuration(Square, twoDImageName, twoDImageHeight, patternWidth, patternContents,
                           barcodeID, multiConfigFile, assetDest, format);
    assert c == "square_buffer" + [';'] + (w + [';'] + ("buffer=" + patternContents));
    SplitAtFirst("square_buffer", ';', w + [';'] + ("buffer=" + patternContents));
    SplitAtFirst(w, ';', "buffer=" + patternContents);
  }

  // --------------------------------------------------- per-frame visibility

  datatype Event = Found | Lost | Tracked

  /** What LateUpdate carries from frame to frame. */
  datatype FrameState = FrameState(visible: bool, childrenActive: bool)

  /**
   * One LateUpdate step as the source writes it. `loaded` is
   * "UID != NO_ID and the plugin is inited"; `nowVisible` is the tracker's
   * answer. The events are those broadcast to the receivers (none when
   * there are no receivers).
   */
  function FrameStep(s: FrameState, loaded: bool, nowVisible: bool, hasReceivers: bool): (r: (FrameState, seq<Event>))
    ensures !loaded ==> r == (FrameState(false, s.childrenActive), [])
    ensures loaded ==> r.0.visible == nowVisible
    ensures loaded && nowVisible != s.visible ==> r.0.childrenActive == nowVisible
    ensures loaded && nowVisible == s.visible ==> r.0.childrenActive == s.childrenActive
    ensures loaded ==> r.1 == (if hasReceivers && nowVisible != s.visible then [if nowVisible then Found else Lost] else [])
                              + (if hasReceivers && nowVisible then [Tracked] else [])
  {
    if !loaded then (FrameState(false, s.childrenActive), [])
    else
      var notify := nowVisible != s.visible;
      var children := if notify then nowVisible else s.childrenActive;
      var changeEvents := if notify && hasReceivers then [if nowVisible then Found else Lost] else [];
      var trackEvents := if nowVisible && hasReceivers then [Tracked] else [];
      (FrameState(nowVisible, children), changeEvents + trackEvents)
  }

  /** Children shown exactly when the marker is visible. */
  predicate Consistent(s: FrameState) { s.childrenActive == s.visible }

  /**
   * While loaded, a step keeps children in line with visibility; Found and
   * Lost come only on a change of visibility and Tracked on every visible
   * frame.
   */
  lemma FrameStepLoaded(s: FrameState, nowVisible: bool, hasReceivers: bool)
    requires Consistent(s)
    ensures Consistent(FrameStep(s, true, nowVisible, hasReceivers).0)
    ensures var ev := FrameStep(s, true, nowVisible, hasReceivers).1;
            (Found in ev ==> !s.visible && nowVisible) && (Lost in ev ==> s.visible && !nowVisible)
            && (Tracked in ev <==> hasReceivers && nowVisible)
  {
  }

  /**
   * As written, an unloaded frame hides the marker without a Lost event and
   * leaves the children active; after a reload the tracker's "not visible"
   * is no change, so the children stay shown while nothing is tracked.
   */
  lemma FrameStepLeavesChildrenShown()
    ensures var s0 := FrameState(true, true);
            var (s1, e1) := FrameStep(s0, false, false, true);
            var (s2, e2) := FrameStep(s1, true, false, true);
            e1 == [] && e2 == [] && !s2.visible && s2.childrenActive && !Consistent(s2)
  {
  }

  /** The step with the unloaded case reporting the loss like any other. */
  function FrameStepCorrected(s: FrameState, loaded: bool, nowVisible: bool, hasReceivers: bool): (r: (FrameState, seq<Event>))
    ensures loaded ==> r == FrameStep(s, loaded, nowVisible, hasReceivers)
  {
    FrameStep(s, true, loaded && nowVisible, hasReceivers)
  }

  /** The corrected step keeps children in line with visibility in every frame, loaded or not. */
  lemma FrameStepCorrectedConsistent(s: FrameState, loaded: bool, nowVisible: bool, hasReceivers: bool)
    requires Consistent(s)
    ensures Consistent(FrameStepCorrected(s, loaded, nowVisible, hasReceivers).0)
    ensures !loaded ==> !FrameStepCorrected(s, loaded, nowVisible, hasReceivers).0.visible
    ensures !loaded && s.visible && hasReceivers ==> FrameStepCorrected(s, loaded, nowVisible, hasReceivers).1 == [Lost]
  {
  }

  /** Pose entries 12..14 (the translation) converted from millimetres to metres. */
  function ScaleTranslation(raw: Matrix): (m: Matrix)
    ensures forall i :: 0 <= i < 16 && i != 12 && i != 13 && i != 14 ==> m[i] == raw[i]
    ensures m[12] == raw[12] * UnityToArtoolkit && m[13] == raw[13] * UnityToArtoolkit && m[14] == raw[14] * UnityToArtoolkit
  {
    raw[12 := raw[12] * UnityToArtoolkit][13 := raw[13] * UnityToArtoolkit][14 := raw[14] * UnityToArtoolkit]
  }

  /** The Unity pose of a tracked marker: the position is the scaled position with z mirrored. */
  lemma TrackedPosition(raw: Matrix)
    ensures PositionFromMatrix(LHMatrixFromRHMatrix(ScaleTranslation(raw)))
      == Vector3(raw[12] * UnityToArtoolkit, raw[13] * UnityToArtoolkit, -(raw[14] * UnityToArtoolkit))
  {
    PositionOfLHMatrix(ScaleTranslation(raw));
  }

  // ------------------------------------------------------------- component

  /** The patterns of a marker with n appearances: one per index, in order. */
  function PatternList(uid: int, n: nat): (ps: seq<Pattern>)
    ensures |ps| == n && forall i :: 0 <= i < n ==> ps[i] == Pattern(uid, i)
  {
    seq(n, i requires 0 <= i => Pattern(uid, i))
  }

  class ARTrackable {
    var uid: int
    var twoDImageWidth: real
    var patterns: Option<seq<Pattern>>
    var visible: bool
    var transformationMatrix: Matrix

    var trackableType: TrackableType
    var currentFiltered: bool
    var currentFilterSampleRate: real
    var currentFilterCutoffFreq: real
    var twoDImageName: string
    var currentTwoDImageHeight: real
    var patternWidth: real
    var currentUseContPoseEstimation: bool
    var patternContents: string
    var barcodeID: int
    var multiConfigFile: string

    /** Whether eventReceivers is non-empty. */
    var hasEventReceivers: bool
    /** The active state of the child objects (all are set together). */
    var childrenActive: bool
    /** Notifications broadcast so far. */
    var events: seq<Event>
    var nativeCalls: seq<NativeCall>

    constructor ()
      ensures uid == NO_ID && patterns == None && !visible && twoDImageWidth == 1.0
      ensures trackableType == TwoD && !currentFiltered && currentFilterSampleRate == 30.0
      ensures currentFilterCutoffFreq == 15.0 && twoDImageName == "" && currentTwoDImageHeight == 1.0
      ensures patternWidth == 0.08 && !currentUseContPoseEstimation && patternContents == ""
      ensures barcodeID == 0 && multiConfigFile == ""
      ensures events == [] && nativeCalls == [] && !childrenActive && !hasEventReceivers
    {
      uid := NO_ID;
      twoDImageWidth := 1.0;
      patterns := None;
      visible := false;
      transformationMatrix := seq(16, i requires 0 <= i < 16 => if i % 5 == 0 then 1.0 else 0.0);
      trackableType := TwoD;
      currentFiltered := false;
      currentFilterSampleRate := 30.0;
      currentFilterCutoffFreq := 15.0;
      twoDImageName := "";
      currentTwoDImageHeight := 1.0;
      patternWidth := 0.08;
      currentUseContPoseEstimation := false;
      patternContents := "";
      barcodeID := 0;
      multiConfigFile := "";
      hasEventReceivers := false;
      childrenActive := false;
      events := [];
      nativeCalls := [];
    }

    /** The configuration Load would assemble from the current fields. */
    function CurrentConfiguration(host: Host): string
      reads this`trackableType, this`twoDImageName, this`currentTwoDImageHeight, this`patternWidth
      reads this`patternContents, this`barcodeID, this`multiConfigFile
    {
      Configuration(trackableType, twoDImageName, currentTwoDImageHeight, patternWidth, patternContents,
                    barcodeID, multiConfigFile, host.assetDest, host.format)
    }

    /** The UID Load ends with, starting from NO_ID. */
    function LoadedUid(host: Host): int
      reads this`trackableType, this`twoDImageName, this`currentTwoDImageHeight, this`patternWidth
      reads this`patternContents, this`barcodeID, this`multiConfigFile
    {
      if !host.inited || CurrentConfiguration(host) == "" then NO_ID else host.addMarker(CurrentConfiguration(host))
    }

    /** The native calls Load makes, starting from NO_ID. */
    function LoadCalls(host: Host): seq<NativeCall>
      reads this`trackableType, this`twoDImageName, this`currentTwoDImageHeight, this`patternWidth
      reads this`patternContents, this`barcodeID, this`multiConfigFile, this`currentUseContPoseEstimation
    {
      if !host.inited || CurrentConfiguration(host) == "" then []
      else
        var id := host.addMarker(CurrentConfiguration(host));
        [AddMarker(CurrentConfiguration(host))]
        + (if id != NO_ID && (trackableType == Square || trackableType == SquareBarcode)
           then [SetOptionBool(id, SquareUseContPoseEstimation, currentUseContPoseEstimation)] else [])
    }

    /**
     * The state Load leaves when it starts from NO_ID with the calls `calls0`,
     * the 2D width `width0` and the patterns `patterns0`: the UID Load gets,
     * its native calls appended, and either the 2D width or the pattern list
     * fetched for a valid UID (nothing fetched otherwise).
     */
    ghost predicate LoadedFrom(host: Host, calls0: seq<NativeCall>, width0: real, patterns0: Option<seq<Pattern>>)
      reads this`uid, this`nativeCalls, this`twoDImageWidth, this`patterns
      reads this`trackableType, this`twoDImageName, this`currentTwoDImageHeight, this`patternWidth
      reads this`patternContents, this`barcodeID, this`multiConfigFile, this`currentUseContPoseEstimation
    {
      uid == LoadedUid(host)
      && nativeCalls == calls0 + LoadCalls(host)
      && (if uid != NO_ID && trackableType == TwoD then
            twoDImageWidth == host.appearanceWidth(uid) * UnityToArtoolkit && patterns == patterns0
          else if uid != NO_ID then
            twoDImageWidth == width0
            && patterns == (if host.appearanceCount(uid) > 0 then Some(PatternList(uid, host.appearanceCount(uid)))
                            else patterns0)
          else twoDImageWidth == width0 && patterns == patterns0)
    }

    /**
     * Load. Nothing happens when already loaded or before the plugin is
     * initialised. Otherwise the configuration is assembled; when it is
     * non-empty a native marker is added and its UID kept; a valid UID is
     * then configured (only the continuous-pose option: re-assigning the
     * filter settings to themselves sends nothing) and either the 2D image
     * width or the pattern list is fetched.
     */
    method Load(host: Host)
      modifies this`uid, this`nativeCalls, this`twoDImageWidth, this`patterns, this`currentUseContPoseEstimation
      modifies this`currentFiltered, this`currentFilterCutoffFreq
      ensures old(uid) != NO_ID ==> unchanged(this)
      ensures old(uid) == NO_ID ==> LoadedFrom(host, old(nativeCalls), old(twoDImageWidth), old(patterns))
      ensures currentUseContPoseEstimation == old(currentUseContPoseEstimation)
      ensures currentFiltered == old(currentFiltered) && currentFilterCutoffFreq == old(currentFilterCutoffFreq)
    {
      if uid != NO_ID {
        return;
      }
      if !host.inited || CurrentConfiguration(host) == "" {
        assert nativeCalls == old(nativeCalls) + [];
        return;
      }
      ghost var id, calls := LoadedUid(host), LoadCalls(host);
      AddConfiguredMarker(host);
      assert LoadedUid(host) == id && LoadCalls(host) == calls;
    }

    /** Load's work once the plugin is up and the configuration is non-empty. */
    method AddConfiguredMarker(host: Host)
      requires uid == NO_ID && host.inited && CurrentConfiguration(host) != ""
      modifies this`uid, this`nativeCalls, this`twoDImageWidth, this`patterns, this`currentUseContPoseEstimation
      modifies this`currentFiltered, this`currentFilterCutoffFreq
      ensures uid == old(LoadedUid(host)) && nativeCalls == old(nativeCalls) + old(LoadCalls(host))
      ensures currentUseContPoseEstimation == old(currentUseContPoseEstimation)
      ensures currentFiltered == old(currentFiltered) && currentFilterCutoffFreq == old(currentFilterCutoffFreq)
      ensures uid != NO_ID && trackableType == TwoD ==>
        twoDImageWidth == host.appearanceWidth(uid) * UnityToArtoolkit && patterns == old(patterns)
      ensures uid != NO_ID && trackableType != TwoD ==>
        twoDImageWidth == old(twoDImageWidth)
        && patterns == (if host.appearanceCount(uid) > 0
                        then Some(PatternList(uid, host.appearanceCount(uid)))
                        else old(patterns))
      ensures uid == NO_ID ==> twoDImageWidth == old(twoDImageWidth) && patterns == old(patterns)
    {
      var configuration := CurrentConfiguration(host);
      uid := host.addMarker(configuration);
      nativeCalls := nativeCalls + [AddMarker(configuration)];
      if uid == NO_ID {
        return;
      }
      ReapplyOptions();
      FetchAppearances(host);
    }

    /**
     * The option re-assignments Load makes on a new marker. Only the
     * continuous-pose setter sends anything: the filter setters return at
     * once because the value equals the stored one.
     */
    method ReapplyOptions()
      requires uid != NO_ID
      modifies this`nativeCalls, this`currentUseContPoseEstimation, this`currentFiltered, this`currentFilterCutoffFreq
      ensures currentUseContPoseEstimation == old(currentUseContPoseEstimation)
      ensures currentFiltered == old(currentFiltered) && currentFilterCutoffFreq == old(currentFilterCutoffFreq)
      ensures nativeCalls == old(nativeCalls) +
        (if trackableType == Square || trackableType == SquareBarcode
         then [SetOptionBool(uid, SquareUseContPoseEstimation, currentUseContPoseEstimation)] else [])
    {
      if trackableType == Square || trackableType == SquareBarcode {
        SetUseContPoseEstimation(currentUseContPoseEstimation);
      }
      SetFiltered(currentFiltered);
      SetFilterSampleRate(currentFilterSampleRate);
      SetFilterCutoffFreq(currentFilterCutoffFreq);
    }

    /** The end of Load: a 2D marker's width in metres, or the list of patterns of any other marker. */
    method FetchAppearances(host: Host)
      requires uid != NO_ID
      modifies this`twoDImageWidth, this`patterns
      ensures trackableType == TwoD ==>
        twoDImageWidth == host.appearanceWidth(uid) * UnityToArtoolkit && patterns == old(patterns)
      ensures trackableType != TwoD ==>
        twoDImageWidth == old(twoDImageWidth)
        && patterns == (if host.appearanceCount(uid) > 0 then Some(PatternList(uid, host.appearanceCount(uid)))
                        else old(patterns))
    {
      if trackableType == TwoD {
        twoDImageWidth := host.appearanceWidth(uid) * UnityToArtoolkit;
      } else {
        var numPatterns := host.appearanceCount(uid);
        if numPatterns > 0 {
          var ps := new Pattern[numPatterns](i => Pattern(NO_ID, 0));
          for i := 0 to numPatterns
            modifies ps
            invariant forall k :: 0 <= k < i ==> ps[k] == Pattern(uid, k)
          {
            ps[i] := Pattern(uid, i);
          }
          assert ps[..] == PatternList(uid, numPatterns);
          patterns := Some(ps[..]);
        }
      }
    }

    /** The native call Unload makes: a RemoveMarker for a loaded marker while the plugin is up. */
    static function UnloadCalls(uid: int, inited: bool): seq<NativeCall>
    {
      if uid != NO_ID && inited then [RemoveMarker(uid)] else []
    }

    /** Unload: remove the native marker (when the plugin is still up) and forget the UID and patterns. */
    method Unload(inited: bool)
      modifies this`uid, this`patterns, this`nativeCalls
      ensures old(uid) == NO_ID ==> unchanged(this)
      ensures old(uid) != NO_ID ==>
        uid == NO_ID && patterns == None
        && nativeCalls == old(nativeCalls) + UnloadCalls(old(uid), inited)
    {
      if uid == NO_ID {
        return;
      }
      if inited {
        nativeCalls := nativeCalls + [RemoveMarker(uid)];
      }
      uid := NO_ID;
      patterns := None;
    }

    /** The Type setter: a different type unloads, assigns and loads again. */
    method SetType(value: TrackableType, host: Host)
      modifies this`uid, this`nativeCalls, this`twoDImageWidth, this`patterns, this`currentUseContPoseEstimation
      modifies this`currentFiltered, this`currentFilterCutoffFreq, this`trackableType
      ensures value == old(trackableType) ==> unchanged(this)
      ensures value != old(trackableType) ==> (
        trackableType == value
        && LoadedFrom(host, old(nativeCalls) + UnloadCalls(old(uid), host.inited), old(twoDImageWidth),
             if old(uid) != NO_ID then None else old(patterns)))
      ensures currentUseContPoseEstimation == old(currentUseContPoseEstimation)
      ensures currentFiltered == old(currentFiltered) && currentFilterCutoffFreq == old(currentFilterCutoffFreq)
    {
      if value != trackableType {
        Unload(host.inited);
        trackableType := value;
        Load(host);
      }
    }

    /** The PatternContents setter. */
    method SetPatternContents(value: string, host: Host)
      modifies this`uid, this`nativeCalls, this`twoDImageWidth, this`patterns, this`currentUseContPoseEstimation
      modifies this`currentFiltered, this`currentFilterCutoffFreq, this`patternContents
      ensures value == old(patternContents) ==> unchanged(this)
      ensures value != old(patternContents) ==> (
        patternContents == value
        && LoadedFrom(host, old(nativeCalls) + UnloadCalls(old(uid), host.inited), old(twoDImageWidth),
             if old(uid) != NO_ID then None else old(patterns)))
      ensures currentUseContPoseEstimation == old(currentUseContPoseEstimation)
      ensures currentFiltered == old(currentFiltered) && currentFilterCutoffFreq == old(currentFilterCutoffFreq)
    {
      if value != patternContents {
        Unload(host.inited);
        patternContents := value;
        Load(host);
      }
    }

    /** The PatternWidth setter. */
    method SetPatternWidth(value: real, host: Host)
      modifies this`uid, this`nativeCalls, this`twoDImageWidth, this`patterns, this`currentUseContPoseEstimation
      modifies this`currentFiltered, this`currentFilterCutoffFreq, this`patternWidth
      ensures value == old(patternWidth) ==> unchanged(this)
      ensures value != old(patternWidth) ==> (
        patternWidth == value
        && LoadedFrom(host, old(nativeCalls) + UnloadCalls(old(uid), host.inited), old(twoDImageWidth),
             if old(uid) != NO_ID then None else old(patterns)))
      ensures currentUseContPoseEstimation == old(currentUseContPoseEstimation)
      ensures currentFiltered == old(currentFiltered) && currentFilterCutoffFreq == old(currentFilterCutoffFreq)
    {
      if value != patternWidth {
        Unload(host.inited);
        patternWidth := value;
        Load(host);
      }
    }

    /** The BarcodeID setter. */
    method SetBarcodeID(value: int, host: Host)
      modifies this`uid, this`nativeCalls, this`twoDImageWidth, this`patterns, this`currentUseContPoseEstimation
      modifies this`currentFiltered, this`currentFilterCutoffFreq, this`barcodeID
      ensures value == old(barcodeID) ==> unchanged(this)
      ensures value != old(barcodeID) ==> (
        barcodeID == value
        && LoadedFrom(host, old(nativeCalls) + UnloadCalls(old(uid), host.inited), old(twoDImageWidth),
             if old(uid) != NO_ID then None else old(patterns)))
      ensures currentUseContPoseEstimation == old(currentUseContPoseEstimation)
      ensures currentFiltered == old(currentFiltered) && currentFilterCutoffFreq == old(currentFilterCutoffFreq)
    {
      if value != barcodeID {
        Unload(host.inited);
        barcodeID := value;
        Load(host);
      }
    }

    /** The MultiConfigFile setter. */
    method SetMultiConfigFile(value: string, host: Host)
      modifies this`uid, this`nativeCalls, this`twoDImageWidth, this`patterns, this`currentUseContPoseEstimation
      modifies this`currentFiltered, this`currentFilterCutoffFreq, this`multiConfigFile
      ensures value == old(multiConfigFile) ==> unchanged(this)
      ensures value != old(multiConfigFile) ==> (
        multiConfigFile == value
        && LoadedFrom(host, old(nativeCalls) + UnloadCalls(old(uid), host.inited), old(twoDImageWidth),
             if old(uid) != NO_ID then None else old(patterns)))
      ensures currentUseContPoseEstimation == old(currentUseContPoseEstimation)
      ensures currentFiltered == old(currentFiltered) && currentFilterCutoffFreq == old(currentFilterCutoffFreq)
    {
      if value != multiConfigFile {
        Unload(host.inited);
        multiConfigFile := value;
        Load(host);
      }
    }

    /** The TwoDImageName setter. */
    method SetTwoDImageName(value: string, host: Host)
      modifies this`uid, this`nativeCalls, this`twoDImageWidth, this`patterns, this`currentUseContPoseEstimation
      modifies this`currentFiltered, this`currentFilterCutoffFreq, this`twoDImageName
      ensures value == old(twoDImageName) ==> unchanged(this)
      ensures value != old(twoDImageName) ==> (
        twoDImageName == value
        && LoadedFrom(host, old(nativeCalls) + UnloadCalls(old(uid), host.inited), old(twoDImageWidth),
             if old(uid) != NO_ID then None else old(patterns)))
      ensures currentUseContPoseEstimation == old(currentUseContPoseEstimation)
      ensures currentFiltered == old(currentFiltered) && currentFilterCutoffFreq == old(currentFilterCutoffFreq)
    {
      if value != twoDImageName {
        Unload(host.inited);
        twoDImageName := value;
        Load(host);
      }
    }

    /** The Filtered setter: stored on change, and sent to a loaded marker. */
    method SetFiltered(value: bool)
      modifies this`currentFiltered, this`nativeCalls
      ensures currentFiltered == value
      ensures nativeCalls == old(nativeCalls) +
        (if value != old(currentFiltered) && uid != NO_ID then [SetOptionBool(uid, Filtered, value)] else [])
    {
      if value == currentFiltered {
        return;
      }
      currentFiltered := value;
      if uid == NO_ID {
        return;
      }
      nativeCalls := nativeCalls + [SetOptionBool(uid, Filtered, value)];
    }

    /** The FilterSampleRate setter: sent to a loaded marker on change, but never stored. */
    method SetFilterSampleRate(value: real)
      modifies this`nativeCalls
      ensures currentFilterSampleRate == old(currentFilterSampleRate)
      ensures nativeCalls == old(nativeCalls) +
        (if value != currentFilterSampleRate && uid != NO_ID then [SetOptionFloat(uid, FilterSampleRate, value)] else [])
    {
      if value == currentFilterSampleRate {
        return;
      }
      if uid == NO_ID {
        return;
      }
      nativeCalls := nativeCalls + [SetOptionFloat(uid, FilterSampleRate, value)];
    }

    /** The FilterCutoffFreq setter. */
    method SetFilterCutoffFreq(value: real)
      modifies this`currentFilterCutoffFreq, this`nativeCalls
      ensures currentFilterCutoffFreq == value
      ensures nativeCalls == old(nativeCalls) +
        (if value != old(currentFilterCutoffFreq) && uid != NO_ID then [SetOptionFloat(uid, FilterCutoffFreq, value)] else [])
    {
      if value == currentFilterCutoffFreq {
        return;
      }
      currentFilterCutoffFreq := value;
      if uid == NO_ID {
        return;
      }
      nativeCalls := nativeCalls + [SetOptionFloat(uid, FilterCutoffFreq, value)];
    }

    /** The UseContPoseEstimation setter: always stored; sent only for a loaded square marker. */
    method SetUseContPoseEstimation(value: bool)
      modifies this`currentUseContPoseEstimation, this`nativeCalls
      ensures currentUseContPoseEstimation == value
      ensures nativeCalls == old(nativeCalls) +
        (if (trackableType == Square || trackableType == SquareBarcode) && uid != NO_ID
         then [SetOptionBool(uid, SquareUseContPoseEstimation, value)] else [])
    {
      currentUseContPoseEstimation := value;
      if trackableType != Square && trackableType != SquareBarcode {
        return;
      }
      if uid == NO_ID {
        return;
      }
      nativeCalls := nativeCalls + [SetOptionBool(uid, SquareUseContPoseEstimation, value)];
    }

    /** The TwoDImageHeight setter: stored on change; sent only for a loaded 2D marker. */
    method SetTwoDImageHeight(value: real)
      modifies this`currentTwoDImageHeight, this`nativeCalls
      ensures currentTwoDImageHeight == value
      ensures nativeCalls == old(nativeCalls) +
        (if value != old(currentTwoDImageHeight) && trackableType == TwoD && uid != NO_ID
         then [SetOptionFloat(uid, ImageHeight, value)] else [])
    {
      if value == currentTwoDImageHeight {
        return;
      }
      currentTwoDImageHeight := value;
      if trackableType != TwoD {
        return;
      }
      if uid == NO_ID {
        return;
      }
      nativeCalls := nativeCalls + [SetOptionFloat(uid, ImageHeight, value)];
    }

    /**
     * LateUpdate in play mode. `nowVisible` and `raw` are what
     * arwQueryMarkerTransformation reports for this frame.
     */
    method LateUpdate(inited: bool, nowVisible: bool, raw: Matrix)
      modifies this`visible, this`childrenActive, this`events, this`transformationMatrix
      ensures var (s, ev) := FrameStep(FrameState(old(visible), old(childrenActive)), uid != NO_ID && inited,
                                       nowVisible, hasEventReceivers);
              visible == s.visible && childrenActive == s.childrenActive && events == old(events) + ev
      ensures transformationMatrix == if visible then LHMatrixFromRHMatrix(ScaleTranslation(raw))
                                      else old(transformationMatrix)
    {
      ghost var step := FrameStep(FrameState(visible, childrenActive), uid != NO_ID && inited,
                                  nowVisible, hasEventReceivers);
      ghost var events0 := events;
      if uid == NO_ID || !inited {
        visible := false;
        assert events == events0 + step.1;
        return;
      }
      var notify := nowVisible != visible;
      visible := nowVisible;
      if visible {
        UpdatePose(raw);
      }
      if notify {
        if hasEventReceivers {
          events := events + [if visible then Found else Lost];
        }
        childrenActive := visible;
      }
      if visible {
        if hasEventReceivers {
          events := events + [Tracked];
        }
      }
    }

    /** The pose of a visible marker: the raw pose, scaled to metres, in Unity's left-handed frame. */
    method UpdatePose(raw: Matrix)
      modifies this`transformationMatrix
      ensures transformationMatrix == LHMatrixFromRHMatrix(ScaleTranslation(raw))
    {
      var matrixRaw := MatrixFromFloatArray(Some(ScaleTranslation(raw)));
      transformationMatrix := LHMatrixFromRHMatrix(matrixRaw.value);
    }

    /**
     * ClearUnusedValues: drop the patterns and reset every field that the
     * current type does not use; the current type's own fields are kept.
     */
    method ClearUnusedValues()
      modifies this`patterns, this`multiConfigFile, this`twoDImageName, this`twoDImageWidth
      modifies this`currentTwoDImageHeight, this`patternContents, this`barcodeID, this`patternWidth
      modifies this`currentUseContPoseEstimation, this`nativeCalls
      ensures patterns == None && nativeCalls == old(nativeCalls)
      ensures multiConfigFile == if trackableType == Multimarker then old(multiConfigFile) else ""
      ensures twoDImageName == (if trackableType == TwoD then old(twoDImageName) else "")
      ensures twoDImageWidth == (if trackableType == TwoD then old(twoDImageWidth) else 0.0)
      ensures currentTwoDImageHeight == (if trackableType == TwoD then old(currentTwoDImageHeight) else 1.0)
      ensures patternContents == if trackableType == Square then old(patternContents) else ""
      ensures barcodeID == if trackableType == SquareBarcode then old(barcodeID) else 0
      ensures patternWidth == (if trackableType == Square || trackableType == SquareBarcode then old(patternWidth) else 0.08)
      ensures currentUseContPoseEstimation ==
        (if trackableType == Square || trackableType == SquareBarcode then old(currentUseContPoseEstimation) else false)
    {
      patterns := None;
      if trackableType != Multimarker {
        multiConfigFile := "";
      }
      if trackableType != TwoD {
        twoDImageName := "";
        twoDImageWidth := 0.0;
        currentTwoDImageHeight := 1.0;
      }
      if trackableType != Square {
        patternContents := "";
      }
      if trackableType != SquareBarcode {
        barcodeID := 0;
      }
      if trackableType != Square && trackableType != SquareBarcode {
        patternWidth := 0.08;
        SetUseContPoseEstimation(false);
      }
    }
  }
}
