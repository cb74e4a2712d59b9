/**
 * The decision logic of the ARTrackable inspector: which pattern-detection
 * mode the scene's trackables call for, which trackable type a position in
 * the marker list stands for, how a barcode ID is read from a marker name,
 * whether a dropped file is copied into the streaming assets, and the order
 * of work when the selected type changes. The inspector's drawing is left
 * out.
 */
module TrackableEditor {
  import opened Basics
  import opened Trackable
  import Controller

  // ------------------------------------------------ pattern-detection mode

  /** Does some trackable use template (pictorial) matching? */
  predicate HasTemplateMarkers(types: seq<TrackableType>)
  {
    Square in types || Multimarker in types
  }

  /** Does some trackable use matrix (barcode) detection? */
  predicate HasMatrixMarkers(types: seq<TrackableType>)
  {
    SquareBarcode in types || Multimarker in types
  }

  /** The ARToolKitPatternDetectionMode value for the two flags and the colour setting. */
  function DetectionMode(templateMarkers: bool, matrixMarkers: bool, trackColor: bool): (mode: int)
    ensures templateMarkers && matrixMarkers ==>
      mode == (if trackColor then Controller.TemplateMatchingColorAndMatrix else Controller.TemplateMatchingMonoAndMatrix)
    ensures templateMarkers && !matrixMarkers ==>
      mode == (if trackColor then Controller.TemplateMatchingColor else Controller.TemplateMatchingMono)
    ensures !templateMarkers ==> mode == Controller.MatrixCodeDetection
  {
    if templateMarkers && matrixMarkers then
      (if trackColor then Controller.TemplateMatchingColorAndMatrix else Controller.TemplateMatchingMonoAndMatrix)
    else if templateMarkers && !matrixMarkers then
      (if trackColor then Controller.TemplateMatchingColor else Controller.TemplateMatchingMono)
    else Controller.MatrixCodeDetection
  }

  /**
   * UpdatePatternDetectionMode over the scene's trackables: the flags only
   * ever turn on, a multimarker turning on both. The result is what the
   * editor assigns to ARController.PatternDetectionMode.
   */
  method UpdatePatternDetectionMode(types: seq<TrackableType>, trackColor: bool) returns (mode: int)
    ensures mode == DetectionMode(HasTemplateMarkers(types), HasMatrixMarkers(types), trackColor)
  {
    var templateMarkers, matrixMarkers := false, false;
    for i := 0 to |types|
      invariant templateMarkers == HasTemplateMarkers(types[..i])
      invariant matrixMarkers == HasMatrixMarkers(types[..i])
    {
      assert types[..i + 1] == types[..i] + [types[i]];
      match types[i]
      case Multimarker =>
        templateMarkers := true;
        matrixMarkers := true;
      case Square =>
        templateMarkers := true;
      case SquareBarcode =>
        matrixMarkers := true;
      case TwoD =>
    }
    assert types[..|types|] == types;
    mode := DetectionMode(templateMarkers, matrixMarkers, trackColor);
  }

  /** The mode depends only on which types occur, not on their order or number. */
  lemma DetectionModeOrderIndependent(a: seq<TrackableType>, b: seq<TrackableType>, trackColor: bool)
    requires forall t :: t in a <==> t in b
    ensures DetectionMode(HasTemplateMarkers(a), HasMatrixMarkers(a), trackColor)
         == DetectionMode(HasTemplateMarkers(b), HasMatrixMarkers(b), trackColor)
  {
  }

  /** Only 2D images in the scene (or none at all) select barcode detection. */
  lemma DetectionModeWithoutSquares(types: seq<TrackableType>, trackColor: bool)
    requires forall i :: 0 <= i < |types| ==> types[i] == TwoD
    ensures DetectionMode(HasTemplateMarkers(types), HasMatrixMarkers(types), trackColor) == Controller.MatrixCodeDetection
  {
  }

  // --------------------------------------------------------- marker list

  /**
   * The type of the entry at `index` in the marker list AllMarkers, which
   * lists the images, then the pattern markers, then the multimarkers, then
   * the barcodes of the current matrix code type.
   */
  function TypeAtIndex(index: int, images: nat, patterns: nat, multimarkers: nat, barcodes: nat): TrackableType
  {
    if index < images then TwoD
    else if index < images + patterns then Square
    else if index < images + patterns + multimarkers then Multimarker
    else if index < images + patterns + multimarkers + barcodes then SquareBarcode
    else Square
  }

  /** DetermineTrackableType, stepping `start` through the four ranges. */
  method DetermineTrackableType(markerIndex: int, images: nat, patterns: nat, multimarkers: nat, barcodes: nat)
    returns (t: TrackableType)
    ensures t == TypeAtIndex(markerIndex, images, patterns, multimarkers, barcodes)
  {
    var start := images;
    if markerIndex < start {
      return TwoD;
    }
    start := start + patterns;
    if markerIndex < start {
      return Square;
    }
    start := start + multimarkers;
    if markerIndex < start {
      return Multimarker;
    }
    start := start + barcodes;
    if markerIndex < start {
      return SquareBarcode;
    }
    return Square;
  }

  /** Every entry of each range gets that range's type; anything past the list is Square. */
  lemma TypeAtIndexRanges(k: int, images: nat, patterns: nat, multimarkers: nat, barcodes: nat)
    ensures 0 <= k < images ==> TypeAtIndex(k, images, patterns, multimarkers, barcodes) == TwoD
    ensures 0 <= k < patterns ==> TypeAtIndex(images + k, images, patterns, multimarkers, barcodes) == Square
    ensures 0 <= k < multimarkers ==>
      TypeAtIndex(images + patterns + k, images, patterns, multimarkers, barcodes) == Multimarker
    ensures 0 <= k < barcodes ==>
      TypeAtIndex(images + patterns + multimarkers + k, images, patterns, multimarkers, barcodes) == SquareBarcode
    ensures k >= images + patterns + multimarkers + barcodes ==>
      TypeAtIndex(k, images, patterns, multimarkers, barcodes) == Square
  {
  }

  // ------------------------------------------------------------ barcodes

  /** The last element of name.Split(' '): the text after the last space. */
  function LastToken(name: string): string
  {
    AfterLast(name, ' ')
  }

  /** int.Parse of the last token; None stands for the FormatException or OverflowException. */
  function BarcodeIDFromName(name: string): Option<int>
  {
    ParseInt32(LastToken(name))
  }

  /** A marker named "<words> <id>" yields id. */
  lemma BarcodeIDRoundTrip(words: string, id: int)
    requires -0x8000_0000 <= id < 0x8000_0000
    ensures BarcodeIDFromName(words + " " + IntToString(id)) == Some(id)
  {
    var name := words + " " + IntToString(id);
    var digits := IntToString(id);
    assert ' ' !in digits by {
      if id < 0 { assert digits == "-" + NatToString(-id); }
    }
    assert name[|words|] == ' ';
    assert name[|words| + 1..] == digits;
    var last := LastIndexOf(name, ' ');
    assert last == Some(|words|);
    ParseInt32OfIntToString(id);
  }

  // --------------------------------------------------------- dropped files

  /** path.Substring(path.LastIndexOf('/') + 1). */
  function FileName(path: string): string
  {
    AfterLast(path, '/')
  }

  /** A dropped file is taken when its name contains ".jpg" or ".jpeg" anywhere. */
  predicate AcceptedImageName(name: string)
  {
    Contains(name, ".jpg") || Contains(name, ".jpeg")
  }

  datatype CopyOutcome = Copied(destination: string) | AlreadyExists(destination: string) | Rejected

  /**
   * copyToStreamingAssets: the destination is
   * "<streaming assets>/<images directory>/<file name>"; `fileExists` is
   * File.Exists of that destination.
   */
  function CopyToStreamingAssets(path: string, streamingAssetsPath: string, imagesDirectoryName: string,
                                 fileExists: string -> bool): (r: CopyOutcome)
    ensures r.Rejected? <==> !AcceptedImageName(FileName(path))
    ensures r.Copied? ==> !fileExists(r.destination)
    ensures r.AlreadyExists? ==> fileExists(r.destination)
    ensures !r.Rejected? ==> r.destination == streamingAssetsPath + "/" + imagesDirectoryName + "/" + FileName(path)
  {
    var fileName := FileName(path);
    var destination := streamingAssetsPath + "/" + imagesDirectoryName + "/" + fileName;
    if AcceptedImageName(fileName) then
      if !fileExists(destination) then Copied(destination) else AlreadyExists(destination)
    else Rejected
  }

  /** A name ending in ".jpg" is accepted, whatever directories the path has. */
  lemma JpgAccepted(dir: string, stem: string)
    requires '/' !in stem
    ensures AcceptedImageName(FileName(dir + "/" + stem + ".jpg"))
  {
    var path := dir + "/" + stem + ".jpg";
    assert '/' !in stem + ".jpg";
    assert path[|dir|] == '/';
    assert path[|dir| + 1..] == stem + ".jpg";
    var name := FileName(path);
    assert name == stem + ".jpg";
    assert OccursAt(name, ".jpg", |stem|);
  }

  // ---------------------------------------------------------- type change

  /**
   * The inspector's reaction to a new type for the selected marker: the
   * unused values are cleared while the OLD type is still set, and only
   * then is the new type assigned (which reloads the marker).
   */
  method ChangeMarkerType(marker: ARTrackable, markerType: TrackableType, host: Host)
    modifies marker
    ensures old(marker.trackableType) == markerType ==> unchanged(marker)
    ensures old(marker.trackableType) != markerType ==>
      marker.trackableType == markerType
      && marker.multiConfigFile == (if old(marker.trackableType) == Multimarker then old(marker.multiConfigFile) else "")
      && marker.twoDImageName == (if old(marker.trackableType) == TwoD then old(marker.twoDImageName) else "")
      && marker.patternContents == (if old(marker.trackableType) == Square then old(marker.patternContents) else "")
      && marker.barcodeID == (if old(marker.trackableType) == SquareBarcode then old(marker.barcodeID) else 0)
      && marker.uid == marker.LoadedUid(host)
  {
    if marker.trackableType != markerType {
      marker.ClearUnusedValues();
      marker.SetType(markerType, host);
    }
  }
}
