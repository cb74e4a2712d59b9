/**
 * The calibration tool's own logic around a finished calibration: the
 * file ID and names under which the parameters are saved and queued, the
 * focal-length text, the device-ID sanitiser, the index file handed to the
 * uploader, the hex form of the shared-secret digest, the display flags
 * chosen for the screen orientation, and the re-reading of preferences
 * with its change detection. Time, the video module and MD5 enter as
 * inputs.
 */
module CalibCamera {
  import opened Basics
  import opened CalibrationPattern
  import FileUploader

  // ----------------------------------------------------------- file IDs

  /** The file ID of a UTC time of day. */
  function FileID(hour: int, min: int, sec: int): int
  {
    hour * 10000 + min * 100 + sec
  }

  /** A time of day (leap second included) is recovered from its ID, which has at most six digits. */
  lemma FileIDDecodes(hour: int, min: int, sec: int)
    requires 0 <= hour < 24 && 0 <= min < 60 && 0 <= sec <= 60
    ensures 0 <= FileID(hour, min, sec) < 1000000
    ensures FileID(hour, min, sec) / 10000 == hour
    ensures FileID(hour, min, sec) / 100 % 100 == min
    ensures FileID(hour, min, sec) % 100 == sec
  {
    var id := FileID(hour, min, sec);
    var hm := hour * 100 + min;
    assert id == hm * 100 + sec;
    assert id / 100 == hm;
    assert id / 10000 == hm / 100;
  }

  /** "%06d" of an ID. */
  function IDText(id: nat): string
  {
    ZeroPad(NatToString(id), 6)
  }

  /** An ID below a million is printed as exactly six digits that read back as the ID. */
  lemma IDTextReadsBack(id: nat)
    requires id < 1000000
    ensures |IDText(id)| == 6 && AllDigits(IDText(id)) && DigitsValue(IDText(id)) == id
  {
    var s := NatToString(id);
    assert Pow10(6) == 1000000 by {
      assert Pow10(0) == 1 && Pow10(1) == 10 && Pow10(2) == 100 && Pow10(3) == 1000;
      assert Pow10(4) == 10000 && Pow10(5) == 100000;
    }
    NatToStringLength(id, 6);
    var r := IDText(id);
    var z := r[..|r| - |s|];
    assert r == z + s;
    DigitsValueLeadingZeros(z, s);
    DigitsValueOfNatToString(id);
  }

  const QueueDir: string := "queue"

  /** The parameter file in the upload queue. */
  function ParamPathname(cacheDir: string, id: nat): string
  {
    cacheDir + "/" + QueueDir + "/" + IDText(id) + "-camera_para.dat"
  }

  /** The index file, before it is renamed with the queue's extension. */
  function IndexPathname(cacheDir: string, id: nat): string
  {
    cacheDir + "/" + QueueDir + "/" + IDText(id) + "-index"
  }

  /** The name the uploader picks up: the index name with ".upload". */
  function IndexUploadPathname(cacheDir: string, id: nat): string
  {
    IndexPathname(cacheDir, id) + "." + "upload"
  }

  // ------------------------------------------------------- focal length

  /** The AVFoundation focus presets; Other is any value without a preset. */
  datatype FocusPreset = Macro | Focus0_3m | Focus1_0m | FocusInfinity | OtherPreset

  const UnknownFocal: string := "0.000"

  /** The focal length in metres sent with a calibration; "0.000" when unknown. */
  function FocalLength(avFoundation: bool, preset: FocusPreset): string
  {
    if !avFoundation then UnknownFocal
    else match preset
      case Macro => "0.01"
      case Focus0_3m => "0.3"
      case Focus1_0m => "1.0"
      case FocusInfinity => "1000000.0"
      case OtherPreset => UnknownFocal
  }

  /** The focal length is known exactly for an AVFoundation source with one of the four presets. */
  lemma FocalLengthKnown(avFoundation: bool, preset: FocusPreset)
    ensures FocalLength(avFoundation, preset) != UnknownFocal <==> avFoundation && preset != OtherPreset
  {
    assert "0.01"[3] != UnknownFocal[3];
    assert "1.0"[0] != UnknownFocal[0];
    assert |"1000000.0"| != |UnknownFocal|;
    assert |"0.3"| != |UnknownFocal|;
  }

  // ---------------------------------------------------------- save name

  predicate IsSeparator(c: char)
  {
    c == '/' || c == '\\'
  }

  /** The device ID with each path separator replaced by '_'. */
  function Sanitised(s: string): (r: string)
    ensures |r| == |s|
    ensures forall i :: 0 <= i < |s| ==> r[i] == (if IsSeparator(s[i]) then '_' else s[i])
  {
    if s == [] then []
    else Sanitised(s[..|s| - 1]) + [if IsSeparator(s[|s| - 1]) then '_' else s[|s| - 1]]
  }

  /** A sanitised ID has no separators left, and sanitising it again changes nothing. */
  lemma SanitisedNoSeparators(s: string)
    ensures forall i :: 0 <= i < |Sanitised(s)| ==> !IsSeparator(Sanitised(s)[i])
    ensures Sanitised(Sanitised(s)) == Sanitised(s)
  {
  }

  /** How many characters of the device ID fit: up to its end (or a NUL) while len + i + 2 < bufLen. */
  function CopiedLength(deviceId: string, len: nat, bufLen: nat): (n: nat)
    ensures n <= |deviceId|
    ensures forall i :: 0 <= i < n ==> deviceId[i] != '\0'
    ensures n < |deviceId| ==> deviceId[n] == '\0' || len + n + 2 >= bufLen
    ensures len + n + 2 < bufLen || n == 0 || len + n + 2 == bufLen
  {
    CopiedFrom(deviceId, len, bufLen, 0)
  }

  function CopiedFrom(deviceId: string, len: nat, bufLen: nat, i: nat): (n: nat)
    requires i <= |deviceId|
    requires forall k :: 0 <= k < i ==> deviceId[k] != '\0'
    requires i == 0 || len + i + 2 <= bufLen
    ensures i <= n <= |deviceId|
    ensures forall k :: 0 <= k < n ==> deviceId[k] != '\0'
    ensures n < |deviceId| ==> deviceId[n] == '\0' || len + n + 2 >= bufLen
    ensures len + n + 2 < bufLen || n == 0 || len + n + 2 == bufLen
    decreases |deviceId| - i
  {
    if i < |deviceId| && deviceId[i] != '\0' && len + i + 2 < bufLen then CopiedFrom(deviceId, len, bufLen, i + 1)
    else i
  }

  /**
   * The sanitising loop of saveParam: the prefix "<dir>/camera_para-"
   * (len characters) followed by the device ID, separators replaced, as far
   * as it fits in a buffer of bufLen.
   */
  method SanitiseInto(prefix: string, deviceId: string, bufLen: nat) returns (path: string)
    ensures path == prefix + Sanitised(deviceId[..CopiedLength(deviceId, |prefix|, bufLen)])
  {
    var len := |prefix|;
    var i := 0;
    path := prefix;
    while i < |deviceId| && deviceId[i] != '\0' && len + i + 2 < bufLen
      invariant 0 <= i <= |deviceId|
      invariant forall k :: 0 <= k < i ==> deviceId[k] != '\0'
      invariant i == 0 || len + i + 2 <= bufLen
      invariant CopiedFrom(deviceId, len, bufLen, i) == CopiedLength(deviceId, len, bufLen)
      invariant path == prefix + Sanitised(deviceId[..i])
      decreases |deviceId| - i
    {
      assert deviceId[..i + 1][..i] == deviceId[..i];
      path := path + [if deviceId[i] == '/' || deviceId[i] == '\\' then '_' else deviceId[i]];
      i := i + 1;
    }
  }

  /** A device ID without NUL that fits is copied whole. */
  lemma FittingIdCopiedWhole(deviceId: string, len: nat, bufLen: nat)
    requires '\0' !in deviceId
    requires len + |deviceId| + 2 <= bufLen
    ensures CopiedLength(deviceId, len, bufLen) == |deviceId|
  {
  }

  /** The focal part of the name: "-<focal>" unless the focal length is unknown. */
  function FocalSuffix(focal: string): string
  {
    if focal != UnknownFocal then "-" + focal else ""
  }

  /** "<dir>/camera_para-<dev>-0-<W>x<H>[-<focal>].dat". */
  function SaveName(dir: string, deviceId: string, width: int, height: int, focal: string): string
  {
    dir + "/camera_para-" + Sanitised(deviceId) + "-0-" + IntToString(width) + "x" + IntToString(height)
      + FocalSuffix(focal) + ".dat"
  }

  /** The name carries a focal part exactly when the focal length is known, and always ends in ".dat". */
  lemma SaveNameFocalPart(dir: string, deviceId: string, width: int, height: int, focal: string)
    ensures SaveName(dir, deviceId, width, height, focal) == SaveName(dir, deviceId, width, height, UnknownFocal)
      <==> focal == UnknownFocal
    ensures var n := SaveName(dir, deviceId, width, height, focal); n[|n| - 4..] == ".dat"
  {
    var base := dir + "/camera_para-" + Sanitised(deviceId) + "-0-" + IntToString(width) + "x" + IntToString(height);
    assert SaveName(dir, deviceId, width, height, focal) == base + FocalSuffix(focal) + ".dat";
    assert SaveName(dir, deviceId, width, height, UnknownFocal) == base + ".dat";
    if focal != UnknownFocal {
      assert |base + FocalSuffix(focal) + ".dat"| > |base + ".dat"|;
    }
  }

  /**
   * The whole save name as saveParam assembles it, when the device ID fits
   * its buffer (the remaining pieces are appended in turn).
   */
  method AssembleSaveName(dir: string, deviceId: string, width: int, height: int, focal: string, bufLen: nat)
    returns (path: string)
    requires '\0' !in deviceId
    requires |dir| + 13 + |deviceId| + 2 <= bufLen
    ensures path == SaveName(dir, deviceId, width, height, focal)
  {
    var prefix := dir + "/camera_para-";
    path := SanitiseInto(prefix, deviceId, bufLen);
    FittingIdCopiedWhole(deviceId, |prefix|, bufLen);
    assert deviceId[..|deviceId|] == deviceId;
    path := path + "-0-" + IntToString(width) + "x" + IntToString(height);
    if focal != UnknownFocal {
      path := path + "-" + focal;
    }
    path := path + ".dat";
  }

  // ------------------------------------------------------- shared secret

  /** The "%.2hhx" characters of one byte. */
  function ByteHex(b: nat): string
    requires b < 256
  {
    [HexDigit(b / 16), HexDigit(b % 16)]
  }

  predicate AllBytes(digest: seq<nat>)
  {
    forall i :: 0 <= i < |digest| ==> digest[i] < 256
  }

  /** The digest as lower-case hex, two characters per byte in order. */
  function Hex(digest: seq<nat>): (s: string)
    requires AllBytes(digest)
    ensures |s| == 2 * |digest|
  {
    if digest == [] then [] else Hex(digest[..|digest| - 1]) + ByteHex(digest[|digest| - 1])
  }

  /** Each pair of hex characters reads back as its byte. */
  lemma {:induction false} HexReadsBack(digest: seq<nat>, i: nat)
    requires AllBytes(digest) && i < |digest|
    ensures IsLowerHex(Hex(digest)[2 * i]) && IsLowerHex(Hex(digest)[2 * i + 1])
    ensures HexValue(Hex(digest)[2 * i]) * 16 + HexValue(Hex(digest)[2 * i + 1]) == digest[i]
  {
    var n := |digest| - 1;
    var prev := digest[..n];
    if i < n {
      HexReadsBack(prev, i);
      assert Hex(digest)[2 * i] == Hex(prev)[2 * i];
      assert Hex(digest)[2 * i + 1] == Hex(prev)[2 * i + 1];
    } else {
      var b := digest[n];
      HexDigitValue(b / 16);
      HexDigitValue(b % 16);
      assert Hex(digest)[2 * i] == HexDigit(b / 16);
      assert Hex(digest)[2 * i + 1] == HexDigit(b % 16);
    }
  }

  const DigestLength: nat := 16

  /** The loop writing the MD5 digest of the token as the index's "ss" value. */
  method SharedSecretText(digest: seq<nat>) returns (ascii: string)
    requires |digest| == DigestLength && AllBytes(digest)
    ensures ascii == Hex(digest)
    ensures |ascii| == 32
  {
    ascii := "";
    for i := 0 to DigestLength
      invariant ascii == Hex(digest[..i])
    {
      assert digest[..i + 1][..i] == digest[..i];
      ascii := ascii + ByteHex(digest[i]);
    }
    assert digest[..DigestLength] == digest;
  }

  // ---------------------------------------------------------- index file

  /**
   * The fields of the upload index, in the order saveParam writes them;
   * the numbers have been printed by "%d" and the errors by "%f".
   */
  function IndexFields(paramPathname: string, timestamp: string, osName: string, osArch: string, osVersion: string,
                       deviceId: string, focal: string, frontFacing: bool, width: int, height: int,
                       errMin: string, errAvg: string, errMax: string, ss: string): (fields: seq<(string, string)>)
    ensures |fields| == 15
    ensures forall k :: 0 <= k < |fields| ==> ',' !in fields[k].0
    ensures fields[0] == ("file", paramPathname) && fields[14] == ("ss", ss)
    ensures forall k :: 1 <= k < |fields| ==> fields[k].0 != "file"
  {
    [("file", paramPathname), ("timestamp", timestamp), ("os_name", osName), ("os_arch", osArch),
     ("os_version", osVersion), ("device_id", deviceId), ("focal_length", focal), ("camera_index", IntToString(0)),
     ("camera_face", if frontFacing then "front" else "rear"), ("camera_width", IntToString(width)),
     ("camera_height", IntToString(height)), ("err_min", errMin), ("err_avg", errAvg), ("err_max", errMax),
     ("ss", ss)]
  }

  /**
   * The uploader reads the index back as fifteen form parts, the first
   * uploading the parameter file and the last carrying the shared secret,
   * every value intact whatever commas it holds.
   */
  lemma IndexReadBack(paramPathname: string, timestamp: string, osName: string, osArch: string, osVersion: string,
                      deviceId: string, focal: string, frontFacing: bool, width: int, height: int,
                      errMin: string, errAvg: string, errMax: string, ss: string, fileNameOf: string -> string)
    ensures var fields := IndexFields(paramPathname, timestamp, osName, osArch, osVersion, deviceId, focal,
                                      frontFacing, width, height, errMin, errAvg, errMax, ss);
      var form := FileUploader.Form(FileUploader.FieldLines(fields), fileNameOf);
      |form| == 15
      && form[0] == FileUploader.FilePart("file", paramPathname, fileNameOf(paramPathname))
      && form[14] == FileUploader.ContentsPart("ss", ss)
      && forall k :: 1 <= k < 15 ==> form[k] == FileUploader.ContentsPart(fields[k].0, fields[k].1)
  {
    var fields := IndexFields(paramPathname, timestamp, osName, osArch, osVersion, deviceId, focal,
                              frontFacing, width, height, errMin, errAvg, errMax, ss);
    FileUploader.FormOfFields(fields, fileNameOf);
    FieldPartsAt(fields, fileNameOf);
  }

  lemma {:induction false} FieldPartsAt(fields: seq<(string, string)>, fileNameOf: string -> string)
    ensures forall k :: 0 <= k < |fields| ==>
      FileUploader.FieldParts(fields, fileNameOf)[k] == FileUploader.FormPartOf(fields[k].0, fields[k].1, fileNameOf)
  {
    if fields != [] {
      var n := |fields| - 1;
      FieldPartsAt(fields[..n], fileNameOf);
    }
  }

  // --------------------------------------------------------- orientation

  /** gCameraIsFrontFacing: only an AVFoundation source that reports the front position. */
  function CameraIsFrontFacing(avFoundation: bool, positionIsFront: Option<bool>): bool
  {
    avFoundation && positionIsFront == Some(true)
  }

  /** The display flags of an orientation. */
  datatype ContentFlags = ContentFlags(rotate90: bool, flipV: bool, flipH: bool)

  /** The rotation and flips the video view gets for the display orientation (0 portrait, 1 and 3 landscape, 2 upside-down). */
  function OrientationFlags(orientation: int, front: bool): ContentFlags
  {
    if orientation == 1 then ContentFlags(false, front, front)
    else if orientation == 2 then ContentFlags(true, !front, true)
    else if orientation == 3 then ContentFlags(false, !front, !front)
    else ContentFlags(true, front, false)
  }

  /**
   * The landscape orientations are not rotated and mirror each other in
   * both flips; the two portraits are rotated and mirror each other
   * vertically; and the flips of landscape follow the camera's facing.
   */
  lemma OrientationFlagsSymmetry(front: bool, orientation: int)
    ensures OrientationFlags(orientation, front).rotate90 <==> orientation != 1 && orientation != 3
    ensures OrientationFlags(3, front).flipV == !OrientationFlags(1, front).flipV
    ensures OrientationFlags(3, front).flipH == !OrientationFlags(1, front).flipH
    ensures OrientationFlags(2, front).flipV == !OrientationFlags(0, front).flipV
    ensures OrientationFlags(1, front).flipV == front && OrientationFlags(1, front).flipH == front
    ensures orientation !in {1, 2, 3} ==> OrientationFlags(orientation, front) == OrientationFlags(0, front)
  {
  }

  // ---------------------------------------------------- rereadPreferences

  /** What the preference getters answer. */
  datatype PrefsValues = PrefsValues(
    save: bool, saveDir: Option<string>, uploadURL: Option<string>, authToken: Option<string>,
    resolutionToken: Option<string>, openToken: Option<string>,
    patternType: PatternType, patternSize: Size, patternSpacing: real)

  /** The side effects rereadPreferences causes, in order. */
  datatype Event = UploaderFinal | UploaderInit(url: string) | VideoRestart

  /** As written, an old string is kept only when old and new are both non-NULL and equal. */
  predicate KeepsOld(current: Option<string>, incoming: Option<string>)
  {
    current.Some? && incoming.Some? && current.value == incoming.value
  }

  /** A NULL setting that stays NULL still counts as changed. */
  lemma NullStaysNullCountsAsChange()
    ensures !KeepsOld(None, None)
  {
  }

  /** The uploader is torn down and (for a URL) set up again whenever the URL counts as changed. */
  function UploaderEvents(currentURL: Option<string>, freshURL: Option<string>): seq<Event>
  {
    if KeepsOld(currentURL, freshURL) then []
    else [UploaderFinal] + (if freshURL.Some? then [UploaderInit(freshURL.value)] else [])
  }

  /**
   * One string global against its new value: an equal non-NULL value is
   * kept (the new copy freed), anything else replaces the global.
   */
  function Replace(current: Option<string>, incoming: Option<string>): (r: (Option<string>, bool))
    ensures r.0 == incoming
    ensures r.1 <==> !KeepsOld(current, incoming)
  {
    if incoming.Some? && current.Some? && current.value == incoming.value then (current, false)
    else (incoming, true)
  }

  /** The tool's globals that preferences feed. */
  class CalibCameraGlobals {
    var calibrationSave: bool
    var calibrationSaveDir: Option<string>
    var serverUploadURL: Option<string>
    var serverAuthenticationToken: Option<string>
    var cameraResolutionToken: Option<string>
    var cameraOpenToken: Option<string>
    var patternType: PatternType
    var patternSize: Size
    var patternSpacing: real
    var events: seq<Event>

    /**
     * main's first read of the preferences: every global takes the value its
     * getter answers, before any re-read and with no side effect yet.
     */
    constructor(p: PrefsValues)
      ensures Holds(p) && events == []
    {
      calibrationSave := p.save;
      calibrationSaveDir, serverUploadURL, serverAuthenticationToken := p.saveDir, p.uploadURL, p.authToken;
      cameraResolutionToken, cameraOpenToken := p.resolutionToken, p.openToken;
      patternType, patternSize, patternSpacing := p.patternType, p.patternSize, p.patternSpacing;
      events := [];
    }

    /** Does the camera need restarting for these values, as written? */
    predicate CameraSettingsChanged(p: PrefsValues)
      reads this`cameraResolutionToken, this`cameraOpenToken, this`patternType, this`patternSize, this`patternSpacing
    {
      !KeepsOld(cameraResolutionToken, p.resolutionToken) || !KeepsOld(cameraOpenToken, p.openToken)
      || p.patternType != patternType || p.patternSize != patternSize || p.patternSpacing != patternSpacing
    }

    /** The evidently intended test: some camera setting differs. */
    predicate CameraSettingsChangedCorrected(p: PrefsValues)
      reads this`cameraResolutionToken, this`cameraOpenToken, this`patternType, this`patternSize, this`patternSpacing
    {
      p.resolutionToken != cameraResolutionToken || p.openToken != cameraOpenToken
      || p.patternType != patternType || p.patternSize != patternSize || p.patternSpacing != patternSpacing
    }

    /** Do the globals already hold these values? */
    predicate Holds(p: PrefsValues)
      reads this`calibrationSave, this`calibrationSaveDir, this`serverUploadURL, this`serverAuthenticationToken
      reads this`cameraResolutionToken, this`cameraOpenToken, this`patternType, this`patternSize, this`patternSpacing
    {
      calibrationSave == p.save && calibrationSaveDir == p.saveDir && serverUploadURL == p.uploadURL
      && serverAuthenticationToken == p.authToken && cameraResolutionToken == p.resolutionToken
      && cameraOpenToken == p.openToken && patternType == p.patternType && patternSize == p.patternSize
      && patternSpacing == p.patternSpacing
    }

    /**
     * rereadPreferences: every global takes the new value; the uploader is
     * renewed when the URL counts as changed, and the video is stopped and
     * started when a camera setting counts as changed.
     */
    method RereadPreferences(p: PrefsValues)
      modifies this`calibrationSave, this`calibrationSaveDir, this`serverUploadURL, this`serverAuthenticationToken
      modifies this`cameraResolutionToken, this`cameraOpenToken, this`patternType, this`patternSize
      modifies this`patternSpacing, this`events
      ensures Holds(p)
      ensures events == old(events) + UploaderEvents(old(serverUploadURL), p.uploadURL)
        + (if old(CameraSettingsChanged(p)) then [VideoRestart] else [])
    {
      var dir := Replace(calibrationSaveDir, p.saveDir);
      var url := Replace(serverUploadURL, p.uploadURL);
      var renewal: seq<Event> := [];
      if url.1 {
        renewal := [UploaderFinal];
        if url.0.Some? {
          renewal := renewal + [UploaderInit(url.0.value)];
        }
      }
      var token := Replace(serverAuthenticationToken, p.authToken);
      var changedCameraSettings := false;
      var resolution := Replace(cameraResolutionToken, p.resolutionToken);
      changedCameraSettings := changedCameraSettings || resolution.1;
      var open := Replace(cameraOpenToken, p.openToken);
      changedCameraSettings := changedCameraSettings || open.1;
      if p.patternType != patternType || p.patternSize != patternSize || p.patternSpacing != patternSpacing {
        changedCameraSettings := true;
      }
      assert renewal == UploaderEvents(serverUploadURL, p.uploadURL);
      assert changedCameraSettings == CameraSettingsChanged(p);
      var restart: seq<Event> := if changedCameraSettings then [VideoRestart] else [];
      var newEvents := events + renewal + restart;
      assert newEvents == events + UploaderEvents(serverUploadURL, p.uploadURL)
        + (if CameraSettingsChanged(p) then [VideoRestart] else []);
      calibrationSave, calibrationSaveDir, serverUploadURL, serverAuthenticationToken := p.save, dir.0, url.0, token.0;
      cameraResolutionToken, cameraOpenToken := resolution.0, open.0;
      patternType, patternSize, patternSpacing := p.patternType, p.patternSize, p.patternSpacing;
      events := newEvents;
    }

    /**
     * The resolution token getter always answers NULL, so as written every
     * re-read restarts the video, even when nothing changed.
     */
    lemma RereadAlwaysRestartsAsWritten(p: PrefsValues)
      requires Holds(p) && p.resolutionToken == None
      ensures CameraSettingsChanged(p)
      ensures !CameraSettingsChangedCorrected(p)
    {
    }

    /** The intended test restarts exactly when some camera setting differs. */
    lemma CorrectedRestartsOnlyOnChange(p: PrefsValues)
      ensures CameraSettingsChangedCorrected(p) <==>
        !(cameraResolutionToken == p.resolutionToken && cameraOpenToken == p.openToken
          && patternType == p.patternType && patternSize == p.patternSize && patternSpacing == p.patternSpacing)
      ensures CameraSettingsChangedCorrected(p) ==> CameraSettingsChanged(p)
    {
    }
  }
}
