/**
 * The preferences of the calibration tool kept in a libconfig file: the
 * getters the tool reads its settings through, and the text-menu session
 * in which the user edits them. The prompts' wording, the help browser,
 * the camera list and the typed input are inputs of the model.
 */
module PrefsLibConfig {
  import opened Basics
  import opened CalibrationPattern

  // ---------------------------------------------------------- settings

  /**
   * The values of the settings in the configuration. A string setting that
   * was added and never set is NULL (None); a new boolean is false, a new
   * number 0.
   */
  datatype Settings = Settings(
    cameraOpenToken: Option<string>,
    calibrationSave: bool,
    calibSaveDir: Option<string>,
    calibrationUpload: bool,
    serverUploadURL: Option<string>,
    serverAuthenticationToken: Option<string>,
    patternType: Option<string>,
    patternSizeWidth: int,
    patternSizeHeight: int,
    patternSpacing: real)

  /**
   * The build: the ARTOOLKIT6_CSUU and ARTOOLKIT6_CSAT macros, the upload
   * URL and token compiled in (None when the macro is not defined).
   */
  datatype Build = Build(csuu: Option<string>, csat: Option<string>)

  /** Both macros defined: uploads go to the built-in server. */
  predicate BuiltInServer(b: Build)
  {
    b.csuu.Some? && b.csat.Some?
  }

  /** The settings initPreferences adds when the file has none of them. */
  function NewSettings(b: Build): (s: Settings)
    ensures s.calibrationUpload <==> BuiltInServer(b)
  {
    Settings(None, false, None, BuiltInServer(b), None, None, None, 0, 0, 0.0)
  }

  // ------------------------------------------------------------ getters

  /** A non-empty string setting is copied; NULL and "" give NULL. */
  function NonEmpty(s: Option<string>): (r: Option<string>)
    ensures r.Some? <==> s.Some? && s.value != ""
    ensures r.Some? ==> r == s
  {
    if s.Some? && s.value != "" then s else None
  }

  /** getPreferenceCameraOpenToken (a None `prefs` is the NULL handle). */
  function CameraOpenToken(prefs: Option<Settings>): Option<string>
  {
    if prefs.None? then None else NonEmpty(prefs.value.cameraOpenToken)
  }

  /** getPreferenceCameraResolutionToken: there is no such setting. */
  function CameraResolutionToken(prefs: Option<Settings>): Option<string>
  {
    None
  }

  /** getPreferenceCalibrationSave: the save flag counts only while upload is on. */
  function CalibrationSave(prefs: Option<Settings>): bool
  {
    if prefs.None? then false
    else if prefs.value.calibrationUpload then prefs.value.calibrationSave
    else true
  }

  /** getPreferenceCalibSaveDir; `resourcesDir` is what arUtilGetResourcesDirectoryPath returns. */
  function CalibSaveDir(prefs: Option<Settings>, resourcesDir: Option<string>): Option<string>
  {
    if prefs.Some? && NonEmpty(prefs.value.calibSaveDir).Some? then prefs.value.calibSaveDir else resourcesDir
  }

  /** getPreferenceCalibrationServerUploadURL. */
  function ServerUploadURL(b: Build, prefs: Option<Settings>): Option<string>
  {
    if prefs.None? || !prefs.value.calibrationUpload then None
    else if BuiltInServer(b) then b.csuu
    else NonEmpty(prefs.value.serverUploadURL)
  }

  /** getPreferenceCalibrationServerAuthenticationToken. */
  function ServerAuthenticationToken(b: Build, prefs: Option<Settings>): Option<string>
  {
    if prefs.None? || !prefs.value.calibrationUpload then None
    else if BuiltInServer(b) then b.csat
    else NonEmpty(prefs.value.serverAuthenticationToken)
  }

  /** The names the pattern type is stored under. */
  function TypeName(t: PatternType): string
  {
    match t
    case Chessboard => "Chessboard"
    case CirclesGrid => "Circles"
    case AsymmetricCirclesGrid => "Asymmetric circles"
  }

  /** getPreferencesCalibrationPatternType: only an exact name is recognised. */
  function PatternTypeOf(prefs: Option<Settings>): PatternType
  {
    if prefs.None? then PatternTypeDefault
    else match NonEmpty(prefs.value.patternType)
      case None => PatternTypeDefault
      case Some(s) =>
        if s == "Chessboard" then Chessboard
        else if s == "Circles" then CirclesGrid
        else if s == "Asymmetric circles" then AsymmetricCirclesGrid
        else PatternTypeDefault
  }

  /** getPreferencesCalibrationPatternSize: the stored size when both sides are positive. */
  function PatternSizeOf(prefs: Option<Settings>): Size
  {
    if prefs.Some? && prefs.value.patternSizeWidth > 0 && prefs.value.patternSizeHeight > 0 then
      Size(prefs.value.patternSizeWidth, prefs.value.patternSizeHeight)
    else PatternSizeDefault(PatternTypeDefault)
  }

  /**
   * config_setting_get_int on a float setting: libconfig converts (by
   * truncation) only when its auto-convert option is set, otherwise it
   * yields 0.
   */
  function IntOfFloatSetting(f: real, autoConvert: bool): int
  {
    if !autoConvert then 0
    else if f >= 0.0 then f.Floor
    else -((-f).Floor)
  }

  /** getPreferencesCalibrationPatternSpacing as written: the float setting is read with the integer getter. */
  function PatternSpacingAsWritten(prefs: Option<Settings>, autoConvert: bool): real
  {
    if prefs.None? then PatternSpacingDefault(PatternTypeDefault)
    else
      var f := IntOfFloatSetting(prefs.value.patternSpacing, autoConvert) as real;
      if f > 0.0 then f else PatternSpacingDefault(PatternTypeDefault)
  }

  /** A stored spacing of 25.5 never comes back: 30 without auto-convert, 25 with it. */
  lemma SpacingLostAsWritten(s: Settings)
    requires s.patternSpacing == 25.5
    ensures PatternSpacingAsWritten(Some(s), false) == 30.0
    ensures PatternSpacingAsWritten(Some(s), true) == 25.0
  {
  }

  /** The evidently intended getter, through the float getter. */
  function PatternSpacingOf(prefs: Option<Settings>): real
  {
    if prefs.Some? && prefs.value.patternSpacing > 0.0 then prefs.value.patternSpacing
    else PatternSpacingDefault(PatternTypeDefault)
  }

  /** Without a preferences handle every getter gives its default. */
  lemma NullPreferencesDefaults(b: Build, resourcesDir: Option<string>)
    ensures CameraOpenToken(None) == None && CameraResolutionToken(None) == None
    ensures !CalibrationSave(None)
    ensures CalibSaveDir(None, resourcesDir) == resourcesDir
    ensures ServerUploadURL(b, None) == None && ServerAuthenticationToken(b, None) == None
    ensures PatternTypeOf(None) == Chessboard
    ensures PatternSizeOf(None) == Size(7, 5)
    ensures PatternSpacingOf(None) == 30.0 && PatternSpacingAsWritten(None, false) == 30.0
  {
  }

  /** Saving is forced on exactly when upload is off; otherwise the stored flag decides. */
  lemma CalibrationSaveCases(s: Settings)
    ensures !s.calibrationUpload ==> CalibrationSave(Some(s))
    ensures s.calibrationUpload ==> (CalibrationSave(Some(s)) <==> s.calibrationSave)
  {
  }

  /** No URL or token while upload is off; with it on, a stored non-empty value (or the built-in one). */
  lemma ServerSettingsCases(b: Build, s: Settings)
    ensures !s.calibrationUpload ==> ServerUploadURL(b, Some(s)) == None && ServerAuthenticationToken(b, Some(s)) == None
    ensures s.calibrationUpload && BuiltInServer(b) ==>
      ServerUploadURL(b, Some(s)) == b.csuu && ServerAuthenticationToken(b, Some(s)) == b.csat
    ensures s.calibrationUpload && !BuiltInServer(b) ==>
      (ServerUploadURL(b, Some(s)).Some? <==> s.serverUploadURL.Some? && s.serverUploadURL.value != "")
      && (ServerUploadURL(b, Some(s)).Some? ==> ServerUploadURL(b, Some(s)) == s.serverUploadURL)
  {
  }

  /** Every type stored under its name is decoded back to itself. */
  lemma TypeNameRoundTrip(s: Settings, t: PatternType)
    ensures PatternTypeOf(Some(s.(patternType := Some(TypeName(t))))) == t
  {
  }

  /** A stored type string that is not one of the three names decodes as the chessboard. */
  lemma UnknownTypeIsChessboard(s: Settings)
    requires forall t :: s.patternType != Some(TypeName(t))
    ensures PatternTypeOf(Some(s)) == Chessboard
  {
    assert s.patternType != Some(TypeName(CirclesGrid));
    assert s.patternType != Some(TypeName(AsymmetricCirclesGrid));
  }

  /** The stored size is used exactly when both sides are positive. */
  lemma PatternSizeCases(s: Settings)
    ensures (PatternSizeOf(Some(s)) == Size(s.patternSizeWidth, s.patternSizeHeight))
      <==> (s.patternSizeWidth > 0 && s.patternSizeHeight > 0) || (s.patternSizeWidth == 7 && s.patternSizeHeight == 5)
  {
  }

  /** The intended spacing getter returns a positive stored spacing unchanged, else 30. */
  lemma PatternSpacingCases(s: Settings)
    ensures s.patternSpacing > 0.0 ==> PatternSpacingOf(Some(s)) == s.patternSpacing
    ensures s.patternSpacing <= 0.0 ==> PatternSpacingOf(Some(s)) == 30.0
  {
  }

  // ------------------------------------------------------ scanning input

  predicate IsSpace(c: char)
  {
    c == ' ' || c == '\t' || c == '\n' || c == '\r' || c == '\U{000B}' || c == '\U{000C}'
  }

  /** The input without its leading white space, as sscanf skips it before a number. */
  function SkipSpaces(s: string): (t: string)
    ensures |t| <= |s| && t == s[|s| - |t|..]
    ensures t == [] || !IsSpace(t[0])
  {
    if s != [] && IsSpace(s[0]) then SkipSpaces(s[1..]) else s
  }

  /** The length of the run of digits that starts the string. */
  function DigitRun(s: string): (n: nat)
    ensures n <= |s| && AllDigits(s[..n])
    ensures n < |s| ==> !IsDigit(s[n])
  {
    if s == [] || !IsDigit(s[0]) then 0
    else
      var n := 1 + DigitRun(s[1..]);
      assert s[..n] == [s[0]] + s[1..][..n - 1];
      n
  }

  /** A digit string followed by a non-digit has exactly its own length as its run. */
  lemma {:induction false} DigitRunOfDigits(d: string, rest: string)
    requires AllDigits(d)
    requires rest == [] || !IsDigit(rest[0])
    ensures DigitRun(d + rest) == |d|
  {
    if d != [] {
      assert (d + rest)[1..] == d[1..] + rest;
      DigitRunOfDigits(d[1..], rest);
    }
  }

  /** The unsigned part of "%d": the value of the leading digits and the text after them. */
  function ScanDigits(body: string): Option<(nat, string)>
  {
    var n := DigitRun(body);
    if n == 0 then None else Some((DigitsValue(body[..n]), body[n..]))
  }

  /** The text after an optional sign. */
  function Unsigned(t: string): (u: string)
  {
    if |t| > 0 && (t[0] == '-' || t[0] == '+') then t[1..] else t
  }

  /** The scanned magnitude with the sign applied. */
  function ApplySign(neg: bool, r: Option<(nat, string)>): Option<(int, string)>
  {
    match r
    case None => None
    case Some((mag, rest)) =>
      var v: int := mag;
      Some((if neg then -v else v, rest))
  }

  /** sscanf "%d": the value and the remaining text, or None when no number starts the input. */
  function ScanInt(s: string): Option<(int, string)>
  {
    var t := SkipSpaces(s);
    ApplySign(|t| > 0 && t[0] == '-', ScanDigits(Unsigned(t)))
  }

  /** Digits followed by a non-digit scan to their value and the rest. */
  lemma {:induction false} ScanDigitsOf(d: string, rest: string)
    requires |d| > 0 && AllDigits(d)
    requires rest == [] || !IsDigit(rest[0])
    ensures ScanDigits(d + rest) == Some((DigitsValue(d), rest))
  {
    DigitRunOfDigits(d, rest);
    assert (d + rest)[..|d|] == d;
    assert (d + rest)[|d|..] == rest;
  }

  /** An optional minus sign, digits and a non-digit rest scan to the signed value and the rest. */
  lemma {:induction false} ScanIntOfSignedDigits(sign: string, d: string, rest: string)
    requires sign == "" || sign == "-"
    requires |d| > 0 && AllDigits(d)
    requires rest == [] || !IsDigit(rest[0])
    ensures ScanInt(sign + d + rest) == Some((if sign == "-" then -(DigitsValue(d) as int) else DigitsValue(d), rest))
  {
    var s := sign + d + rest;
    ScanDigitsOf(d, rest);
    if sign == "-" {
      assert s == "-" + (d + rest);
      assert s[0] == '-' && !IsSpace(s[0]);
      assert s[1..] == d + rest;
      assert Unsigned(s) == d + rest;
    } else {
      assert s == d + rest;
      assert IsDigit(s[0]) && !IsSpace(s[0]);
      assert Unsigned(s) == d + rest;
    }
    assert SkipSpaces(s) == s;
  }

  /** Printing a number and scanning it back gives the number and the rest of the input. */
  lemma {:induction false} ScanIntOfIntToString(i: int, rest: string)
    requires rest == [] || !IsDigit(rest[0])
    ensures ScanInt(IntToString(i) + rest) == Some((i, rest))
  {
    var m: nat := if i < 0 then -i else i;
    var sign := if i < 0 then "-" else "";
    DigitsValueOfNatToString(m);
    assert IntToString(i) == sign + NatToString(m);
    ScanIntOfSignedDigits(sign, NatToString(m), rest);
  }

  /** sscanf "%dx%d" with both conversions done. */
  function ScanSize(s: string): Option<(int, int)>
  {
    match ScanInt(s)
    case None => None
    case Some((w, rest)) =>
      if |rest| > 0 && rest[0] == 'x' then
        match ScanInt(rest[1..])
        case None => None
        case Some((h, _)) => Some((w, h))
      else None
  }

  /** ScanSize reads the width, an 'x' and the height, whatever stands after the height. */
  lemma ScanSizeOfScans(s: string, w: int, tail: string, h: int, after: string)
    requires ScanInt(s) == Some((w, tail))
    requires |tail| > 0 && tail[0] == 'x'
    requires ScanInt(tail[1..]) == Some((h, after))
    ensures ScanSize(s) == Some((w, h))
  {
  }

  /** ScanSize of "<w text>x<h text>" from the scans of the two numbers. */
  lemma ScanSizeOfJoin(ws: string, hs: string, w: int, h: int)
    requires ScanInt(ws + ("x" + hs)) == Some((w, "x" + hs))
    requires ScanInt(hs) == Some((h, []))
    ensures ScanSize(ws + ("x" + hs)) == Some((w, h))
  {
    var tail := "x" + hs;
    assert tail[1..] == hs;
    ScanSizeOfScans(ws + tail, w, tail, h, []);
  }

  /** "<w>x<h>" scans back to (w, h). */
  lemma {:induction false} ScanSizeOfText(w: int, h: int)
    ensures ScanSize(IntToString(w) + ("x" + IntToString(h))) == Some((w, h))
  {
    ScanIntOfIntToString(w, "x" + IntToString(h));
    ScanIntOfIntToString(h, []);
    assert IntToString(h) + [] == IntToString(h);
    ScanSizeOfJoin(IntToString(w), IntToString(h), w, h);
  }

  // --------------------------------------------------------- the session

  /** The states of showPreferencesThread. */
  datatype MenuState = Begin | HelpOption | CameraOption | SaveOption | SaveDirOption | UploadOption
    | ServerURLOption | ServerTokenOption | PatternTypeOption | PatternSizeOption | PatternSpacingOption | End

  /** A video source of ar2VideoCreateSourceInfoList. */
  datatype VideoSource = VideoSource(name: string, openToken: Option<string>)

  /**
   * What the session sees of the world: whether xdg-open is installed,
   * the video source list (None when it cannot be made), and sscanf "%f".
   */
  datatype Env = Env(hasXdgOpen: bool, sources: Option<seq<VideoSource>>, scanFloat: string -> Option<real>)

  /** The top menu's numbered options; any other number stays on the menu. */
  function MenuChoice(b: Build, n: int): MenuState
  {
    if n == 1 then HelpOption
    else if n == 2 then CameraOption
    else if n == 3 then SaveOption
    else if n == 4 then SaveDirOption
    else if n == 5 then UploadOption
    else if BuiltInServer(b) then
      (if n == 6 then PatternTypeOption else if n == 7 then PatternSizeOption
       else if n == 8 then PatternSpacingOption else Begin)
    else
      (if n == 6 then ServerURLOption else if n == 7 then ServerTokenOption else if n == 8 then PatternTypeOption
       else if n == 9 then PatternSizeOption else if n == 10 then PatternSpacingOption else Begin)
  }

  /** Menu choices 1, 2 and 3 of the pattern-type screen. */
  function TypeOfChoice(n: int): Option<PatternType>
  {
    if n == 1 then Some(Chessboard)
    else if n == 2 then Some(CirclesGrid)
    else if n == 3 then Some(AsymmetricCirclesGrid)
    else None
  }

  /** One step of the session: the next state, the settings, and whether a line of input was read. */
  datatype StepResult = StepResult(state: MenuState, settings: Settings, consumed: bool)

  /** The number typed, when the line is non-empty and starts with one. */
  function TypedNumber(line: string): Option<int>
  {
    if line == [] then None
    else match ScanInt(line)
      case None => None
      case Some((n, _)) => Some(n)
  }

  /**
   * One pass of the session loop in the given state, `input` being the
   * line typed at its prompt (None for [esc]). `serverHandlers` says
   * whether the URL and token screens are compiled in.
   */
  function StepWith(serverHandlers: bool, b: Build, env: Env, state: MenuState, s: Settings,
                    input: Option<string>): StepResult
  {
    match state
    case Begin => MenuScreen(b, s, input)
    case HelpOption =>
      StepResult(Begin, s, !env.hasXdgOpen)
    case CameraOption => CameraScreen(env, s, input)
    case SaveOption =>
      if input.None? then StepResult(Begin, s, true)
      else StepResult(SaveOption, s.(calibrationSave := !s.calibrationSave), true)
    case SaveDirOption =>
      (match input
       case None => StepResult(Begin, s, true)
       case Some(line) =>
         StepResult(Begin, if line != "" then s.(calibSaveDir := Some(line)) else s, true))
    case UploadOption =>
      if input.None? then StepResult(Begin, s, true)
      else StepResult(UploadOption, s.(calibrationUpload := !s.calibrationUpload), true)
    case ServerURLOption =>
      if !serverHandlers then StepResult(ServerURLOption, s, false)
      else
        (match input
         case None => StepResult(Begin, s, true)
         case Some(line) =>
           StepResult(Begin, if line != "" then s.(serverUploadURL := Some(line)) else s, true))
    case ServerTokenOption =>
      if !serverHandlers then StepResult(ServerTokenOption, s, false)
      else
        (match input
         case None => StepResult(Begin, s, true)
         case Some(line) =>
           StepResult(Begin, if line != "" then s.(serverAuthenticationToken := Some(line)) else s, true))
    case PatternTypeOption => TypeScreen(s, input)
    case PatternSizeOption => SizeScreen(s, input)
    case PatternSpacingOption => SpacingScreen(env, s, input)
    case End =>
      StepResult(End, s, false)
  }

  /** The top menu: a typed number chooses an option; [esc], an empty line or no number ends the session. */
  function MenuScreen(b: Build, s: Settings, input: Option<string>): StepResult
  {
    match input
    case None => StepResult(End, s, true)
    case Some(line) =>
      match TypedNumber(line)
      case None => StepResult(End, s, true)
      case Some(n) => StepResult(MenuChoice(b, n), s, true)
  }

  /**
   * The camera screen: with no source list the session ends; an empty list
   * reads nothing; a number within the list selects that source's token.
   */
  function CameraScreen(env: Env, s: Settings, input: Option<string>): StepResult
  {
    match env.sources
    case None => StepResult(End, s, false)
    case Some(list) =>
      if list == [] then StepResult(Begin, s, false)
      else match input
        case None => StepResult(Begin, s, true)
        case Some(line) =>
          match TypedNumber(line)
          case None => StepResult(Begin, s, true)
          case Some(n) =>
            if 1 <= n <= |list| then StepResult(Begin, s.(cameraOpenToken := list[n - 1].openToken), true)
            else StepResult(Begin, s, true)
  }

  /** The pattern-type screen: choices 1, 2 and 3 store the type with its table defaults. */
  function TypeScreen(s: Settings, input: Option<string>): StepResult
  {
    match input
    case None => StepResult(Begin, s, true)
    case Some(line) =>
      match TypedNumber(line)
      case None => StepResult(Begin, s, true)
      case Some(n) =>
        match TypeOfChoice(n)
        case None => StepResult(Begin, s, true)
        case Some(t) =>
          StepResult(Begin, s.(patternType := Some(TypeName(t)),
                               patternSizeWidth := PatternSizeDefault(t).width,
                               patternSizeHeight := PatternSizeDefault(t).height,
                               patternSpacing := PatternSpacingDefault(t)), true)
  }

  /** The size screen: a line "%dx%d" reads in full sets both sides; the session returns to the menu. */
  function SizeScreen(s: Settings, input: Option<string>): StepResult
  {
    if input.None? || input.value == [] then StepResult(Begin, s, true)
    else match ScanSize(input.value)
      case None => StepResult(Begin, s, true)
      case Some((w, h)) => StepResult(Begin, s.(patternSizeWidth := w, patternSizeHeight := h), true)
  }

  /** The spacing screen: a line "%f" reads sets the spacing; the session returns to the menu. */
  function SpacingScreen(env: Env, s: Settings, input: Option<string>): StepResult
  {
    if input.None? || input.value == [] then StepResult(Begin, s, true)
    else match env.scanFloat(input.value)
      case None => StepResult(Begin, s, true)
      case Some(f) => StepResult(Begin, s.(patternSpacing := f), true)
  }

  /**
   * The URL and token screens as written: the menu lists them unless both
   * macros are defined, but their handlers are compiled only when neither is.
   */
  predicate ServerHandlersAsWritten(b: Build)
  {
    b.csuu.None? && b.csat.None?
  }

  /** The session step as written. */
  function Step(b: Build, env: Env, state: MenuState, s: Settings, input: Option<string>): StepResult
  {
    StepWith(ServerHandlersAsWritten(b), b, env, state, s, input)
  }

  /** The evidently intended step: every screen the menu offers has its handler. */
  function StepCorrected(b: Build, env: Env, state: MenuState, s: Settings, input: Option<string>): StepResult
  {
    StepWith(true, b, env, state, s, input)
  }

  /** The states that exist in the build: the URL and token screens only without a built-in server. */
  predicate InBuild(b: Build, state: MenuState)
  {
    BuiltInServer(b) ==> state != ServerURLOption && state != ServerTokenOption
  }

  /** Every step stays among the states of the build. */
  lemma StepStaysInBuild(b: Build, env: Env, state: MenuState, s: Settings, input: Option<string>)
    requires InBuild(b, state)
    ensures InBuild(b, Step(b, env, state, s, input).state)
    ensures InBuild(b, StepCorrected(b, env, state, s, input).state)
  {
    StepWithStaysInBuild(ServerHandlersAsWritten(b), b, env, state, s, input);
    StepWithStaysInBuild(true, b, env, state, s, input);
  }

  lemma StepWithStaysInBuild(serverHandlers: bool, b: Build, env: Env, state: MenuState, s: Settings,
                             input: Option<string>)
    requires InBuild(b, state)
    ensures InBuild(b, StepWith(serverHandlers, b, env, state, s, input).state)
  {
    if state == Begin && input.Some? {
      match TypedNumber(input.value)
      case None =>
      case Some(n) => MenuChoiceInBuild(b, n);
    }
  }

  /** No menu number leads to a screen the build does not have. */
  lemma MenuChoiceInBuild(b: Build, n: int)
    ensures InBuild(b, MenuChoice(b, n))
  {
  }

  /** With only ARTOOLKIT6_CSUU defined, choosing 6 at the top menu enters the URL screen... */
  lemma ServerScreenChosen(env: Env, s: Settings)
    ensures Step(Build(Some("u"), None), env, Begin, s, Some("6")).state == ServerURLOption
  {
    var b := Build(Some("u"), None);
    TypedSix();
    TopMenuCases(b, env, s, "6");
    assert MenuChoice(b, 6) == ServerURLOption;
  }

  /** ...which no branch handles as written: the session loop never moves on. */
  lemma ServerScreenStallsAsWritten(env: Env, s: Settings, input: Option<string>)
    ensures Step(Build(Some("u"), None), env, ServerURLOption, s, input) == StepResult(ServerURLOption, s, false)
  {
  }

  lemma TypedSix()
    ensures TypedNumber("6") == Some(6)
  {
    ScanIntOfIntToString(6, "");
    assert IntToString(6) + "" == "6";
  }

  /** In the two consistent builds the written and the intended steps agree on the build's states. */
  lemma StepAgreesInConsistentBuilds(b: Build, env: Env, state: MenuState, s: Settings, input: Option<string>)
    requires b.csuu.Some? == b.csat.Some?
    requires InBuild(b, state)
    ensures Step(b, env, state, s, input) == StepCorrected(b, env, state, s, input)
  {
  }

  /** The rank that falls on every step that reads no input. */
  function Rank(state: MenuState): nat
  {
    if state == End then 0 else if state == Begin then 1 else 2
  }

  /**
   * The intended session always moves on: a step reads a line, or (on a
   * screen that reads none, or on [esc]) lowers the rank, toward the top
   * menu and from there to the end.
   */
  lemma StepCorrectedProgress(b: Build, env: Env, state: MenuState, s: Settings, input: Option<string>)
    requires state != End
    ensures var r := StepCorrected(b, env, state, s, input);
      (!r.consumed || input.None?) ==> Rank(r.state) < Rank(state)
  {
  }

  /** The session from `state` on, reading inputs[pos..]; once they run out every read is [esc]. */
  function Run(b: Build, env: Env, state: MenuState, s: Settings, inputs: seq<Option<string>>, pos: nat): Settings
    requires pos <= |inputs|
    decreases |inputs| - pos, Rank(state)
  {
    if state == End then s
    else
      var input := if pos < |inputs| then inputs[pos] else None;
      var r := StepCorrected(b, env, state, s, input);
      StepCorrectedProgress(b, env, state, s, input);
      if r.consumed && pos < |inputs| then Run(b, env, r.state, r.settings, inputs, pos + 1)
      else Run(b, env, r.state, r.settings, inputs, pos)
  }

  /** One step of the session, as Run takes it. */
  lemma RunStep(b: Build, env: Env, state: MenuState, s: Settings, inputs: seq<Option<string>>, pos: nat)
    requires pos <= |inputs| && state != End
    ensures var input := if pos < |inputs| then inputs[pos] else None;
      var r := StepCorrected(b, env, state, s, input);
      Run(b, env, state, s, inputs, pos)
        == Run(b, env, r.state, r.settings, inputs, if r.consumed && pos < |inputs| then pos + 1 else pos)
  {
  }

  /** [esc] at the top menu ends the session with the settings as they were. */
  lemma EscapeAtTopMenu(b: Build, env: Env, s: Settings, inputs: seq<Option<string>>)
    requires |inputs| > 0 && inputs[0].None?
    ensures Run(b, env, Begin, s, inputs, 0) == s
  {
  }

  /** [esc] changes no setting, on any screen. */
  lemma EscapeChangesNothing(b: Build, env: Env, state: MenuState, s: Settings)
    ensures Step(b, env, state, s, None).settings == s
    ensures state != End && state != ServerURLOption && state != ServerTokenOption ==>
      Step(b, env, state, s, None).state == (if state == Begin || (env.sources.None? && state == CameraOption) then End else Begin)
  {
  }

  /**
   * The top menu never changes a setting; an empty or non-numeric line
   * ends the session, and a number moves to its option (an unknown one
   * stays on the menu).
   */
  lemma TopMenuCases(b: Build, env: Env, s: Settings, line: string)
    ensures Step(b, env, Begin, s, Some(line)).settings == s
    ensures TypedNumber(line).None? ==> Step(b, env, Begin, s, Some(line)).state == End
    ensures TypedNumber(line).Some? ==> Step(b, env, Begin, s, Some(line)).state == MenuChoice(b, TypedNumber(line).value)
  {
  }

  /** The numbers outside the menu keep the session on it. */
  lemma MenuChoiceRange(b: Build, n: int)
    ensures MenuChoice(b, n) != End
    ensures MenuChoice(b, n) == Begin <==> n < 1 || n > (if BuiltInServer(b) then 8 else 10)
    ensures InBuild(b, MenuChoice(b, n))
  {
  }

  /**
   * Any line typed on the save screen flips the flag and stays there, so
   * two lines restore it; only [esc] returns to the menu.
   */
  lemma SaveToggleTwice(b: Build, env: Env, s: Settings, first: string, second: string)
    ensures var r1 := Step(b, env, SaveOption, s, Some(first));
      r1.state == SaveOption && r1.settings == s.(calibrationSave := !s.calibrationSave)
      && Step(b, env, SaveOption, r1.settings, Some(second)).settings == s
  {
  }

  /** The upload screen behaves the same way on the upload flag. */
  lemma UploadToggleTwice(b: Build, env: Env, s: Settings, first: string, second: string)
    ensures var r1 := Step(b, env, UploadOption, s, Some(first));
      r1.state == UploadOption && r1.settings == s.(calibrationUpload := !s.calibrationUpload)
      && Step(b, env, UploadOption, r1.settings, Some(second)).settings == s
  {
  }

  /**
   * Choosing type 1, 2 or 3 stores the type with its table defaults, and
   * the getters then report that type; the circles grid has no table
   * entry, so its size and spacing read back as the chessboard's. Any
   * other number changes nothing.
   */
  lemma PatternTypeChoice(b: Build, env: Env, s: Settings, line: string)
    requires TypedNumber(line).Some?
    ensures var r := Step(b, env, PatternTypeOption, s, Some(line));
      r.state == Begin
      && match TypeOfChoice(TypedNumber(line).value)
        case None => r.settings == s
        case Some(t) =>
          PatternTypeOf(Some(r.settings)) == t
          && PatternSizeOf(Some(r.settings)) == (if HasDefaults(t) then PatternSizeDefault(t) else Size(7, 5))
          && PatternSpacingOf(Some(r.settings)) == (if HasDefaults(t) then PatternSpacingDefault(t) else 30.0)
  {
    TypeStepIsScreen(b, env, s, Some(line));
    match TypeOfChoice(TypedNumber(line).value)
    case None =>
    case Some(t) =>
      TypeNameRoundTrip(s.(patternSizeWidth := PatternSizeDefault(t).width,
                           patternSizeHeight := PatternSizeDefault(t).height,
                           patternSpacing := PatternSpacingDefault(t)), t);
  }

  lemma TypeStepIsScreen(b: Build, env: Env, s: Settings, input: Option<string>)
    ensures Step(b, env, PatternTypeOption, s, input) == TypeScreen(s, input)
  {
  }

  /** A line that scans as a size sets both dimensions and returns to the menu. */
  lemma SizeScreenOfScan(s: Settings, line: string, w: int, h: int)
    requires line != [] && ScanSize(line) == Some((w, h))
    ensures SizeScreen(s, Some(line)) == StepResult(Begin, s.(patternSizeWidth := w, patternSizeHeight := h), true)
  {
  }

  /** Typing "<w>x<h>" on the size screen stores the size, which the getter returns when both are positive. */
  lemma PatternSizeEntry(b: Build, env: Env, s: Settings, w: int, h: int)
    ensures var r := Step(b, env, PatternSizeOption, s, Some(IntToString(w) + ("x" + IntToString(h))));
      r.state == Begin && r.settings == s.(patternSizeWidth := w, patternSizeHeight := h)
      && (w > 0 && h > 0 ==> PatternSizeOf(Some(r.settings)) == Size(w, h))
  {
    var line := IntToString(w) + ("x" + IntToString(h));
    ScanSizeOfText(w, h);
    SizeScreenOfScan(s, line, w, h);
    SizeStepIsScreen(b, env, s, Some(line));
  }

  lemma SizeStepIsScreen(b: Build, env: Env, s: Settings, input: Option<string>)
    ensures Step(b, env, PatternSizeOption, s, input) == SizeScreen(s, input)
  {
  }

  // ------------------------------------------------------------- handle

  /** The preferences handle: the settings of its configuration. */
  class Preferences {
    var settings: Settings

    constructor(settings: Settings)
      ensures this.settings == settings
    {
      this.settings := settings;
    }

    /**
     * showPreferencesThread: the session loop, until the top menu is left.
     * `inputs` are the lines typed at successive prompts (None for [esc]);
     * after the last one every prompt is dismissed.
     */
    method ShowPreferences(b: Build, env: Env, inputs: seq<Option<string>>)
      requires b.csuu.Some? == b.csat.Some?
      modifies this`settings
      ensures settings == Run(b, env, Begin, old(settings), inputs, 0)
    {
      var state := Begin;
      var pos := 0;
      while state != End
        invariant pos <= |inputs| && InBuild(b, state)
        invariant Run(b, env, state, settings, inputs, pos) == Run(b, env, Begin, old(settings), inputs, 0)
        decreases |inputs| - pos, Rank(state)
      {
        var input := if pos < |inputs| then inputs[pos] else None;
        StepAgreesInConsistentBuilds(b, env, state, settings, input);
        StepCorrectedProgress(b, env, state, settings, input);
        StepStaysInBuild(b, env, state, settings, input);
        RunStep(b, env, state, settings, inputs, pos);
        var r := Step(b, env, state, settings, input);
        state, settings := r.state, r.settings;
        if r.consumed && pos < |inputs| {
          pos := pos + 1;
        }
      }
    }
  }
}
