/**
 * The preference stubs of the platforms without a preferences store:
 * there is never a handle, and every getter answers its default whatever
 * handle it is given.
 */
module PrefsNull {
  import opened Basics
  import opened CalibrationPattern
  import PrefsLibConfig

  /** initPreferences: no store, so no handle. */
  function InitPreferences(): Option<PrefsLibConfig.Settings>
  {
    None
  }

  function CameraOpenToken(preferences: Option<PrefsLibConfig.Settings>): Option<string>
  {
    None
  }

  function CameraResolutionToken(preferences: Option<PrefsLibConfig.Settings>): Option<string>
  {
    None
  }

  function CalibrationSave(preferences: Option<PrefsLibConfig.Settings>): bool
  {
    false
  }

  function ServerUploadURL(preferences: Option<PrefsLibConfig.Settings>): Option<string>
  {
    None
  }

  function ServerAuthenticationToken(preferences: Option<PrefsLibConfig.Settings>): Option<string>
  {
    None
  }

  function PatternTypeOf(preferences: Option<PrefsLibConfig.Settings>): PatternType
  {
    PatternTypeDefault
  }

  function PatternSizeOf(preferences: Option<PrefsLibConfig.Settings>): Size
  {
    PatternSizeDefault(PatternTypeDefault)
  }

  function PatternSpacingOf(preferences: Option<PrefsLibConfig.Settings>): real
  {
    PatternSpacingDefault(PatternTypeDefault)
  }

  /** getPreferenceCalibSaveDir; `resourcesDir` is what arUtilGetResourcesDirectoryPath returns. */
  function CalibSaveDir(preferences: Option<PrefsLibConfig.Settings>, resourcesDir: Option<string>): Option<string>
  {
    resourcesDir
  }

  /** The stubs answer the 7 x 5 chessboard with 30 mm squares, no saving and no upload. */
  lemma StubDefaults(preferences: Option<PrefsLibConfig.Settings>)
    ensures InitPreferences() == None
    ensures CameraOpenToken(preferences) == None && CameraResolutionToken(preferences) == None
    ensures !CalibrationSave(preferences)
    ensures ServerUploadURL(preferences) == None && ServerAuthenticationToken(preferences) == None
    ensures PatternTypeOf(preferences) == Chessboard
    ensures PatternSizeOf(preferences) == Size(7, 5) && PatternSpacingOf(preferences) == 30.0
  {
  }

  /**
   * Whatever handle they are given, the stubs answer what the libconfig
   * getters answer without a handle (in any build).
   */
  lemma StubsMatchMissingHandle(b: PrefsLibConfig.Build, preferences: Option<PrefsLibConfig.Settings>,
                                resourcesDir: Option<string>)
    ensures CameraOpenToken(preferences) == PrefsLibConfig.CameraOpenToken(None)
    ensures CameraResolutionToken(preferences) == PrefsLibConfig.CameraResolutionToken(None)
    ensures CalibrationSave(preferences) == PrefsLibConfig.CalibrationSave(None)
    ensures ServerUploadURL(preferences) == PrefsLibConfig.ServerUploadURL(b, None)
    ensures ServerAuthenticationToken(preferences) == PrefsLibConfig.ServerAuthenticationToken(b, None)
    ensures PatternTypeOf(preferences) == PrefsLibConfig.PatternTypeOf(None)
    ensures PatternSizeOf(preferences) == PrefsLibConfig.PatternSizeOf(None)
    ensures PatternSpacingOf(preferences) == PrefsLibConfig.PatternSpacingOf(None)
    ensures CalibSaveDir(preferences, resourcesDir) == PrefsLibConfig.CalibSaveDir(None, resourcesDir)
  {
  }
}
