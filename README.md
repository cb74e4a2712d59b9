# ARToolKit 6 Unity scripts and calibration tool — a Dafny model

This project models the sequential logic around the ARToolKit 6 tracking engine.
That logic lives in two places:

- the Unity C# scripts: the AR controller, trackables, matrix helpers, the
  trackable inspector's decisions and the gizmo stroke font;
- the `artoolkit6-calibration` camera-calibration tool: the capture stack,
  the object-point grid, the camera-parameter layout, error aggregation, the
  preferences getters and text menu, the upload queue, and the naming and
  indexing of saved calibrations.

The tracking engine, OpenCV, libconfig, curl, MD5 and the operating system
are outside the model. Their results are parameters: booleans and numbers
such as "the native start succeeded" or "the tracker reports this
threshold", or function-typed parameters such as `host.addMarker`,
`dest` (GetFileFromStreamingAssets), `fileNameOf` (basename), `extOf`
(the extension of a directory entry), `fileExists`, `scanFloat` (`%f`) and
`fmt` (C# float formatting). Calls that the source makes into those
libraries are recorded, in order, in a trace field (`nativeCalls`,
`events`), so each contract can say which calls happen and in which order.

One module per source file:

| module | file | source |
|---|---|---|
| `Controller` | ar_controller.dfy | `ARController.cs` |
| `Trackable` | ar_trackable.dfy | `ARTrackable.cs` |
| `ARUtility` | ar_utility.dfy | `System/ARUtilityFunctions.cs` |
| `TrackableEditor` | trackable_editor.dfy | `Editor/ARTrackableEditor.cs` |
| `TrackableGizmo` | trackable_gizmo.dfy | `Editor/ARTrackableGizmo.cs` |
| `CalibrationPattern` | calibration_pattern.dfy | the pattern tables of `Calibration.cpp` |
| `Calibration` | calibration.dfy | `Calibration.cpp`, `Calibration.hpp` |
| `Calc` | calc.dfy | `calc.cpp` |
| `FileUploader` | file_uploader.dfy | `fileUploader.c`, `fileUploader.h` |
| `PrefsLibConfig` | prefs_libconfig.dfy | `prefsLibConfig.cpp` |
| `PrefsNull` | prefs_null.dfy | `prefsNull.cpp` |
| `CalibCamera` | calib_camera.dfy | `calib_camera.cpp` |
| `Basics` | basics.dfy | decimal and hex text, parsing, string search, C# integer division |

## Structure of the model

- Objects whose fields the source updates become classes with those fields.
  These are `ARController`, `MessageLog`, `ARTrackable`, `Calibration`,
  `FileUploadHandle`, `Preferences` and the calibration tool's globals
  `CalibCameraGlobals`.
- Methods that loop in the source are Dafny methods with loops and
  invariants. Each is proved against a specification function:
  - `Log`'s trimming loop;
  - the colour-buffer fill of `CreateVideoBackgroundMesh`;
  - `MatrixFromFloatArray`;
  - `UpdatePatternDetectionMode` and `DetermineTrackableType`;
  - `DrawLetter` and `DrawWord`;
  - `calcChessboardCorners`, `getSizeFactor` and the error loop;
  - `get_buff`, the index-file parser and the queue scan;
  - the menu loop of `showPreferencesThread`;
  - the device-id sanitiser and the hex encoder.
- Pure conditionals become functions, for example the viewport, the
  orientation tables, the preference getters and the status messages.

Integers are unbounded. C#'s truncating division is written out as
`Basics.DivTrunc`. The one place where an unsigned wrap matters is the
`size_t` comparison in `Calibration::capture`, which is written out as
`Calibration.AsSizeT`. Floats are `real`.

## Model

| member | source | states |
|---|---|---|
| Controller.MessageLog.constructor | ARToolkit6/Assets/ARToolKit-Unity/Scripts/ARController.cs:83-84 | the log starts empty |
| Controller.MessageLog.Log | ARToolkit6/Assets/ARToolKit-Unity/Scripts/ARController.cs:1619-1625 | the message becomes the last entry; the length is min(old + 1, 1000); the buffer is the newest 1000 of old entries plus the message |
| Controller.NewestIsSuffix | ARToolkit6/Assets/ARToolKit-Unity/Scripts/ARController.cs:1621-1624 | trimming drops only the oldest entries: the kept ones are a suffix of the input, in the same order |
| Controller.IntOptionFromNative | ARToolkit6/Assets/ARToolKit-Unity/Scripts/ARController.cs:963-1128 | the threshold lies in 0..255 (an outside value becomes 100); a negative enum answer becomes that option's default; the 2D max-marker count passes through unchanged |
| Controller.OptionFromNativeNonNegative | ARToolkit6/Assets/ARToolKit-Unity/Scripts/ARController.cs:963-1111 | for every clamped option, the value read back is never negative |
| Controller.BorderSizeFromNative | ARToolkit6/Assets/ARToolKit-Unity/Scripts/ARController.cs:1015-1024 | the border size lies strictly between 0 and 0.5; any other native answer becomes 0.25 |
| Controller.Viewport | ARToolkit6/Assets/ARToolKit-Unity/Scripts/ARController.cs:1444-1505 | stereo: half the screen width, full height, left edge 0 or width/2 by eye; mono: Stretch gives the screen size, 1:1 the content size swapped under rotate90; left and bottom follow the nine alignments |
| Controller.MonoViewportOnScreen | ARToolkit6/Assets/ARToolKit-Unity/Scripts/ARController.cs:1456-1500 | a mono viewport no larger than the screen lies on the screen under every alignment, and Stretch covers it exactly |
| Controller.StereoViewportsAdjacent | ARToolkit6/Assets/ARToolKit-Unity/Scripts/ARController.cs:1449-1455 | the two eyes' viewports are equal-width, side by side from the left edge, leaving at most one column unused |
| Controller.NextContentMode | ARToolkit6/Assets/ARToolKit-Unity/Scripts/ARController.cs:1507-1523 | cycling gives Stretch exactly from Fit and Fit from every other mode |
| Controller.CycleAlternates | ARToolkit6/Assets/ARToolKit-Unity/Scripts/ARController.cs:1507-1523 | after one step, cycling alternates between Stretch and Fit |
| Controller.CreateVideoBuffers | ARToolkit6/Assets/ARToolKit-Unity/Scripts/ARController.cs:1242-1280 | no buffers for a non-positive width or height; otherwise w*h colours, all the clear colour, and w*h texels, all opaque black |
| Controller.ARController.constructor | ARToolkit6/Assets/ARToolKit-Unity/Scripts/ARController.cs:304-316 | the controller starts stopped, with the documented option defaults (border 0.25, template size 16, count 25, Fit, centred) |
| Controller.ARController.StartupOptionWrites | ARToolkit6/Assets/ARToolKit-Unity/Scripts/ARController.cs:670-677 | a successful start writes eight stored options to the tracker |
| Controller.ARController.StartAR | ARToolkit6/Assets/ARToolKit-Unity/Scripts/ARController.cs:546-681 | already running: false, nothing changes; a missing parameter file: false and no native start; otherwise the result and the running flag equal the native start's result, the options are pushed only on success, and a failure shows the camera-in-use or no-camera message by error code |
| Controller.ARController.StartTracking | ARToolkit6/Assets/ARToolKit-Unity/Scripts/ARController.cs:646-680 | the result and the running flag are the native start's; on success the stored options are pushed, on failure the camera-in-use or no-camera message is shown by error code |
| Controller.ARController.StopAR | ARToolkit6/Assets/ARToolKit-Unity/Scripts/ARController.cs:834-855 | returns whether it was running; afterwards it is not running; the stop and shutdown calls happen only when it was |
| Controller.ARController.OnApplicationPause | ARToolkit6/Assets/ARToolKit-Unity/Scripts/ARController.cs:462-476 | pausing while running sends stop and shutdown, sets run-on-unpause and touches nothing else; resuming with it set clears it and has StartAR's outcome: nothing when already running, no native call and no dialog when a parameter file is missing, otherwise the start call, running iff the native start succeeded, the option writes on success and the error dialog chosen by the error code on failure; every other case changes nothing |
| Controller.ARController.GetIntOption | ARToolkit6/Assets/ARToolKit-Unity/Scripts/ARController.cs:963-1128 | while running, the stored option becomes the clamped native value; while stopped, the stored value is returned untouched |
| Controller.ARController.SetIntOption | ARToolkit6/Assets/ARToolKit-Unity/Scripts/ARController.cs:963-1128 | the value is stored, and sent to the tracker only while running |
| Controller.ARController.GetBorderSize | ARToolkit6/Assets/ARToolKit-Unity/Scripts/ARController.cs:1015-1024 | while running, the stored border size becomes the clamped native value; otherwise it is returned unchanged |
| Controller.ARController.SetBorderSize | ARToolkit6/Assets/ARToolKit-Unity/Scripts/ARController.cs:1025-1031 | the border size is stored, and sent to the tracker only while running |
| Controller.ARController.SetTemplateSize | ARToolkit6/Assets/ARToolKit-Unity/Scripts/ARController.cs:1033-1044 | the template size is stored; a changed value logs the "template size changed. Please reload scene" warning, and the same value leaves the log as it was |
| Controller.ARController.SetTemplateCountMax | ARToolkit6/Assets/ARToolKit-Unity/Scripts/ARController.cs:1046-1057 | the template maximum count is stored; a changed value logs the "template maximum count changed. Please reload scene" warning, and the same value leaves the log as it was |
| Controller.ARController.SetContentMode | ARToolkit6/Assets/ARToolKit-Unity/Scripts/ARController.cs:1140-1152 | the content mode is stored |
| Controller.ARController.CycleContentMode | ARToolkit6/Assets/ARToolKit-Unity/Scripts/ARController.cs:1507-1523 | the content mode moves one step along the cycle |
| Controller.ARController.GetViewport | ARToolkit6/Assets/ARToolKit-Unity/Scripts/ARController.cs:1444-1505 | in stereo each eye gets its half of the screen at full height; otherwise Stretch fills the screen, OneToOne takes the content size (swapped when rotated), Fit and Fill take the fitted size, and the left/right/bottom/top alignment puts that edge on the screen edge (centred otherwise) |
| Controller.ARController.SetContentForScreenOrientation | ARToolkit6/Assets/ARToolKit-Unity/Scripts/ARController.cs:862-881 | the four fixed orientations set rotate90, flipV and flipH from the table; any other orientation leaves all three untouched |
| Controller.OrientationFlagsStructure | ARToolkit6/Assets/ARToolKit-Unity/Scripts/ARController.cs:862-881 | exactly the four fixed orientations have flags; rotation iff portrait; vertical flip iff upside down; horizontal flip is the front-facing flag exclusive-or the vertical flip |
| Trackable.Configuration | ARToolkit6/Assets/ARToolKit-Unity/Scripts/ARTrackable.cs:348-397 | the configuration is empty for a TwoD or multimarker with no file name or a missing asset; Square and barcode always have one; a non-empty one starts with its type's tag and a ';' |
| Trackable.ConfigurationTag | ARToolkit6/Assets/ARToolKit-Unity/Scripts/ARTrackable.cs:85-88 | the field before the first ';' of a non-empty configuration is the type's tag |
| Trackable.TypeTagInjective | ARToolkit6/Assets/ARToolKit-Unity/Scripts/ARTrackable.cs:85-88 | different trackable types have different configuration tags |
| Trackable.BarcodeConfigurationID | ARToolkit6/Assets/ARToolKit-Unity/Scripts/ARTrackable.cs:374 | the barcode configuration's second field reads back as the barcode ID |
| Trackable.BarcodeConfigurationWidth | ARToolkit6/Assets/ARToolKit-Unity/Scripts/ARTrackable.cs:372-375 | the barcode configuration's third field is the marker width times 1000, formatted |
| Trackable.AssetConfigurationPath | ARToolkit6/Assets/ARToolKit-Unity/Scripts/ARTrackable.cs:354-386 | the second field of a non-empty 2D or multimarker configuration is the asset directory, when that path has no ';' |
| Trackable.TwoDConfigurationHeight | ARToolkit6/Assets/ARToolKit-Unity/Scripts/ARTrackable.cs:364-366 | the third field of a non-empty 2D configuration is the image height times 1000, formatted |
| Trackable.SquareConfigurationFields | ARToolkit6/Assets/ARToolKit-Unity/Scripts/ARTrackable.cs:368-371 | a square configuration reads back as the width times 1000 and then "buffer=" followed by the pattern contents, when the formatted width has no ';' |
| Trackable.FrameStep | ARToolkit6/Assets/ARToolKit-Unity/Scripts/ARTrackable.cs:471-536 | unloaded: only visible becomes false; loaded: visible takes the tracker's answer, the children and the Found/Lost notification change only when visibility changes, and Tracked follows on every visible frame |
| Trackable.FrameStepLoaded | ARToolkit6/Assets/ARToolKit-Unity/Scripts/ARTrackable.cs:486-527 | from a consistent state, a loaded frame keeps children active iff visible; Found and Lost come only with the matching change of visibility, and Tracked exactly on visible frames |
| Trackable.FrameStepLeavesChildrenShown | ARToolkit6/Assets/ARToolKit-Unity/Scripts/ARTrackable.cs:478-481 | a visible trackable that is unloaded for one frame gets no Lost notification, and after it is loaded again it stays invisible with its children still shown |
| Trackable.FrameStepCorrected | ARToolkit6/Assets/ARToolKit-Unity/Scripts/ARTrackable.cs:471-536 | the corrected rule agrees with the source whenever the trackable is loaded |
| Trackable.FrameStepCorrectedConsistent | ARToolkit6/Assets/ARToolKit-Unity/Scripts/ARTrackable.cs:478-527 | under the corrected rule children are active iff visible after every frame, and unloading a visible trackable sends Lost |
| Trackable.ScaleTranslation | ARToolkit6/Assets/ARToolKit-Unity/Scripts/ARTrackable.cs:496-500 | only the translation entries 12-14 change, each multiplied by 1/1000 |
| Trackable.TrackedPosition | ARToolkit6/Assets/ARToolKit-Unity/Scripts/ARTrackable.cs:494-505 | the tracked position is the raw translation in metres, with z negated by the handedness conversion |
| Trackable.PatternList | ARToolkit6/Assets/ARToolKit-Unity/Scripts/ARTrackable.cs:418-428 | pattern i of the marker is the pattern (uid, i), for every i below the count |
| Trackable.ARTrackable.constructor | ARToolkit6/Assets/ARToolKit-Unity/Scripts/ARTrackable.cs:308-331 | a new trackable is unloaded, has no patterns, and has the field defaults |
| Trackable.ARTrackable.Load | ARToolkit6/Assets/ARToolKit-Unity/Scripts/ARTrackable.cs:337-432 | loaded already: nothing changes; otherwise the UID is the add call's result (NO_ID when not inited or the configuration is empty), the calls are the add call and the continuous-pose option write of a square marker, a 2D marker's width is fetched, any other loaded marker's pattern list is fetched when it has appearances, and nothing is fetched without a UID; the filter and pose options are kept |
| Trackable.ARTrackable.ReapplyOptions | ARToolkit6/Assets/ARToolKit-Unity/Scripts/ARTrackable.cs:406-413 | the stored filter, pose-estimation and (square) width options are written to the loaded marker in order |
| Trackable.ARTrackable.FetchAppearances | ARToolkit6/Assets/ARToolKit-Unity/Scripts/ARTrackable.cs:415-430 | a 2D image records its width from the native size; other types get one pattern per native pattern count |
| Trackable.ARTrackable.Unload | ARToolkit6/Assets/ARToolKit-Unity/Scripts/ARTrackable.cs:434-446 | unloaded: nothing changes; otherwise UID becomes NO_ID and the patterns are dropped, and the native remove happens only while inited |
| Trackable.ARTrackable.SetType | ARToolkit6/Assets/ARToolKit-Unity/Scripts/ARTrackable.cs:115-126 | an equal value changes nothing; a new one is stored and the marker reloaded: the native calls are the old calls, then RemoveMarker for a loaded marker while inited, then the calls of Load; the UID, the 2D width and the pattern list are those Load gives from NO_ID with the patterns already dropped by the unload; the filter and pose options are kept |
| Trackable.ARTrackable.SetPatternContents | ARToolkit6/Assets/ARToolKit-Unity/Scripts/ARTrackable.cs:128-139 | an equal value changes nothing; a new one is stored and the marker reloaded: the native calls are the old calls, then RemoveMarker for a loaded marker while inited, then the calls of Load; the UID, the 2D width and the pattern list are those Load gives from NO_ID with the patterns already dropped by the unload; the filter and pose options are kept |
| Trackable.ARTrackable.SetPatternWidth | ARToolkit6/Assets/ARToolKit-Unity/Scripts/ARTrackable.cs:141-152 | an equal value changes nothing; a new one is stored and the marker reloaded: the native calls are the old calls, then RemoveMarker for a loaded marker while inited, then the calls of Load; the UID, the 2D width and the pattern list are those Load gives from NO_ID with the patterns already dropped by the unload; the filter and pose options are kept |
| Trackable.ARTrackable.SetBarcodeID | ARToolkit6/Assets/ARToolKit-Unity/Scripts/ARTrackable.cs:155-166 | an equal value changes nothing; a new one is stored and the marker reloaded: the native calls are the old calls, then RemoveMarker for a loaded marker while inited, then the calls of Load; the UID, the 2D width and the pattern list are those Load gives from NO_ID with the patterns already dropped by the unload; the filter and pose options are kept |
| Trackable.ARTrackable.SetMultiConfigFile | ARToolkit6/Assets/ARToolKit-Unity/Scripts/ARTrackable.cs:169-180 | an equal value changes nothing; a new one is stored and the marker reloaded: the native calls are the old calls, then RemoveMarker for a loaded marker while inited, then the calls of Load; the UID, the 2D width and the pattern list are those Load gives from NO_ID with the patterns already dropped by the unload; the filter and pose options are kept |
| Trackable.ARTrackable.SetTwoDImageName | ARToolkit6/Assets/ARToolKit-Unity/Scripts/ARTrackable.cs:183-194 | an equal value changes nothing; a new one is stored and the marker reloaded: the native calls are the old calls, then RemoveMarker for a loaded marker while inited, then the calls of Load; the UID, the 2D width and the pattern list are those Load gives from NO_ID with the patterns already dropped by the unload; the filter and pose options are kept |
| Trackable.ARTrackable.SetFiltered | ARToolkit6/Assets/ARToolKit-Unity/Scripts/ARTrackable.cs:214-230 | the value is stored even while unloaded, and written to the marker only when it changed and the marker is loaded |
| Trackable.ARTrackable.SetFilterSampleRate | ARToolkit6/Assets/ARToolKit-Unity/Scripts/ARTrackable.cs:232-247 | the stored sample rate never changes; the value is written to the marker when it differs and the marker is loaded |
| Trackable.ARTrackable.SetFilterCutoffFreq | ARToolkit6/Assets/ARToolKit-Unity/Scripts/ARTrackable.cs:249-265 | the value is stored even while unloaded, and written only when it changed and the marker is loaded |
| Trackable.ARTrackable.SetUseContPoseEstimation | ARToolkit6/Assets/ARToolKit-Unity/Scripts/ARTrackable.cs:267-283 | the value is stored even while unloaded, and written only when it changed and the marker is loaded |
| Trackable.ARTrackable.SetTwoDImageHeight | ARToolkit6/Assets/ARToolKit-Unity/Scripts/ARTrackable.cs:285-304 | the value is stored even while unloaded, and written only when it changed and the marker is loaded |
| Trackable.ARTrackable.LateUpdate | ARToolkit6/Assets/ARToolKit-Unity/Scripts/ARTrackable.cs:471-536 | the frame follows FrameStep; while visible the pose is the scaled, handedness-converted tracker matrix, and a Tracked notification is sent on every such frame |
| Trackable.ARTrackable.ClearUnusedValues | ARToolkit6/Assets/ARToolKit-Unity/Scripts/ARTrackable.cs:538-558 | patterns are dropped; each field the current type does not use is reset to its default; the fields it uses keep their values |
| ARUtility.Slot | ARToolkit6/Assets/ARToolKit-Unity/Scripts/System/ARUtilityFunctions.cs:73-80 | the column-major slot of (row, col) is below 16 and determines both |
| ARUtility.MatrixFromFloatArray | ARToolkit6/Assets/ARToolKit-Unity/Scripts/System/ARUtilityFunctions.cs:73-80 | no matrix (the exception) iff the array is null or shorter than 16; otherwise the matrix is the first 16 entries, extra entries ignored |
| ARUtility.LHMatrixFromRHMatrix | ARToolkit6/Assets/ARToolKit-Unity/Scripts/System/ARUtilityFunctions.cs:96-130 | exactly the entries of row 2 or column 2, other than (2,2), are negated; every other entry is unchanged |
| ARUtility.LHIsRowThenColumnNegation | ARToolkit6/Assets/ARToolKit-Unity/Scripts/System/ARUtilityFunctions.cs:96-130 | the conversion is negating row 2 and then column 2 |
| ARUtility.LHInvolution | ARToolkit6/Assets/ARToolKit-Unity/Scripts/System/ARUtilityFunctions.cs:96-130 | converting twice gives back the input |
| ARUtility.PositionFromMatrix | ARToolkit6/Assets/ARToolKit-Unity/Scripts/System/ARUtilityFunctions.cs:91-94 | the position is the x, y, z of column 3 |
| ARUtility.PositionOfLHMatrix | ARToolkit6/Assets/ARToolKit-Unity/Scripts/System/ARUtilityFunctions.cs:91-130 | the position of a converted matrix is the original position with z negated |
| ARUtility.RotationFromMatrix | ARToolkit6/Assets/ARToolKit-Unity/Scripts/System/ARUtilityFunctions.cs:82-89 | the identity iff column 2 is zero; otherwise the look rotation of columns 2 and 1 |
| TrackableEditor.DetectionMode | ARToolkit6/Assets/ARToolKit-Unity/Scripts/Editor/ARTrackableEditor.cs:248-263 | template and matrix markers give the *_AND_MATRIX mode; template only gives COLOR or MONO; otherwise matrix-code detection |
| TrackableEditor.UpdatePatternDetectionMode | ARToolkit6/Assets/ARToolKit-Unity/Scripts/Editor/ARTrackableEditor.cs:226-264 | the mode chosen is the one for "some Square or multimarker" and "some barcode or multimarker" in the scene |
| TrackableEditor.DetectionModeOrderIndependent | ARToolkit6/Assets/ARToolKit-Unity/Scripts/Editor/ARTrackableEditor.cs:229-246 | two scenes with the same set of trackable types get the same mode, whatever the order or repetition |
| TrackableEditor.DetectionModeWithoutSquares | ARToolkit6/Assets/ARToolKit-Unity/Scripts/Editor/ARTrackableEditor.cs:232-263 | a scene of only 2D images, or none, selects matrix-code detection |
| TrackableEditor.DetermineTrackableType | ARToolkit6/Assets/ARToolKit-Unity/Scripts/Editor/ARTrackableEditor.cs:267-287 | the type is the one of the index range the marker index falls in |
| TrackableEditor.TypeAtIndexRanges | ARToolkit6/Assets/ARToolKit-Unity/Scripts/Editor/ARTrackableEditor.cs:267-287 | the consecutive ranges of the image, pattern, multimarker and barcode counts map to TwoD, Square, Multimarker and SquareBarcode; past the end is Square |
| TrackableEditor.BarcodeIDRoundTrip | ARToolkit6/Assets/ARToolKit-Unity/Scripts/Editor/ARTrackableEditor.cs:176-177 | a marker named "<words> <id>" yields the ID id, for every 32-bit id |
| Basics.AfterLast | ARToolkit6/Assets/ARToolKit-Unity/Scripts/Editor/ARTrackableEditor.cs:335 | the text after the last separator: it holds no separator, ends the input, and follows a separator unless it is the whole input (also the last element of a split, line 176) |
| TrackableEditor.CopyToStreamingAssets | ARToolkit6/Assets/ARToolKit-Unity/Scripts/Editor/ARTrackableEditor.cs:334-351 | rejected iff the name contains neither ".jpg" nor ".jpeg"; the destination is copied only when absent, never overwritten; it is the images directory plus the file name |
| TrackableEditor.JpgAccepted | ARToolkit6/Assets/ARToolKit-Unity/Scripts/Editor/ARTrackableEditor.cs:334-351 | a file ending in ".jpg" is accepted in any directory |
| TrackableEditor.ChangeMarkerType | ARToolkit6/Assets/ARToolKit-Unity/Scripts/Editor/ARTrackableEditor.cs:110-115 | the unused values are cleared for the old type before the new type is assigned and the marker reloaded |
| TrackableGizmo.Rectangle | ARToolkit6/Assets/ARToolKit-Unity/Scripts/Editor/ARTrackableGizmo.cs:146-157 | four segments forming a closed loop up, right, down and left, centred on the centre |
| TrackableGizmo.LettersDomain | ARToolkit6/Assets/ARToolKit-Unity/Scripts/Editor/ARTrackableGizmo.cs:159-229 | a character has a glyph iff it is printable ASCII and not a lower-case letter |
| TrackableGizmo.GlyphsBelowLetters | ARToolkit6/Assets/ARToolKit-Unity/Scripts/Editor/ARTrackableGizmo.cs:160-192 | every character from ' ' to '@' has a glyph |
| TrackableGizmo.GlyphsOfUpperCase | ARToolkit6/Assets/ARToolKit-Unity/Scripts/Editor/ARTrackableGizmo.cs:193-224 | every character from 'A' to '`' has a glyph |
| TrackableGizmo.GlyphsAfterLetters | ARToolkit6/Assets/ARToolKit-Unity/Scripts/Editor/ARTrackableGizmo.cs:225-228 | every character from '{' to '~' has a glyph |
| TrackableGizmo.NoGlyphOutside | ARToolkit6/Assets/ARToolKit-Unity/Scripts/Editor/ARTrackableGizmo.cs:159-229 | a character outside the printable range, or a lower-case letter, has no glyph |
| TrackableGizmo.TraceStrokeCount | ARToolkit6/Assets/ARToolKit-Unity/Scripts/Editor/ARTrackableGizmo.cs:252-254 | a path draws one stroke per ')' |
| TrackableGizmo.TraceDisplacement | ARToolkit6/Assets/ARToolKit-Unity/Scripts/Editor/ARTrackableGizmo.cs:255-266 | the pen ends at (#R - #L, #U - #D) grid steps from the origin |
| TrackableGizmo.TraceStrokesEndAtPen | ARToolkit6/Assets/ARToolKit-Unity/Scripts/Editor/ARTrackableGizmo.cs:252-254 | every stroke ends where the pen stood at one of the ')' of the path |
| TrackableGizmo.ToWorld | ARToolkit6/Assets/ARToolKit-Unity/Scripts/Editor/ARTrackableGizmo.cs:247-268 | each grid stroke becomes one world segment between the corresponding world points |
| TrackableGizmo.SpaceDrawsNothing | ARToolkit6/Assets/ARToolKit-Unity/Scripts/Editor/ARTrackableGizmo.cs:160 | the space glyph draws no segment |
| TrackableGizmo.AtMoves | ARToolkit6/Assets/ARToolKit-Unity/Scripts/Editor/ARTrackableGizmo.cs:255-266 | U and D move the pen by plus or minus forward times size; R and L by plus or minus right times size |
| TrackableGizmo.RunPath | ARToolkit6/Assets/ARToolKit-Unity/Scripts/Editor/ARTrackableGizmo.cs:247-268 | the loop emits the path's strokes in world coordinates, one per ')' |
| TrackableGizmo.TraceSnoc | ARToolkit6/Assets/ARToolKit-Unity/Scripts/Editor/ARTrackableGizmo.cs:247-266 | reading one more path character is one more pen step |
| TrackableGizmo.ToWorldSnoc | ARToolkit6/Assets/ARToolKit-Unity/Scripts/Editor/ARTrackableGizmo.cs:252-253 | one more grid line is one more world line at the end |
| TrackableGizmo.DrawLetter | ARToolkit6/Assets/ARToolKit-Unity/Scripts/Editor/ARTrackableGizmo.cs:238-269 | no drawing (the KeyNotFound exception) iff the letter has no glyph; otherwise one segment per ')' of its path |
| TrackableGizmo.ToUpper | ARToolkit6/Assets/ARToolKit-Unity/Scripts/Editor/ARTrackableGizmo.cs:231-236 | same length; lower-case ASCII letters become upper case, everything else is kept |
| TrackableGizmo.WordDefined | ARToolkit6/Assets/ARToolKit-Unity/Scripts/Editor/ARTrackableGizmo.cs:231-236 | a word whose letters all have glyphs is drawn completely |
| TrackableGizmo.UpperOfLowerDrawable | ARToolkit6/Assets/ARToolKit-Unity/Scripts/Editor/ARTrackableGizmo.cs:231-236 | upper-casing a printable ASCII word makes every character drawable |
| TrackableGizmo.CharOriginStep | ARToolkit6/Assets/ARToolKit-Unity/Scripts/Editor/ARTrackableGizmo.cs:231-236 | each next character is drawn six sizes further along right |
| TrackableGizmo.DrawWord | ARToolkit6/Assets/ARToolKit-Unity/Scripts/Editor/ARTrackableGizmo.cs:231-236 | the loop draws the upper-cased word, character k at origin + 6·k·size·right |
| TrackableGizmo.PrintableWordDrawn | ARToolkit6/Assets/ARToolKit-Unity/Scripts/Editor/ARTrackableGizmo.cs:159-236 | every printable ASCII word is drawn without a missing glyph |
| CalibrationPattern.PatternSizeDefault | artoolkit6-calibration-master/Calibration.cpp:110-114 | a pattern type has a (positive) default size iff it has a table entry; CIRCLES_GRID has none |
| CalibrationPattern.PatternSpacingDefault | artoolkit6-calibration-master/Calibration.cpp:115-119 | a pattern type has a positive default spacing iff it has a table entry |
| CalibrationPattern.DefaultPattern | artoolkit6-calibration-master/Calibration.cpp:110-119 | the default pattern is the 7x5 chessboard with spacing 30 |
| Calibration.AsSizeT | artoolkit6-calibration-master/Calibration.cpp:225 | the int maximum converted to size_t: unchanged when non-negative, wrapped into the upper half otherwise |
| Calibration.Calibration.constructor | artoolkit6-calibration-master/Calibration.cpp:121-136 | a new calibration holds its parameters and no captured corner sets |
| Calibration.Calibration.Capture | artoolkit6-calibration-master/Calibration.cpp:223-250 | full: false and nothing changes; otherwise exactly one corner set is appended, and true returned, iff all corners were found; the count never exceeds the maximum |
| Calibration.Calibration.Uncapture | artoolkit6-calibration-master/Calibration.cpp:252-257 | true iff the stack was non-empty; then only the last set is removed |
| Calibration.Calibration.UncaptureAll | artoolkit6-calibration-master/Calibration.cpp:259-264 | true iff the stack was non-empty; afterwards it is empty |
| Calibration.Calibration.Calib | artoolkit6-calibration-master/Calibration.cpp:266-269 | the calculation is run with the current number of captured sets as the image count |
| Calc.GridRow | artoolkit6-calibration-master/calc.cpp:39-50 | row j of the grid holds width points, point i being the corner (i, j) for the pattern |
| Calc.GridRows | artoolkit6-calibration-master/calc.cpp:39-50 | rows 0..j-1 of the grid, in order |
| Calc.FlattenLength | artoolkit6-calibration-master/calc.cpp:39-50 | concatenating rows of equal width w gives rows·w points |
| Calc.FlattenAt | artoolkit6-calibration-master/calc.cpp:39-50 | point j·w + i of the concatenation is point i of row j |
| Calc.CornerGridLength | artoolkit6-calibration-master/calc.cpp:34-55 | the grid has width·height points |
| Calc.CornerGridAt | artoolkit6-calibration-master/calc.cpp:34-55 | point j·width + i is (i·s, j·s, 0) for the chessboard and circles grid and ((2i + j mod 2)·s, j·s, 0) for the asymmetric grid |
| Calc.CalcChessboardCorners | artoolkit6-calibration-master/calc.cpp:34-55 | the nested loops produce exactly the row-major corner grid |
| Calc.ObjectPoints | artoolkit6-calibration-master/calc.cpp:78-82 | capturedImageNum copies of the grid |
| Calc.SmallestIsMinimum | artoolkit6-calibration-master/calc.cpp:214-334 | the running value is at most the start and at most every usable candidate ratio, and equals one of them |
| Calc.SizeFactorCases | artoolkit6-calibration-master/calc.cpp:214-337 | 1.0 when no usable ratio is below 100; otherwise the smallest usable ratio; never zero |
| Calc.SizeCandidates | artoolkit6-calibration-master/calc.cpp:218-333 | the twelve side-length candidates the source examines, in order |
| Calc.SmallestSnoc | artoolkit6-calibration-master/calc.cpp:214-334 | considering one more candidate updates the running minimum by that candidate alone |
| Calc.GetSizeFactor | artoolkit6-calibration-master/calc.cpp:210-338 | the loop's result is the size factor of the twelve candidates |
| Calc.InitialDistFactor | artoolkit6-calibration-master/calc.cpp:186-194 | nine distortion factors: the four coefficients, fx, fy, x0, y0 and 1 |
| Calc.ConvParam | artoolkit6-calibration-master/calc.cpp:177-208 | version 4 with the image size; the distortion factors are the coefficients, fx, fy, x0, y0 and the size factor s; the matrix is intr with its top-left 2x2 block divided by s |
| Calc.ConvParamUndoesScale | artoolkit6-calibration-master/calc.cpp:196-207 | rescaling the matrix by the stored size factor gives back the intrinsics |
| Calc.MinFromIsMinimum | artoolkit6-calibration-master/calc.cpp:161-169 | the running minimum is at most the start and every error, and equals one of them |
| Calc.MaxFromIsMaximum | artoolkit6-calibration-master/calc.cpp:161-169 | the running maximum is at least the start and every error, and equals one of them |
| Calc.SumBounds | artoolkit6-calibration-master/calc.cpp:161-169 | the sum of errors within [lo, hi] lies between n·lo and n·hi |
| Calc.ErrorStats | artoolkit6-calibration-master/calc.cpp:121-169 | the minimum from 1e6, the maximum from 0, and the sum divided by capturedImageNum + 1 |
| Calc.AverageBelowMinimum | artoolkit6-calibration-master/calc.cpp:166 | with one image of error 1, the reported average 0.5 is below the minimum 1 |
| Calc.MeanErrorBetween | artoolkit6-calibration-master/calc.cpp:161-169 | the true mean of the errors lies between their minimum and maximum |
| Calc.DivideBounds | artoolkit6-calibration-master/calc.cpp:166 | a sum between n·lo and n·hi divided by n lies in [lo, hi] |
| Calc.ErrorStatsCorrected | artoolkit6-calibration-master/calc.cpp:161-169 | the corrected loop reports the mean, which lies between the minimum and the maximum |
| Calc.Calculate | artoolkit6-calibration-master/calc.cpp:78-169 | the object points, the 3x4 intrinsic matrix with a zero fourth column, the converted parameter and the error statistics as above |
| FileUploader.TrimEol | artoolkit6-calibration-master/fileUploader.c:66-71 | the trimmed line is a prefix of the input that does not end in '\n' or '\r', and only such characters were removed |
| FileUploader.NextLineSkipsOnlyRejected | artoolkit6-calibration-master/fileUploader.c:58-76 | the line returned is the first one that is not a comment (or blank, when skipping blanks); every line before it is rejected; none means end of file |
| FileUploader.GetBuff | artoolkit6-calibration-master/fileUploader.c:58-76 | the loop returns the next accepted trimmed line, or none at end of file |
| FileUploader.SplitAtCommaInverse | artoolkit6-calibration-master/fileUploader.c:311-314 | no split iff the line has no comma; otherwise name + "," + value is the line and the name has no comma |
| FileUploader.SplitAtCommaRoundTrip | artoolkit6-calibration-master/fileUploader.c:311-314 | a comma-free name and any value (commas allowed) split back into that name and value |
| FileUploader.FormPartOf | artoolkit6-calibration-master/fileUploader.c:316-321 | a field named "file" becomes a file part for its path and basename; every other field is sent as contents |
| FileUploader.FieldLines | artoolkit6-calibration-master/fileUploader.h:32-40 | one index line per field |
| FileUploader.FieldParts | artoolkit6-calibration-master/fileUploader.c:316-321 | one form part per field |
| FileUploader.FormOfFields | artoolkit6-calibration-master/fileUploader.c:307-322 | the index lines written from a list of fields parse back to exactly those fields' parts |
| FileUploader.LineWithoutCommaSkipped | artoolkit6-calibration-master/fileUploader.c:311-314 | a line without a comma adds nothing to the form |
| FileUploader.BuildForm | artoolkit6-calibration-master/fileUploader.c:307-322 | the loop builds the form of the lines and records the last "file" value as the upload pathname |
| FileUploader.Request | artoolkit6-calibration-master/fileUploader.c:326-334 | no request (error -1) iff the form is empty; otherwise the form with a "version"="1" field appended |
| FileUploader.StatusMessageCases | artoolkit6-calibration-master/fileUploader.c:379-387 | uploads give "Uploaded N file", with an "s" iff N > 1; otherwise codes 1, 2 and 3 and every other code give four distinct messages, none starting with "Uploaded " |
| FileUploader.TimerAddMicros | artoolkit6-calibration-master/fileUploader.c:391 | timeradd of normalised times is normalised and adds the microsecond totals |
| FileUploader.HideAfterMicros | artoolkit6-calibration-master/fileUploader.c:126-129 | the hide delay in seconds becomes a normalised time of its truncated microseconds |
| FileUploader.ExpiryMissedAsWritten | artoolkit6-calibration-master/fileUploader.c:420 | 11.1 s is after a hide time of 10.5 s but the component-wise test does not expire it |
| FileUploader.ExpiredMeansReached | artoolkit6-calibration-master/fileUploader.c:420 | the corrected test expires exactly when the current time has reached the hide time |
| FileUploader.FileUploadHandle.constructor | artoolkit6-calibration-master/fileUploader.c:121-129 | a new handle holds its queue, extension, URL and hide delay, with no status |
| FileUploader.FileUploadHandle.FinishRun | artoolkit6-calibration-master/fileUploader.c:372-393 | after uploads or an error the status is that message, a hide is pending and the hide time is now plus the delay; with neither, the text and hide time are kept |
| FileUploader.Init | artoolkit6-calibration-master/fileUploader.c:110-144 | no handle iff the extension or URL is missing or curl does not initialise; otherwise a fresh handle with the given settings |
| FileUploader.HandleSlot.constructor | artoolkit6-calibration-master/fileUploader.c:146-165 | the slot holds the given handle |
| FileUploader.Final | artoolkit6-calibration-master/fileUploader.c:146-165 | a null slot is a no-op; otherwise the slot's handle becomes null |
| FileUploader.StatusGet | artoolkit6-calibration-master/fileUploader.c:412-432 | -1 for a null handle; 0 for an empty status; a pending hide that expires (component-wise) clears the status and gives 0; otherwise the status is copied out with 1 or 2 |
| FileUploader.GetNextFileInQueueWithExtension | artoolkit6-calibration-master/fileUploader.c:78-106 | found iff some entry's extension equals ext exactly; then the path is "<dir>/<that entry>"; otherwise empty |
| PrefsLibConfig.NewSettings | artoolkit6-calibration-master/prefsLibConfig.cpp:118-124 | new preferences have upload on iff the server URL and token are both built in |
| PrefsLibConfig.NonEmpty | artoolkit6-calibration-master/prefsLibConfig.cpp:453-520 | a stored string is returned iff present and non-empty |
| PrefsLibConfig.NullPreferencesDefaults | artoolkit6-calibration-master/prefsLibConfig.cpp:453-558 | with no preferences every getter gives its default: no strings, save off, the resources directory, and the chessboard 7x5 with spacing 30 |
| PrefsLibConfig.CalibrationSaveCases | artoolkit6-calibration-master/prefsLibConfig.cpp:471-478 | with upload off saving is always on; with upload on it is the stored flag |
| PrefsLibConfig.ServerSettingsCases | artoolkit6-calibration-master/prefsLibConfig.cpp:490-520 | with upload off there is no URL or token; with upload on they are the built-in ones or the non-empty stored ones |
| PrefsLibConfig.TypeNameRoundTrip | artoolkit6-calibration-master/prefsLibConfig.cpp:71-73 | storing a type's name and reading it back gives that type |
| PrefsLibConfig.UnknownTypeIsChessboard | artoolkit6-calibration-master/prefsLibConfig.cpp:522-536 | a stored name that is none of the three exact names reads back as the chessboard |
| PrefsLibConfig.PatternSizeCases | artoolkit6-calibration-master/prefsLibConfig.cpp:538-547 | the stored size is used iff both sides are positive, else the default |
| PrefsLibConfig.SpacingLostAsWritten | artoolkit6-calibration-master/prefsLibConfig.cpp:554 | a stored spacing of 25.5 reads back as 30 without libconfig auto-convert and 25 with it |
| PrefsLibConfig.PatternSpacingCases | artoolkit6-calibration-master/prefsLibConfig.cpp:549-558 | the corrected getter uses the stored spacing iff positive, else 30 |
| PrefsLibConfig.SkipSpaces | artoolkit6-calibration-master/prefsLibConfig.cpp:405 | the rest after leading white space is a suffix not starting with white space |
| PrefsLibConfig.DigitRun | artoolkit6-calibration-master/prefsLibConfig.cpp:405 | the length of the longest digit prefix |
| PrefsLibConfig.DigitRunOfDigits | artoolkit6-calibration-master/prefsLibConfig.cpp:405 | a digit string followed by a non-digit has a digit run of its own length |
| PrefsLibConfig.ScanIntOfIntToString | artoolkit6-calibration-master/prefsLibConfig.cpp:405 | %d reads back any printed integer and leaves the rest |
| PrefsLibConfig.ScanDigitsOf | artoolkit6-calibration-master/prefsLibConfig.cpp:405 | a run of digits followed by a non-digit scans to its decimal value and the rest |
| PrefsLibConfig.ScanIntOfSignedDigits | artoolkit6-calibration-master/prefsLibConfig.cpp:405 | an optional minus sign, digits and a non-digit rest scan to the signed value and the rest |
| PrefsLibConfig.ScanSizeOfText | artoolkit6-calibration-master/prefsLibConfig.cpp:405 | "%dx%d" reads back "<w>x<h>" for every w and h |
| PrefsLibConfig.ScanSizeOfScans | artoolkit6-calibration-master/prefsLibConfig.cpp:405 | a width, an 'x' and a height read as that size whatever follows the height |
| PrefsLibConfig.ScanSizeOfJoin | artoolkit6-calibration-master/prefsLibConfig.cpp:405 | "<w text>x<h text>" reads as (w, h) when the two texts read as w and h |
| PrefsLibConfig.StepStaysInBuild | artoolkit6-calibration-master/prefsLibConfig.cpp:155-170 | no step leaves the states the build has |
| PrefsLibConfig.StepWithStaysInBuild | artoolkit6-calibration-master/prefsLibConfig.cpp:155-231 | with the handlers compiled in or not, no step leaves the states of the build |
| PrefsLibConfig.MenuChoiceInBuild | artoolkit6-calibration-master/prefsLibConfig.cpp:180-231 | no menu number leads to a screen the build does not have |
| PrefsLibConfig.ServerScreenChosen | artoolkit6-calibration-master/prefsLibConfig.cpp:220-230 | in a build with only the URL built in, choosing 6 opens the URL screen |
| PrefsLibConfig.ServerScreenStallsAsWritten | artoolkit6-calibration-master/prefsLibConfig.cpp:324-359 | in that build the URL screen has no handler: every input leaves state and settings unchanged |
| PrefsLibConfig.TypedSix | artoolkit6-calibration-master/prefsLibConfig.cpp:207-219 | the line "6" is read as the number 6 |
| PrefsLibConfig.StepAgreesInConsistentBuilds | artoolkit6-calibration-master/prefsLibConfig.cpp:153-452 | when both or neither of the server values are built in, the source step and the corrected step agree |
| PrefsLibConfig.StepCorrectedProgress | artoolkit6-calibration-master/prefsLibConfig.cpp:153-452 | under the corrected guards every step with input either ends, returns to the menu or changes state or settings |
| PrefsLibConfig.RunStep | artoolkit6-calibration-master/prefsLibConfig.cpp:153-452 | a session from a state is the session from that pass's result, moving to the next input iff the pass read a line |
| PrefsLibConfig.EscapeAtTopMenu | artoolkit6-calibration-master/prefsLibConfig.cpp:207-213 | escaping at the top menu ends the session with the settings unchanged |
| PrefsLibConfig.EscapeChangesNothing | artoolkit6-calibration-master/prefsLibConfig.cpp:232-433 | escape (no input) never changes a setting and returns every option screen to the menu |
| PrefsLibConfig.TopMenuCases | artoolkit6-calibration-master/prefsLibConfig.cpp:207-231 | the menu changes no setting; non-numeric input ends; a number moves to that option, an unknown one stays on the menu |
| PrefsLibConfig.MenuChoiceRange | artoolkit6-calibration-master/prefsLibConfig.cpp:180-231 | a number stays on the menu iff outside 1..8 (1..10 without built-in server values); every choice is a state of the build |
| PrefsLibConfig.SaveToggleTwice | artoolkit6-calibration-master/prefsLibConfig.cpp:274-288 | any non-escape input flips the save flag and stays on the screen, so two flips restore it |
| PrefsLibConfig.UploadToggleTwice | artoolkit6-calibration-master/prefsLibConfig.cpp:306-323 | any non-escape input flips the upload flag and stays on the screen, so two flips restore it |
| PrefsLibConfig.PatternTypeChoice | artoolkit6-calibration-master/prefsLibConfig.cpp:360-394 | choosing 1, 2 or 3 sets that type's name with its default size and spacing; any other number changes nothing |
| PrefsLibConfig.TypeStepIsScreen | artoolkit6-calibration-master/prefsLibConfig.cpp:360-394 | the pattern-type state's step is the pattern-type screen |
| PrefsLibConfig.PatternSizeEntry | artoolkit6-calibration-master/prefsLibConfig.cpp:395-414 | entering "<w>x<h>" with both positive stores that size and returns to the menu |
| PrefsLibConfig.SizeScreenOfScan | artoolkit6-calibration-master/prefsLibConfig.cpp:395-414 | a non-empty line that reads as a size stores both sides and returns to the menu |
| PrefsLibConfig.SizeStepIsScreen | artoolkit6-calibration-master/prefsLibConfig.cpp:395-414 | the size state's step is the size screen |
| PrefsLibConfig.Preferences.constructor | artoolkit6-calibration-master/prefsLibConfig.cpp:77-133 | the preferences object holds the settings read |
| PrefsLibConfig.Preferences.ShowPreferences | artoolkit6-calibration-master/prefsLibConfig.cpp:153-452 | the menu loop leaves the settings the session's steps produce from the inputs |
| PrefsNull.StubDefaults | artoolkit6-calibration-master/prefsNull.cpp:32-83 | every stub gives its constant: no preferences, no tokens, URL or token, save off, chessboard 7x5, spacing 30 |
| PrefsNull.StubsMatchMissingHandle | artoolkit6-calibration-master/prefsNull.cpp:45-91 | each stub answers what the libconfig getter answers with no preferences |
| CalibCamera.FileIDDecodes | artoolkit6-calibration-master/calib_camera.cpp:919 | for a valid time the ID has six digits and decodes back to hour, minute and second |
| CalibCamera.IDTextReadsBack | artoolkit6-calibration-master/calib_camera.cpp:922 | the zero-padded ID text is six digits whose value is the ID |
| CalibCamera.FocalLengthKnown | artoolkit6-calibration-master/calib_camera.cpp:944-967 | the focal text is a known value iff the source is AVFoundation with one of the four presets |
| CalibCamera.Sanitised | artoolkit6-calibration-master/calib_camera.cpp:976-981 | same length; each '/' and '\\' becomes '_', every other character is kept |
| CalibCamera.SanitisedNoSeparators | artoolkit6-calibration-master/calib_camera.cpp:976-981 | a sanitised id has no separators, so sanitising twice changes nothing |
| CalibCamera.CopiedLength | artoolkit6-calibration-master/calib_camera.cpp:976-981 | the copy stops at the first NUL or at the buffer bound |
| CalibCamera.CopiedFrom | artoolkit6-calibration-master/calib_camera.cpp:976-981 | the same bound, counted from position i |
| CalibCamera.SanitiseInto | artoolkit6-calibration-master/calib_camera.cpp:970-981 | the loop appends the sanitised copied prefix of the device id |
| CalibCamera.FittingIdCopiedWhole | artoolkit6-calibration-master/calib_camera.cpp:976-981 | a NUL-free id that fits in the buffer is copied whole |
| CalibCamera.SaveNameFocalPart | artoolkit6-calibration-master/calib_camera.cpp:982-989 | the focal part appears iff the focal text is not "0.000", and the name always ends in ".dat" |
| CalibCamera.AssembleSaveName | artoolkit6-calibration-master/calib_camera.cpp:970-989 | the assembled path is "<dir>/camera_para-<dev>-0-<W>x<H>[-<focal>].dat" |
| CalibCamera.Hex | artoolkit6-calibration-master/calib_camera.cpp:1097-1107 | two characters per digest byte |
| CalibCamera.HexReadsBack | artoolkit6-calibration-master/calib_camera.cpp:1097-1107 | characters 2i and 2i+1 are lower-case hex digits whose value is byte i |
| CalibCamera.SharedSecretText | artoolkit6-calibration-master/calib_camera.cpp:1097-1107 | the loop gives the 32-character hex text of the 16-byte digest |
| CalibCamera.IndexFields | artoolkit6-calibration-master/calib_camera.cpp:1022-1092 | fifteen fields, no name with a comma, the file first and the shared secret last, no other field named "file" |
| CalibCamera.IndexReadBack | artoolkit6-calibration-master/calib_camera.cpp:1022-1107 | the index the tool writes parses in the uploader to a form whose file part is the parameter file and whose other parts are the field values |
| CalibCamera.FieldPartsAt | artoolkit6-calibration-master/fileUploader.c:316-321 | part k of each field list is the form part of field k |
| CalibCamera.OrientationFlagsSymmetry | artoolkit6-calibration-master/calib_camera.cpp:424-441 | rotation iff orientation is not 1 or 3; 3 and 2 flip the opposite way from 1 and 0; 1 flips both ways for a front camera; unknown orientations behave as 0 |
| CalibCamera.NullStaysNullCountsAsChange | artoolkit6-calibration-master/calib_camera.cpp:250-258 | an old NULL value with a new NULL value is not kept |
| CalibCamera.Replace | artoolkit6-calibration-master/calib_camera.cpp:222-266 | the global takes the new value, and counts as replaced iff the old one was not kept |
| CalibCamera.CalibCameraGlobals.constructor | artoolkit6-calibration-master/calib_camera.cpp:298-307 | main's first read: every global holds the value its preference getter answers, and nothing has happened yet |
| CalibCamera.CalibCameraGlobals.RereadPreferences | artoolkit6-calibration-master/calib_camera.cpp:218-283 | every global takes the new value; the uploader is finalised and re-initialised iff the URL counts as changed; the video restarts iff a camera setting counts as changed |
| CalibCamera.CalibCameraGlobals.RereadAlwaysRestartsAsWritten | artoolkit6-calibration-master/calib_camera.cpp:250-282 | with nothing changed and the resolution token always NULL, the source still restarts the video, while the corrected test does not |
| CalibCamera.CalibCameraGlobals.CorrectedRestartsOnlyOnChange | artoolkit6-calibration-master/calib_camera.cpp:250-282 | the corrected test restarts exactly when some camera setting differs, and restarts only when the source does too |
| Basics.ParseInt32OfIntToString | ARToolkit6/Assets/ARToolKit-Unity/Scripts/Editor/ARTrackableEditor.cs:176-177 | int.Parse reads back every printed 32-bit integer |
| Basics.DivTrunc | ARToolkit6/Assets/ARToolKit-Unity/Scripts/ARController.cs:1486-1498 | C# integer division truncates toward zero, also for a negative dividend |
| Basics.PathCombine | ARToolkit6/Assets/ARToolKit-Unity/Scripts/ARTrackable.cs:362 | an absolute second part replaces the first; an empty part is dropped; otherwise the result starts with the first part and ends with the second |

## Left out

- Native interop, Unity scene plumbing, the editor's drawing and drag-and-drop, and OpenCV are outside the model. Their results are parameters.
- Threads are not modelled: the upload worker thread, its mutex, its progress messages (`fileUploader.c` lines 221 and 231), curl transfers and the `showPreferences` pthread.
- `fileUploaderCreateQueueDir` and `fileUploaderTickle` are not modelled, because they only wrap file-system and thread calls.
- Files are not opened, renamed or removed. `get_buff` receives its `fgets` chunks as a parameter. The index is written only on the success path; the failure paths only free and return.
- MD5 itself, the `strftime` timestamp, the OS name, architecture and version, and libconfig's file reading and writing are inputs. This covers `initPreferences` reading the file and `config_write_file`.
- `preferencesFinal` only frees memory, so it is not modelled.
- The help screen's `system()` call and every prompt's wording are left out. The camera-source list on the camera screen is an input.
- `snprintf` and MAXPATHLEN truncation are not modelled, except for the device-id bound in the save name.
- `sscanf`'s `%d` reads unbounded integers, so overflow is not modelled. `%f` is the parameter `scanFloat`.
- libconfig's auto-convert option is a parameter.
- The Fit/Fill scaling in `getViewport` is a parameter (`fitted`), because it is floating-point arithmetic. C# float-to-text formatting is the parameter `fmt`.
- Reals replace floats everywhere.
- Diagnostic `Log` calls are not recorded, except the two template-setter warnings. Examples are the failure messages of `StartAR` and of `ARTrackable.Load`. The model covers the log buffer itself (`Controller.MessageLog`) and those two warnings.
- The per-image reprojection error (`calc.cpp` lines 125-158) is the input `imageErrors`. That covers the skip of images with h == 0 and the sqrt(err/(w*h)) step, which is floating-point work.
- getSizeFactor: a candidate with a zero observed length (olen == 0) is skipped (`Calc.Usable`). For +0 that matches the source, whose ratio is +infinity and never below the running factor; the -infinity that a negative zero would give is not modelled. Only `dist_factor[0..8]` are modelled.
- The default branch of `calcChessboardCorners` cannot be reached with the enum type, so it is left out.
- A CIRCLES_GRID lookup in `std::map` inserts a zero entry; the model returns 0 and 0.0 without the insertion.
- The Unity pose computation in `LateUpdate` (ARTrackable.cs lines 507-510), which multiplies by the camera transform, is left out. The model keeps only the visibility and event logic.
- The gizmo's glyph table is passed to `DrawLetter` and `DrawWord` as a parameter, and the model's own table is `TrackableGizmo.Letters`.
- TrackableGizmo.ToUpper: upper-cases ASCII only, which is all the glyph table contains.
- TrackableGizmo.DrawWord: stops at the first character without a glyph, as the source's exception does, and returns no drawing.
- PrefsLibConfig.Preferences.ShowPreferences: requires a build with both or neither server value built in, because with exactly one the source's loop stalls (see Findings). For those builds the source step and the corrected step agree.
- The platform guards of `prefsNull.cpp` (lines 30 and 86) are compile-time choices; `preferencesFinal` and `showPreferences` there do nothing and are left out.

## Findings

| source | as written | input that shows it | evidently intended | confidence | as-written member | corrected member |
|---|---|---|---|---|---|---|
| artoolkit6-calibration-master/fileUploader.c:420 | the status hide time is compared field by field: seconds ≥ and microseconds ≥ | now = 11 s 100000 µs, hide at 10 s 500000 µs: not expired although later | expire once the current time has reached the hide time | not executed | FileUploader.ExpiryMissedAsWritten | FileUploader.ExpiredMeansReached |
| artoolkit6-calibration-master/calib_camera.cpp:250-258 | a string setting is kept only when old and new are both non-NULL and equal, and the resolution-token getter always answers NULL | a re-read with no setting changed | restart the video only when a camera setting really changed | not executed | CalibCamera.CalibCameraGlobals.RereadAlwaysRestartsAsWritten | CalibCamera.CalibCameraGlobals.CorrectedRestartsOnlyOnChange |
| artoolkit6-calibration-master/calc.cpp:166 | the error sum is divided by capturedImageNum + 1 | one image with error 1.0: average 0.5, minimum 1.0 | the mean over the captured images, between minimum and maximum | not executed | Calc.AverageBelowMinimum | Calc.MeanErrorBetween |
| artoolkit6-calibration-master/prefsLibConfig.cpp:554 | the float spacing is read with `config_setting_get_int` | stored spacing 25.5: read as 30 (the default) without auto-convert, 25 with it | read it as a float | not executed | PrefsLibConfig.SpacingLostAsWritten | PrefsLibConfig.PatternSpacingCases |
| ARToolkit6/Assets/ARToolKit-Unity/Scripts/ARTrackable.cs:478-481 | an unloaded trackable sets visible to false without hiding its children or sending Lost | a visible, shown trackable whose marker is unloaded | hide the children and notify, as the loaded path does | not executed | Trackable.FrameStepLeavesChildrenShown | Trackable.FrameStepCorrectedConsistent |
| artoolkit6-calibration-master/prefsLibConfig.cpp:324 | the URL and token screens' handlers are guarded by "neither macro", while the states and menu use "not both" | a build with only ARTOOLKIT6_CSUU defined: choose 6, then any input | guard the handlers like the menu | not executed | PrefsLibConfig.ServerScreenStallsAsWritten | PrefsLibConfig.StepCorrectedProgress |
