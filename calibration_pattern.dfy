/**
 * The calibration patterns of the camera-calibration tool: the three
 * pattern types, the points they are measured in, and the two static
 * tables of default pattern sizes and spacings.
 */
module CalibrationPattern {

  /** Calibration::CalibrationPatternType. */
  datatype PatternType = Chessboard | CirclesGrid | AsymmetricCirclesGrid

  /** cv::Point2f, a corner found in the image, in pixels. */
  datatype Point2 = Point2(x: real, y: real)

  /** cv::Point3f, a corner of the pattern in its own plane, in the units of the spacing. */
  datatype Point3 = Point3(x: real, y: real, z: real)

  /** cv::Size. */
  datatype Size = Size(width: int, height: int)

  /** Does the table hold an entry for `t`? Only the chessboard and the asymmetric grid have one. */
  predicate HasDefaults(t: PatternType)
  {
    t != CirclesGrid
  }

  /**
   * CalibrationPatternSizes[t]: map::operator[] yields a value-initialised
   * Size(0, 0) for the type without an entry.
   */
  function PatternSizeDefault(t: PatternType): (s: Size)
    ensures HasDefaults(t) <==> s.width > 0 && s.height > 0
  {
    match t
    case Chessboard => Size(7, 5)
    case AsymmetricCirclesGrid => Size(4, 11)
    case CirclesGrid => Size(0, 0)
  }

  /** CalibrationPatternSpacings[t], 0.0 for the type without an entry. */
  function PatternSpacingDefault(t: PatternType): (s: real)
    ensures HasDefaults(t) <==> s > 0.0
  {
    match t
    case Chessboard => 30.0
    case AsymmetricCirclesGrid => 20.0
    case CirclesGrid => 0.0
  }

  /** CALIBRATION_PATTERN_TYPE_DEFAULT. */
  const PatternTypeDefault: PatternType := Chessboard

  /** The default type has a 7 x 5 chessboard with 30 mm squares. */
  lemma DefaultPattern()
    ensures PatternSizeDefault(PatternTypeDefault) == Size(7, 5)
    ensures PatternSpacingDefault(PatternTypeDefault) == 30.0
  {
  }
}
