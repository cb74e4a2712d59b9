/**
 * The Calibration object of the camera-calibration tool: the stack of
 * corner sets captured so far, bounded by calibImageCountMax, and the
 * hand-over of that stack to calc. The corner finder thread, its mutex and
 * OpenCV's sub-pixel refinement are outside the model; the refined
 * corners of the latest result are an input of capture.
 */
module Calibration {
  import opened CalibrationPattern
  import Calc

  /** 2^64: the range of size_t. */
  const SizeTRange: int := 0x1_0000_0000_0000_0000

  /** An int converted to size_t, as in the comparison of m_corners.size() with the int maximum. */
  function AsSizeT(n: int): (r: nat)
    requires -SizeTRange / 2 <= n < SizeTRange / 2
    ensures n >= 0 ==> r == n
    ensures n < 0 ==> r == n + SizeTRange && r >= SizeTRange / 2
  {
    if n < 0 then n + SizeTRange else n
  }

  class Calibration {
    /** m_corners: one vector of image corners per captured image, oldest first. */
    var corners: seq<seq<Point2>>
    const calibImageCountMax: int
    const patternType: PatternType
    const patternSize: Size
    const chessboardSquareWidth: int
    const videoWidth: int
    const videoHeight: int

    /** calibImageCount() <= calibImageCountMax(), for a non-negative maximum. */
    predicate Valid()
      reads this`corners
    {
      calibImageCountMax >= 0 ==> |corners| <= calibImageCountMax
    }

    /** An int maximum fits the comparison with a size. */
    predicate MaxInRange()
    {
      -0x8000_0000 <= calibImageCountMax < 0x8000_0000
    }

    constructor(patternType: PatternType, calibImageCountMax: int, patternSize: Size, chessboardSquareWidth: int,
                videoWidth: int, videoHeight: int)
      ensures this.patternType == patternType && this.calibImageCountMax == calibImageCountMax
      ensures this.patternSize == patternSize && this.chessboardSquareWidth == chessboardSquareWidth
      ensures this.videoWidth == videoWidth && this.videoHeight == videoHeight
      ensures corners == []
      ensures Valid()
    {
      this.patternType := patternType;
      this.calibImageCountMax := calibImageCountMax;
      this.patternSize := patternSize;
      this.chessboardSquareWidth := chessboardSquareWidth;
      this.videoWidth := videoWidth;
      this.videoHeight := videoHeight;
      corners := [];
    }

    /** calibImageCount(). */
    function CalibImageCount(): nat
      reads this`corners
    {
      |corners|
    }

    /**
     * capture: refuses when the stack is full (the maximum converted to
     * size_t, so a negative maximum never refuses); otherwise saves the
     * refined corners exactly when the latest result found all corners.
     */
    method Capture(cornerFoundAllFlag: bool, refinedCorners: seq<Point2>) returns (saved: bool)
      requires Valid() && MaxInRange()
      modifies this`corners
      ensures Valid()
      ensures |old(corners)| >= AsSizeT(calibImageCountMax) ==> !saved && corners == old(corners)
      ensures |old(corners)| < AsSizeT(calibImageCountMax) ==>
        saved == cornerFoundAllFlag && corners == (if saved then old(corners) + [refinedCorners] else old(corners))
    {
      if |corners| >= AsSizeT(calibImageCountMax) {
        return false;
      }
      saved := false;
      if cornerFoundAllFlag {
        corners := corners + [refinedCorners];
        saved := true;
      }
    }

    /** uncapture: drops the newest set; false when there is none. */
    method Uncapture() returns (ok: bool)
      requires Valid()
      modifies this`corners
      ensures Valid()
      ensures ok <==> old(corners) != []
      ensures ok ==> corners == old(corners)[..|old(corners)| - 1]
      ensures !ok ==> corners == old(corners)
    {
      if |corners| <= 0 {
        return false;
      }
      corners := corners[..|corners| - 1];
      return true;
    }

    /** uncaptureAll: empties the stack; false when it was already empty. */
    method UncaptureAll() returns (ok: bool)
      requires Valid()
      modifies this`corners
      ensures Valid()
      ensures ok <==> old(corners) != []
      ensures corners == []
    {
      if |corners| <= 0 {
        return false;
      }
      corners := [];
      return true;
    }

    /**
     * calib: calc over every captured set, with the square width as the
     * pattern spacing and the video size as the image size.
     * `intrinsics`, `distortion` and `imageErrors` are calibrateCamera's
     * results and the per-image reprojection errors for these corners.
     */
    method Calib(intrinsics: seq<seq<real>>, distortion: seq<real>, o2i: Calc.Observ2Ideal, imageErrors: seq<real>)
      returns (param: Calc.ARParam, errMin: real, errAvg: real, errMax: real)
      requires |intrinsics| == 3 && forall j :: 0 <= j < 3 ==> |intrinsics[j]| >= 3
      requires |distortion| >= 4
      requires |imageErrors| == |corners|
      ensures exists intr ::
                (Calc.Is3x4(intr)
                 && (forall j, i :: 0 <= j < 3 && 0 <= i < 4 ==> intr[j][i] == (if i < 3 then intrinsics[j][i] else 0.0))
                 && Calc.IsConvParam(param, intr, distortion[..4], videoWidth, videoHeight, o2i))
      ensures errMin == Calc.MinFrom(1000000.0, imageErrors) && errMax == Calc.MaxFrom(0.0, imageErrors)
      ensures errAvg == Calc.Sum(imageErrors) / ((|corners| + 1) as real)
    {
      var objectPoints, intr;
      objectPoints, intr, param, errMin, errAvg, errMax :=
        Calc.Calculate(|corners|, patternType, patternSize, chessboardSquareWidth as real, videoWidth, videoHeight,
                       intrinsics, distortion, o2i, imageErrors);
    }
  }
}
