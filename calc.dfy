/**
 * The arithmetic around OpenCV's camera calibration: the object-space
 * corner grid of the pattern, the conversion of the intrinsics into an
 * ARToolKit camera parameter structure (with its size factor), and the
 * minimum, average and maximum reprojection error. calibrateCamera,
 * cvRodrigues2, the per-image reprojection error and
 * arParamObserv2Ideal are external and enter as inputs.
 */
module Calc {
  import opened CalibrationPattern

  // ------------------------------------------------------ the corner grid

  /** A loop bound `count` runs max(count, 0) times. */
  function Runs(count: int): nat
  {
    if count < 0 then 0 else count
  }

  /** Corner (i, j) of the pattern: column i of row j; asymmetric grids offset odd rows by one spacing. */
  function GridCorner(t: PatternType, i: int, j: nat, spacing: real): Point3
  {
    match t
    case AsymmetricCirclesGrid => Point3(((2 * i + j % 2) as real) * spacing, (j as real) * spacing, 0.0)
    case _ => Point3((i as real) * spacing, (j as real) * spacing, 0.0)
  }

  /** Row j of the grid, `width` corners long. */
  function GridRow(t: PatternType, j: nat, width: nat, spacing: real): (row: seq<Point3>)
    ensures |row| == width
    ensures forall i :: 0 <= i < width ==> row[i] == GridCorner(t, i, j, spacing)
  {
    seq(width, i requires 0 <= i < width => GridCorner(t, i, j, spacing))
  }

  /** The concatenation of a sequence of rows. */
  function Flatten(rows: seq<seq<Point3>>): seq<Point3>
  {
    if rows == [] then [] else Flatten(rows[..|rows| - 1]) + rows[|rows| - 1]
  }

  /** The first j rows of the grid, in order. */
  function GridRows(t: PatternType, j: nat, width: nat, spacing: real): (rows: seq<seq<Point3>>)
    ensures |rows| == j
    ensures forall k :: 0 <= k < j ==> rows[k] == GridRow(t, k, width, spacing)
  {
    seq(j, k requires 0 <= k < j => GridRow(t, k, width, spacing))
  }

  /** The grid calcChessboardCorners produces: rows j = 0 .. height-1, each of width corners. */
  function CornerGrid(t: PatternType, size: Size, spacing: real): seq<Point3>
  {
    Flatten(GridRows(t, Runs(size.height), Runs(size.width), spacing))
  }

  /** Rows of equal length w flatten to |rows| * w entries. */
  lemma {:induction false} FlattenLength(rows: seq<seq<Point3>>, w: nat)
    requires forall k :: 0 <= k < |rows| ==> |rows[k]| == w
    ensures |Flatten(rows)| == |rows| * w
  {
    if rows != [] {
      var n := |rows| - 1;
      FlattenLength(rows[..n], w);
      assert (n + 1) * w == n * w + w;
    }
  }

  /** In the flattened rows, entry j*w + i is rows[j][i]: the list is row-major. */
  lemma {:induction false} FlattenAt(rows: seq<seq<Point3>>, w: nat, j: nat, i: nat)
    requires forall k :: 0 <= k < |rows| ==> |rows[k]| == w
    requires j < |rows| && i < w
    ensures j * w + i < |Flatten(rows)| && Flatten(rows)[j * w + i] == rows[j][i]
  {
    var n := |rows| - 1;
    var init := rows[..n];
    FlattenLength(init, w);
    assert Flatten(rows) == Flatten(init) + rows[n];
    if j < n {
      FlattenAt(init, w, j, i);
      assert init[j] == rows[j];
    } else {
      assert j * w == n * w;
    }
  }

  /** The grid has width*height corners (none when either is negative). */
  lemma CornerGridLength(t: PatternType, size: Size, spacing: real)
    ensures |CornerGrid(t, size, spacing)| == Runs(size.width) * Runs(size.height)
  {
    var w, h := Runs(size.width), Runs(size.height);
    FlattenLength(GridRows(t, h, w, spacing), w);
    assert h * w == w * h;
  }

  /** Corner (i, j) of the grid sits at index j*width + i. */
  lemma CornerGridAt(t: PatternType, size: Size, spacing: real, j: nat, i: nat)
    requires j < size.height && i < size.width
    ensures j * size.width + i < |CornerGrid(t, size, spacing)|
    ensures CornerGrid(t, size, spacing)[j * size.width + i] == GridCorner(t, i, j, spacing)
  {
    var w, h := Runs(size.width), Runs(size.height);
    var rows := GridRows(t, h, w, spacing);
    FlattenAt(rows, w, j, i);
    assert rows[j][i] == GridCorner(t, i, j, spacing);
  }

  /** calcChessboardCorners: the output is emptied and refilled row by row, j outer and i inner. */
  method CalcChessboardCorners(t: PatternType, size: Size, spacing: real) returns (corners: seq<Point3>)
    ensures corners == CornerGrid(t, size, spacing)
  {
    corners := [];
    var w := Runs(size.width);
    var j := 0;
    while j < size.height
      invariant 0 <= j <= Runs(size.height)
      invariant corners == Flatten(GridRows(t, j, w, spacing))
    {
      var i := 0;
      ghost var before := corners;
      while i < size.width
        invariant 0 <= i <= w
        invariant corners == before + GridRow(t, j, w, spacing)[..i]
      {
        assert GridRow(t, j, w, spacing)[..i + 1] == GridRow(t, j, w, spacing)[..i] + [GridCorner(t, i, j, spacing)];
        corners := corners + [GridCorner(t, i, j, spacing)];
        i := i + 1;
      }
      assert GridRow(t, j, w, spacing)[..i] == GridRow(t, j, w, spacing);
      assert GridRows(t, j + 1, w, spacing)[..j] == GridRows(t, j, w, spacing);
      j := j + 1;
    }
  }

  /** objectPoints after the resize: one copy of the grid per captured image. */
  method ObjectPoints(t: PatternType, size: Size, spacing: real, capturedImageNum: nat)
    returns (objectPoints: seq<seq<Point3>>)
    ensures |objectPoints| == capturedImageNum
    ensures forall k :: 0 <= k < capturedImageNum ==> objectPoints[k] == CornerGrid(t, size, spacing)
  {
    var grid := CalcChessboardCorners(t, size, spacing);
    objectPoints := [grid];
    objectPoints := if capturedImageNum <= 1 then objectPoints[..capturedImageNum]
                    else objectPoints + seq(capturedImageNum - 1, _ => grid);
  }

  // ------------------------------------------------------ the size factor

  /** One candidate scale: the lengths measured on the ideal and on the observed image. */
  datatype Candidate = Candidate(ilen: real, olen: real)

  /**
   * A candidate counts when ilen > 0. Its ratio ilen/olen with olen == 0 is
   * an infinity, which never falls below the running factor.
   */
  predicate Usable(c: Candidate)
  {
    c.ilen > 0.0 && c.olen != 0.0
  }

  /** The sf update of getSizeFactor: take the ratio if it is smaller. */
  function Consider(sf: real, c: Candidate): real
  {
    if Usable(c) && c.ilen / c.olen < sf then c.ilen / c.olen else sf
  }

  /** The running factor after considering the candidates in order. */
  function Smallest(sf: real, cs: seq<Candidate>): real
  {
    if cs == [] then sf else Consider(Smallest(sf, cs[..|cs| - 1]), cs[|cs| - 1])
  }

  /**
   * The smallest usable ratio below the start value, or the start value
   * itself when there is none.
   */
  lemma {:induction false} SmallestIsMinimum(sf: real, cs: seq<Candidate>)
    ensures Smallest(sf, cs) <= sf
    ensures forall k :: 0 <= k < |cs| && Usable(cs[k]) ==> Smallest(sf, cs) <= cs[k].ilen / cs[k].olen
    ensures Smallest(sf, cs) == sf
         || exists k :: 0 <= k < |cs| && Usable(cs[k]) && Smallest(sf, cs) == cs[k].ilen / cs[k].olen
  {
    if cs != [] {
      var n := |cs| - 1;
      SmallestIsMinimum(sf, cs[..n]);
      var m := Smallest(sf, cs[..n]);
      forall k | 0 <= k < |cs| && Usable(cs[k])
        ensures Smallest(sf, cs) <= cs[k].ilen / cs[k].olen
      {
        if k < n {
          assert cs[..n][k] == cs[k];
        }
      }
      if Smallest(sf, cs) != sf {
        if Smallest(sf, cs) == m {
          var k :| 0 <= k < n && Usable(cs[..n][k]) && m == cs[..n][k].ilen / cs[..n][k].olen;
          assert cs[k] == cs[..n][k];
        } else {
          assert Usable(cs[n]) && Smallest(sf, cs) == cs[n].ilen / cs[n].olen;
        }
      }
    }
  }

  /** The value getSizeFactor returns for these candidates: the minimum below 100, or 1 when none is. */
  function SizeFactor(cs: seq<Candidate>): real
  {
    var sf := Smallest(100.0, cs);
    if sf == 100.0 then 1.0 else sf
  }

  /** The size factor is 1 exactly when no usable ratio is below 100, and otherwise the least of them. */
  lemma SizeFactorCases(cs: seq<Candidate>)
    ensures (forall k :: 0 <= k < |cs| && Usable(cs[k]) ==> cs[k].ilen / cs[k].olen >= 100.0)
        ==> SizeFactor(cs) == 1.0
    ensures (exists k :: 0 <= k < |cs| && Usable(cs[k]) && cs[k].ilen / cs[k].olen < 100.0) ==>
      SizeFactor(cs) < 100.0
      && (forall k :: 0 <= k < |cs| && Usable(cs[k]) ==> SizeFactor(cs) <= cs[k].ilen / cs[k].olen)
      && (exists k :: 0 <= k < |cs| && Usable(cs[k]) && SizeFactor(cs) == cs[k].ilen / cs[k].olen)
    ensures SizeFactor(cs) != 0.0
  {
    SmallestIsMinimum(100.0, cs);
  }

  /** arParamObserv2Ideal: (dist_factor, ox, oy, dist_function_version) to (ix, iy). */
  type Observ2Ideal = (seq<real>, real, real, int) -> (real, real)

  /**
   * The twelve candidates of getSizeFactor, in its order: the left, right,
   * top and bottom edge midpoints, then the four corners with an x and a y
   * candidate each. x0 = dist_factor[6], y0 = dist_factor[7].
   */
  function SizeCandidates(df: seq<real>, xsize: int, ysize: int, version: int, o2i: Observ2Ideal): (cs: seq<Candidate>)
    requires |df| >= 8
    ensures |cs| == 12
  {
    var x0, y0, xs, ys := df[6], df[7], xsize as real, ysize as real;
    var left := o2i(df, 0.0, y0, version);
    var right := o2i(df, xs, y0, version);
    var top := o2i(df, x0, 0.0, version);
    var bottom := o2i(df, x0, ys, version);
    var c00 := o2i(df, 0.0, 0.0, version);
    var c10 := o2i(df, xs, 0.0, version);
    var c01 := o2i(df, 0.0, ys, version);
    var c11 := o2i(df, xs, ys, version);
    [Candidate(x0 - left.0, x0), Candidate(right.0 - x0, xs - x0),
     Candidate(y0 - top.1, y0), Candidate(bottom.1 - y0, ys - y0),
     Candidate(x0 - c00.0, x0), Candidate(y0 - c00.1, y0),
     Candidate(c10.0 - x0, xs - x0), Candidate(y0 - c10.1, y0),
     Candidate(x0 - c01.0, x0), Candidate(c01.1 - y0, ys - y0),
     Candidate(c11.0 - x0, xs - x0), Candidate(c11.1 - y0, ys - y0)]
  }

  /** Considering one more candidate. */
  lemma SmallestSnoc(sf: real, cs: seq<Candidate>, c: Candidate)
    ensures Smallest(sf, cs + [c]) == Consider(Smallest(sf, cs), c)
  {
    assert (cs + [c])[..|cs|] == cs;
  }

  /** getSizeFactor: sf starts at 100, each candidate may lower it, and an untouched 100 becomes 1. */
  method GetSizeFactor(df: seq<real>, xsize: int, ysize: int, version: int, o2i: Observ2Ideal) returns (sf: real)
    requires |df| >= 8
    ensures sf == SizeFactor(SizeCandidates(df, xsize, ysize, version, o2i))
  {
    var x0, y0, xs, ys := df[6], df[7], xsize as real, ysize as real;
    ghost var seen: seq<Candidate> := [];
    sf := 100.0;
    var ideal := o2i(df, 0.0, y0, version);
    sf := Consider(sf, Candidate(x0 - ideal.0, x0));
    SmallestSnoc(100.0, seen, Candidate(x0 - ideal.0, x0));
    seen := seen + [Candidate(x0 - ideal.0, x0)];
    ideal := o2i(df, xs, y0, version);
    sf := Consider(sf, Candidate(ideal.0 - x0, xs - x0));
    SmallestSnoc(100.0, seen, Candidate(ideal.0 - x0, xs - x0));
    seen := seen + [Candidate(ideal.0 - x0, xs - x0)];
    ideal := o2i(df, x0, 0.0, version);
    sf := Consider(sf, Candidate(y0 - ideal.1, y0));
    SmallestSnoc(100.0, seen, Candidate(y0 - ideal.1, y0));
    seen := seen + [Candidate(y0 - ideal.1, y0)];
    ideal := o2i(df, x0, ys, version);
    sf := Consider(sf, Candidate(ideal.1 - y0, ys - y0));
    SmallestSnoc(100.0, seen, Candidate(ideal.1 - y0, ys - y0));
    seen := seen + [Candidate(ideal.1 - y0, ys - y0)];
    ideal := o2i(df, 0.0, 0.0, version);
    sf := Consider(sf, Candidate(x0 - ideal.0, x0));
    SmallestSnoc(100.0, seen, Candidate(x0 - ideal.0, x0));
    seen := seen + [Candidate(x0 - ideal.0, x0)];
    sf := Consider(sf, Candidate(y0 - ideal.1, y0));
    SmallestSnoc(100.0, seen, Candidate(y0 - ideal.1, y0));
    seen := seen + [Candidate(y0 - ideal.1, y0)];
    ideal := o2i(df, xs, 0.0, version);
    sf := Consider(sf, Candidate(ideal.0 - x0, xs - x0));
    SmallestSnoc(100.0, seen, Candidate(ideal.0 - x0, xs - x0));
    seen := seen + [Candidate(ideal.0 - x0, xs - x0)];
    sf := Consider(sf, Candidate(y0 - ideal.1, y0));
    SmallestSnoc(100.0, seen, Candidate(y0 - ideal.1, y0));
    seen := seen + [Candidate(y0 - ideal.1, y0)];
    ideal := o2i(df, 0.0, ys, version);
    sf := Consider(sf, Candidate(x0 - ideal.0, x0));
    SmallestSnoc(100.0, seen, Candidate(x0 - ideal.0, x0));
    seen := seen + [Candidate(x0 - ideal.0, x0)];
    sf := Consider(sf, Candidate(ideal.1 - y0, ys - y0));
    SmallestSnoc(100.0, seen, Candidate(ideal.1 - y0, ys - y0));
    seen := seen + [Candidate(ideal.1 - y0, ys - y0)];
    ideal := o2i(df, xs, ys, version);
    sf := Consider(sf, Candidate(ideal.0 - x0, xs - x0));
    SmallestSnoc(100.0, seen, Candidate(ideal.0 - x0, xs - x0));
    seen := seen + [Candidate(ideal.0 - x0, xs - x0)];
    sf := Consider(sf, Candidate(ideal.1 - y0, ys - y0));
    SmallestSnoc(100.0, seen, Candidate(ideal.1 - y0, ys - y0));
    seen := seen + [Candidate(ideal.1 - y0, ys - y0)];
    assert seen == SizeCandidates(df, xsize, ysize, version, o2i);
    if sf == 100.0 {
      sf := 1.0;
    }
  }

  // ---------------------------------------------- the camera parameters

  /** The part of ARParam that convParam fills; only dist_factor[0..8] are written. */
  datatype ARParam = ARParam(xsize: int, ysize: int, mat: seq<seq<real>>, distFactor: seq<real>, distFunctionVersion: int)

  /** A 3 x 4 matrix of rows. */
  predicate Is3x4(m: seq<seq<real>>)
  {
    |m| == 3 && forall j :: 0 <= j < 3 ==> |m[j]| == 4
  }

  /** dist_factor before the size factor: k1, k2, p1, p2, fx, fy, x0, y0 and s = 1. */
  function InitialDistFactor(intr: seq<seq<real>>, dist: seq<real>): (df: seq<real>)
    requires Is3x4(intr) && |dist| == 4
    ensures |df| == 9
  {
    dist + [intr[0][0], intr[1][1], intr[0][2], intr[1][2], 1.0]
  }

  /**
   * The layout convParam produces: version 4, the image size, dist_factor
   * holding the distortion, fx, fy, x0, y0 and the size factor s, and mat
   * a copy of intr whose top-left 2 x 2 block is divided by s.
   */
  predicate IsConvParam(p: ARParam, intr: seq<seq<real>>, dist: seq<real>, xsize: int, ysize: int, o2i: Observ2Ideal)
    requires Is3x4(intr) && |dist| == 4
  {
    var df := InitialDistFactor(intr, dist);
    var s := SizeFactor(SizeCandidates(df, xsize, ysize, 4, o2i));
    s != 0.0
    && p.distFunctionVersion == 4 && p.xsize == xsize && p.ysize == ysize
    && p.distFactor == df[8 := s]
    && Is3x4(p.mat)
    && forall j, i :: 0 <= j < 3 && 0 <= i < 4 ==>
         p.mat[j][i] == (if j < 2 && i < 2 then intr[j][i] / s else intr[j][i])
  }

  /** convParam: writes the distortion and intrinsics, copies intr, then scales by the size factor. */
  method ConvParam(intr: seq<seq<real>>, dist: seq<real>, xsize: int, ysize: int, o2i: Observ2Ideal) returns (p: ARParam)
    requires Is3x4(intr) && |dist| == 4
    ensures IsConvParam(p, intr, dist, xsize, ysize, o2i)
  {
    var version := 4;
    var df := [dist[0], dist[1], dist[2], dist[3], intr[0][0], intr[1][1], intr[0][2], intr[1][2], 1.0];
    assert df == InitialDistFactor(intr, dist);
    var mat: seq<seq<real>> := [];
    for j := 0 to 3
      invariant |mat| == j && forall jj :: 0 <= jj < j ==> mat[jj] == intr[jj]
    {
      var row: seq<real> := [];
      for i := 0 to 4
        invariant row == intr[j][..i]
      {
        assert intr[j][..i + 1] == intr[j][..i] + [intr[j][i]];
        row := row + [intr[j][i]];
      }
      assert intr[j][..4] == intr[j];
      mat := mat + [row];
    }
    var s := GetSizeFactor(df, xsize, ysize, version, o2i);
    SizeFactorCases(SizeCandidates(df, xsize, ysize, version, o2i));
    mat := mat[0 := mat[0][0 := mat[0][0] / s]];
    mat := mat[0 := mat[0][1 := mat[0][1] / s]];
    mat := mat[1 := mat[1][0 := mat[1][0] / s]];
    mat := mat[1 := mat[1][1 := mat[1][1] / s]];
    df := df[8 := s];
    p := ARParam(xsize, ysize, mat, df, version);
  }

  /** Multiplying the scaled block by the stored dist_factor[8] gives the intrinsics back. */
  lemma ConvParamUndoesScale(p: ARParam, intr: seq<seq<real>>, dist: seq<real>, xsize: int, ysize: int,
                             o2i: Observ2Ideal, j: nat, i: nat)
    requires Is3x4(intr) && |dist| == 4
    requires IsConvParam(p, intr, dist, xsize, ysize, o2i)
    requires j < 3 && i < 4
    ensures p.mat[j][i] * (if j < 2 && i < 2 then p.distFactor[8] else 1.0) == intr[j][i]
    ensures p.distFactor[..8] == dist + [intr[0][0], intr[1][1], intr[0][2], intr[1][2]]
  {
    var s := p.distFactor[8];
    if j < 2 && i < 2 {
      assert p.mat[j][i] == intr[j][i] / s;
    }
  }

  // ------------------------------------------------------------- errors

  /** err_min after the loop: the running minimum, starting from `m`. */
  function MinFrom(m: real, errors: seq<real>): real
  {
    if errors == [] then m
    else
      var prev := MinFrom(m, errors[..|errors| - 1]);
      var err := errors[|errors| - 1];
      if err < prev then err else prev
  }

  /** err_max after the loop: the running maximum, starting from `m`. */
  function MaxFrom(m: real, errors: seq<real>): real
  {
    if errors == [] then m
    else
      var prev := MaxFrom(m, errors[..|errors| - 1]);
      var err := errors[|errors| - 1];
      if err > prev then err else prev
  }

  /** The sum of the per-image errors, in loop order. */
  function Sum(errors: seq<real>): real
  {
    if errors == [] then 0.0 else Sum(errors[..|errors| - 1]) + errors[|errors| - 1]
  }

  /** The running minimum is below the start and every error, and is one of them. */
  lemma {:induction false} MinFromIsMinimum(m: real, errors: seq<real>)
    ensures MinFrom(m, errors) <= m
    ensures forall k :: 0 <= k < |errors| ==> MinFrom(m, errors) <= errors[k]
    ensures MinFrom(m, errors) == m || exists k :: 0 <= k < |errors| && MinFrom(m, errors) == errors[k]
  {
    if errors != [] {
      var n := |errors| - 1;
      MinFromIsMinimum(m, errors[..n]);
      assert forall k :: 0 <= k < n ==> errors[..n][k] == errors[k];
    }
  }

  /** The running maximum is above the start and every error, and is one of them. */
  lemma {:induction false} MaxFromIsMaximum(m: real, errors: seq<real>)
    ensures MaxFrom(m, errors) >= m
    ensures forall k :: 0 <= k < |errors| ==> MaxFrom(m, errors) >= errors[k]
    ensures MaxFrom(m, errors) == m || exists k :: 0 <= k < |errors| && MaxFrom(m, errors) == errors[k]
  {
    if errors != [] {
      var n := |errors| - 1;
      MaxFromIsMaximum(m, errors[..n]);
      assert forall k :: 0 <= k < n ==> errors[..n][k] == errors[k];
    }
  }

  /** A sum of n terms between lo and hi lies between n*lo and n*hi. */
  lemma {:induction false} SumBounds(errors: seq<real>, lo: real, hi: real)
    requires forall k :: 0 <= k < |errors| ==> lo <= errors[k] <= hi
    ensures (|errors| as real) * lo <= Sum(errors) <= (|errors| as real) * hi
  {
    if errors != [] {
      var n := |errors| - 1;
      assert forall k :: 0 <= k < n ==> errors[..n][k] == errors[k];
      SumBounds(errors[..n], lo, hi);
      assert (|errors| as real) * lo == (n as real) * lo + lo;
      assert (|errors| as real) * hi == (n as real) * hi + hi;
    }
  }

  /** The tracking of err_min, err_avg and err_max over the images, err_avg divided by N + 1 as written. */
  method ErrorStats(errors: seq<real>) returns (errMin: real, errAvg: real, errMax: real)
    ensures errMin == MinFrom(1000000.0, errors)
    ensures errMax == MaxFrom(0.0, errors)
    ensures errAvg == Sum(errors) / ((|errors| + 1) as real)
  {
    errMin, errAvg, errMax := 1000000.0, 0.0, 0.0;
    for k := 0 to |errors|
      invariant errMin == MinFrom(1000000.0, errors[..k])
      invariant errMax == MaxFrom(0.0, errors[..k])
      invariant errAvg == Sum(errors[..k])
    {
      assert errors[..k + 1][..k] == errors[..k];
      var err := errors[k];
      if err < errMin {
        errMin := err;
      }
      errAvg := errAvg + err;
      if err > errMax {
        errMax := err;
      }
    }
    assert errors[..|errors|] == errors;
    errAvg := errAvg / ((|errors| + 1) as real);
  }

  /** As written, one image with error 1 reports an average of 0.5, below its minimum of 1. */
  lemma AverageBelowMinimum()
    ensures MinFrom(1000000.0, [1.0]) == 1.0
    ensures Sum([1.0]) / ((|[1.0]| + 1) as real) == 0.5
  {
    assert [1.0][..0] == [];
  }

  /** The evidently intended average: the sum over the number of images. */
  function MeanError(errors: seq<real>): real
    requires |errors| > 0
  {
    Sum(errors) / (|errors| as real)
  }

  /** The intended average lies between the reported minimum and maximum. */
  lemma MeanErrorBetween(errors: seq<real>)
    requires |errors| > 0
    ensures MinFrom(1000000.0, errors) <= MeanError(errors) <= MaxFrom(0.0, errors)
  {
    MinFromIsMinimum(1000000.0, errors);
    MaxFromIsMaximum(0.0, errors);
    var lo, hi := MinFrom(1000000.0, errors), MaxFrom(0.0, errors);
    SumBounds(errors, lo, hi);
    DivideBounds(Sum(errors), |errors| as real, lo, hi);
  }

  /** Dividing n*lo <= a <= n*hi by a positive n. */
  lemma DivideBounds(a: real, n: real, lo: real, hi: real)
    requires n > 0.0 && n * lo <= a <= n * hi
    ensures lo <= a / n <= hi
  {
    var q := a / n;
    assert q * n == a;
  }

  /** The error loop as corrected: the average is the mean (0 when nothing was captured). */
  method ErrorStatsCorrected(errors: seq<real>) returns (errMin: real, errAvg: real, errMax: real)
    ensures errMin == MinFrom(1000000.0, errors)
    ensures errMax == MaxFrom(0.0, errors)
    ensures |errors| > 0 ==> errAvg == MeanError(errors) && errMin <= errAvg <= errMax
    ensures |errors| == 0 ==> errAvg == 0.0
  {
    var sum: real;
    errMin, sum, errMax := ErrorStats(errors);
    if |errors| > 0 {
      errAvg := Sum(errors) / (|errors| as real);
      MeanErrorBetween(errors);
    } else {
      errAvg := 0.0;
    }
  }

  // ---------------------------------------------------------------- calc

  /**
   * calc: the object points, the intrinsics widened to 3 x 4 with a zero
   * last column, the converted parameters and the error statistics.
   * `intrinsics` and `distortion` are what calibrateCamera returned, and
   * imageErrors[k] is the reprojection error of image k.
   */
  method Calculate(capturedImageNum: nat, t: PatternType, size: Size, spacing: real, width: int, height: int,
                   intrinsics: seq<seq<real>>, distortion: seq<real>, o2i: Observ2Ideal, imageErrors: seq<real>)
    returns (objectPoints: seq<seq<Point3>>, intr: seq<seq<real>>, param: ARParam, errMin: real, errAvg: real,
             errMax: real)
    requires |intrinsics| == 3 && forall j :: 0 <= j < 3 ==> |intrinsics[j]| >= 3
    requires |distortion| >= 4
    requires |imageErrors| == capturedImageNum
    ensures |objectPoints| == capturedImageNum
    ensures forall k :: 0 <= k < capturedImageNum ==> objectPoints[k] == CornerGrid(t, size, spacing)
    ensures Is3x4(intr)
    ensures forall j, i :: 0 <= j < 3 && 0 <= i < 4 ==> intr[j][i] == (if i < 3 then intrinsics[j][i] else 0.0)
    ensures IsConvParam(param, intr, distortion[..4], width, height, o2i)
    ensures errMin == MinFrom(1000000.0, imageErrors) && errMax == MaxFrom(0.0, imageErrors)
    ensures errAvg == Sum(imageErrors) / ((capturedImageNum + 1) as real)
  {
    objectPoints := ObjectPoints(t, size, spacing, capturedImageNum);
    intr := [];
    for j := 0 to 3
      invariant |intr| == j
      invariant forall jj :: 0 <= jj < j ==> intr[jj] == intrinsics[jj][..3] + [0.0]
    {
      var row: seq<real> := [];
      for i := 0 to 3
        invariant row == intrinsics[j][..i]
      {
        assert intrinsics[j][..i + 1] == intrinsics[j][..i] + [intrinsics[j][i]];
        row := row + [intrinsics[j][i]];
      }
      intr := intr + [row + [0.0]];
    }
    var dist: seq<real> := [];
    for i := 0 to 4
      invariant dist == distortion[..i]
    {
      assert distortion[..i + 1] == distortion[..i] + [distortion[i]];
      dist := dist + [distortion[i]];
    }
    param := ConvParam(intr, dist, width, height, o2i);
    errMin, errAvg, errMax := ErrorStats(imageErrors);
  }
}
