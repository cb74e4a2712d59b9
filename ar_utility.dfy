/**
 * The matrix helpers of ARUtilityFunctions: copying a float array into a
 * Unity Matrix4x4, the right-handed to left-handed conversion, and reading
 * position and rotation out of a pose matrix.
 *
 * A Matrix4x4 is modelled as its 16 entries in Unity's storage order, where
 * the single index i addresses entry (i % 4, i / 4): column-major, so entry
 * (row, col) lives at slot row + 4 * col.
 */
module ARUtility {
  import opened Basics

  type Matrix = m: seq<real> | |m| == 16 witness seq(16, i => 0.0)

  function Slot(row: nat, col: nat): (i: nat)
    requires row < 4 && col < 4
    ensures i < 16 && i % 4 == row && i / 4 == col
  {
    row + 4 * col
  }

  function Entry(m: Matrix, row: nat, col: nat): real
    requires row < 4 && col < 4
  {
    m[Slot(row, col)]
  }

  /** A column as Unity's GetColumn gives it. */
  datatype Vector4 = Vector4(x: real, y: real, z: real, w: real)

  function Column(m: Matrix, col: nat): Vector4
    requires col < 4
  {
    Vector4(Entry(m, 0, col), Entry(m, 1, col), Entry(m, 2, col), Entry(m, 3, col))
  }

  /**
   * MatrixFromFloatArray: None stands for the ArgumentException thrown on a
   * null array or one with fewer than 16 entries; otherwise slot i receives
   * values[i] for i < 16 and further entries are ignored.
   */
  method MatrixFromFloatArray(values: Option<seq<real>>) returns (r: Option<Matrix>)
    ensures r.None? <==> (values.None? || |values.value| < 16)
    ensures r.Some? ==> r.value == values.value[..16]
  {
    if values.None? || |values.value| < 16 {
      return None;
    }
    var mat := new real[16](_ => 0.0);
    for i := 0 to 16
      invariant forall k :: 0 <= k < i ==> mat[k] == values.value[k]
    {
      mat[i] := values.value[i];
    }
    return Some(mat[..]);
  }

  /** Does the handedness conversion negate entry (row, col)? */
  predicate Negated(row: nat, col: nat)
  {
    (row == 2) != (col == 2)
  }

  /**
   * LHMatrixFromRHMatrix, entry by entry and column by column as the source
   * writes it.
   */
  function LHMatrixFromRHMatrix(rhm: Matrix): (lhm: Matrix)
    ensures forall row, col :: 0 <= row < 4 && 0 <= col < 4 ==>
      Entry(lhm, row, col) == if Negated(row, col) then -Entry(rhm, row, col) else Entry(rhm, row, col)
  {
    [ rhm[0],  rhm[1], -rhm[2],  rhm[3],
      rhm[4],  rhm[5], -rhm[6],  rhm[7],
     -rhm[8], -rhm[9],  rhm[10], -rhm[11],
      rhm[12], rhm[13], -rhm[14], rhm[15] ]
  }

  /** Negating row 2 of a matrix. */
  function NegateRow(m: Matrix, row: nat): (r: Matrix)
    requires row < 4
  {
    seq(16, i requires 0 <= i < 16 => if i % 4 == row then -m[i] else m[i])
  }

  /** Negating column 2 of a matrix. */
  function NegateColumn(m: Matrix, col: nat): (r: Matrix)
    requires col < 4
  {
    seq(16, i requires 0 <= i < 16 => if i / 4 == col then -m[i] else m[i])
  }

  /** The conversion is "negate row 2, then negate column 2". */
  lemma LHIsRowThenColumnNegation(m: Matrix)
    ensures LHMatrixFromRHMatrix(m) == NegateColumn(NegateRow(m, 2), 2)
  {
    var l, n := LHMatrixFromRHMatrix(m), NegateColumn(NegateRow(m, 2), 2);
    forall i | 0 <= i < 16 ensures l[i] == n[i] {
      var row, col := i % 4, i / 4;
      assert i == Slot(row, col);
    }
  }

  /** Applying the conversion twice gives back the input. */
  lemma LHInvolution(m: Matrix)
    ensures LHMatrixFromRHMatrix(LHMatrixFromRHMatrix(m)) == m
  {
    var l := LHMatrixFromRHMatrix(LHMatrixFromRHMatrix(m));
    forall i | 0 <= i < 16 ensures l[i] == m[i] {
      var row, col := i % 4, i / 4;
      assert i == Slot(row, col);
    }
  }

  /** PositionFromMatrix: the first three entries of column 3. */
  function PositionFromMatrix(m: Matrix): (p: Vector3)
    ensures p == Vector3(Column(m, 3).x, Column(m, 3).y, Column(m, 3).z)
  {
    Vector3(m[12], m[13], m[14])
  }

  /** The position of a converted pose is the original one mirrored in z. */
  lemma PositionOfLHMatrix(m: Matrix)
    ensures PositionFromMatrix(LHMatrixFromRHMatrix(m)) ==
      Vector3(PositionFromMatrix(m).x, PositionFromMatrix(m).y, -PositionFromMatrix(m).z)
  {
  }

  /** A rotation, kept symbolic: Unity's LookRotation is not part of this model. */
  datatype Rotation = Identity | LookRotation(forward: Vector4, upwards: Vector4)

  /** RotationFromMatrix with its guard against a zero third column. */
  function RotationFromMatrix(m: Matrix): (q: Rotation)
    ensures q == Identity <==> Column(m, 2) == Vector4(0.0, 0.0, 0.0, 0.0)
    ensures q != Identity ==> q == LookRotation(Column(m, 2), Column(m, 1))
  {
    if Column(m, 2) == Vector4(0.0, 0.0, 0.0, 0.0) then Identity
    else LookRotation(Column(m, 2), Column(m, 1))
  }
}
