/**
 * 3x4 pose matrices as OpenVR stores them (three rows of four floats, the
 * last column being the translation): the axis rotation matrices, the
 * forward-up constant, and the three 3x3 products that fill a caller's
 * result buffer in place. Floats are reals; cos and sin of the angle are
 * passed in as values.
 */
module Matrix {
  import opened Common

  /** `MatrixAxis`; `OtherAxis` is any other value cast to the enum. */
  datatype MatrixAxis = AxisX | AxisY | AxisZ | OtherAxis(value: int)

  predicate Is34(m: array2<real>) {
    m.Length0 == 3 && m.Length1 == 4
  }

  /** The current contents of a 3x4 matrix buffer. */
  function Entries(m: array2<real>): (r: Mat34)
    reads m
    requires Is34(m)
    ensures forall i, j | 0 <= i < 3 && 0 <= j < 4 :: r[i][j] == m[i, j]
  {
    seq(3, i requires 0 <= i < 3 reads m => seq(4, j requires 0 <= j < 4 reads m => m[i, j]))
  }

  /** Two 3x4 matrices with the same entries are the same matrix. */
  lemma SameEntries(a: Mat34, b: Mat34)
    requires forall i, j | 0 <= i < 3 && 0 <= j < 4 :: a[i][j] == b[i][j]
    ensures a == b
  {
    forall i | 0 <= i < 3
      ensures a[i] == b[i]
    {
    }
  }

  // ---------------------------------------------------------------------
  // Specification
  // ---------------------------------------------------------------------

  /** The rotation by the angle whose cosine is c and sine is s about one coordinate axis. */
  function RotationMatrix(axis: MatrixAxis, c: real, s: real): Mat34
    requires !axis.OtherAxis?
  {
    match axis
    case AxisX => [[1.0, 0.0, 0.0, 0.0], [0.0, c, -s, 0.0], [0.0, s, c, 0.0]]
    case AxisY => [[c, 0.0, s, 0.0], [0.0, 1.0, 0.0, 0.0], [-s, 0.0, c, 0.0]]
    case AxisZ => [[c, -s, 0.0, 0.0], [s, c, 0.0, 0.0], [0.0, 0.0, 1.0, 0.0]]
  }

  /** `k_forwardUpMatrix`. */
  const ForwardUp: Mat34 := [[1.0, 0.0, 0.0, 0.0], [0.0, 0.0, 1.0, 0.0], [0.0, -1.0, 0.0, 0.0]]

  /** Row i of the 3x3 block of a times column j of the 3x3 block of b. */
  function RowTimesColumn(a: Mat34, b: Mat34, i: nat, j: nat): real
    requires i < 3 && j < 3
  {
    a[i][0] * b[0][j] + a[i][1] * b[1][j] + a[i][2] * b[2][j]
  }

  /** The sum of the first k of the three terms of RowTimesColumn: what the inner loop has accumulated. */
  function PartialRowTimesColumn(a: Mat34, b: Mat34, i: nat, j: nat, k: nat): (r: real)
    requires i < 3 && j < 3 && k <= 3
    ensures k == 0 ==> r == 0.0
    ensures k == 3 ==> r == RowTimesColumn(a, b, i, j)
  {
    (if k > 0 then a[i][0] * b[0][j] else 0.0)
    + (if k > 1 then a[i][1] * b[1][j] else 0.0)
    + (if k > 2 then a[i][2] * b[2][j] else 0.0)
  }

  /**
   * What the matrix product leaves in a result buffer that held `prior`: the
   * 3x3 product of the blocks, with the translation column of `prior` kept.
   */
  function MatMul(prior: Mat34, a: Mat34, b: Mat34): (r: Mat34)
    ensures forall i, j | 0 <= i < 3 && 0 <= j < 3 :: r[i][j] == RowTimesColumn(a, b, i, j)
    ensures forall i | 0 <= i < 3 :: r[i][3] == prior[i][3]
  {
    seq(3, i requires 0 <= i < 3 =>
      seq(4, j requires 0 <= j < 4 => if j < 3 then RowTimesColumn(a, b, i, j) else prior[i][3]))
  }

  /** The 3x3 block of m applied to the column vector v; the translation is ignored. */
  function MatTimesVec(m: Mat34, v: seq<real>): (r: seq<real>)
    requires |v| == 3
    ensures |r| == 3
  {
    seq(3, i requires 0 <= i < 3 => m[i][0] * v[0] + m[i][1] * v[1] + m[i][2] * v[2])
  }

  /** The row vector v times the 3x3 block of m. */
  function VecTimesMat(v: seq<real>, m: Mat34): (r: seq<real>)
    requires |v| == 3
    ensures |r| == 3
  {
    seq(3, i requires 0 <= i < 3 => v[0] * m[0][i] + v[1] * m[1][i] + v[2] * m[2][i])
  }

  /** The transpose of the 3x3 block, with the translation column kept. */
  function Transpose(m: Mat34): (r: Mat34)
    ensures forall i, j | 0 <= i < 3 && 0 <= j < 3 :: r[i][j] == m[j][i]
  {
    seq(3, i requires 0 <= i < 3 =>
      seq(4, j requires 0 <= j < 4 => if j < 3 then m[j][i] else m[i][3]))
  }

  // ---------------------------------------------------------------------
  // Properties
  // ---------------------------------------------------------------------

  /**
   * Every axis rotation has a zero translation column, the unit vector along
   * its axis as both that row and that column, equal cosine entries and
   * opposite sine entries.
   */
  lemma RotationStructure(axis: MatrixAxis, c: real, s: real)
    requires !axis.OtherAxis?
    ensures var m := RotationMatrix(axis, c, s);
      && (forall i | 0 <= i < 3 :: m[i][3] == 0.0)
      && (axis.AxisX? ==> m[0][0] == 1.0 && m[0][1] == m[0][2] == m[1][0] == m[2][0] == 0.0
                          && m[1][1] == m[2][2] == c && m[1][2] == -m[2][1] == -s)
      && (axis.AxisY? ==> m[1][1] == 1.0 && m[1][0] == m[1][2] == m[0][1] == m[2][1] == 0.0
                          && m[0][0] == m[2][2] == c && m[2][0] == -m[0][2] == -s)
      && (axis.AxisZ? ==> m[2][2] == 1.0 && m[2][0] == m[2][1] == m[0][2] == m[1][2] == 0.0
                          && m[0][0] == m[1][1] == c && m[0][1] == -m[1][0] == -s)
  {
  }

  /** The zero angle (cosine 1, sine 0) gives the identity about every axis. */
  lemma ZeroRotationIsIdentity(axis: MatrixAxis)
    requires !axis.OtherAxis?
    ensures RotationMatrix(axis, 1.0, 0.0) == IdentityPose
  {
  }

  /** The forward-up constant is the rotation by minus a quarter turn about X. */
  lemma ForwardUpIsQuarterTurnAboutX()
    ensures ForwardUp == RotationMatrix(AxisX, 0.0, -1.0)
  {
  }

  /** The identity block is neutral on either side of the product. */
  lemma IdentityIsNeutral(a: Mat34)
    ensures MatMul(a, IdentityPose, a) == a
    ensures MatMul(a, a, IdentityPose) == a
  {
    SameEntries(MatMul(a, IdentityPose, a), a);
    SameEntries(MatMul(a, a, IdentityPose), a);
  }

  /**
   * Two rotations about the same axis compose to the rotation by the sum of
   * the angles (cos(p + q) = cp cq - sp sq, sin(p + q) = sp cq + cp sq).
   */
  lemma RotationsCompose(axis: MatrixAxis, cp: real, sp: real, cq: real, sq: real)
    requires !axis.OtherAxis?
    ensures MatMul(IdentityPose, RotationMatrix(axis, cp, sp), RotationMatrix(axis, cq, sq))
         == RotationMatrix(axis, cp * cq - sp * sq, sp * cq + cp * sq)
  {
    SameEntries(MatMul(IdentityPose, RotationMatrix(axis, cp, sp), RotationMatrix(axis, cq, sq)),
                RotationMatrix(axis, cp * cq - sp * sq, sp * cq + cp * sq));
  }

  /** For a true angle (c^2 + s^2 = 1) the transpose of a rotation is its inverse. */
  lemma RotationIsOrthogonal(axis: MatrixAxis, c: real, s: real)
    requires !axis.OtherAxis?
    requires c * c + s * s == 1.0
    ensures Transpose(RotationMatrix(axis, c, s)) == RotationMatrix(axis, c, -s)
    ensures MatMul(IdentityPose, RotationMatrix(axis, c, s), Transpose(RotationMatrix(axis, c, s))) == IdentityPose
  {
    var ns := -s;
    TransposeReversesAngle(axis, c, s, ns);
    RotationsCompose(axis, c, s, c, ns);
    ReverseAngleCancels(c, s, ns);
    ZeroRotationIsIdentity(axis);
  }

  /** Transposing a rotation block negates its sine. */
  lemma TransposeReversesAngle(axis: MatrixAxis, c: real, s: real, ns: real)
    requires !axis.OtherAxis? && ns == -s
    ensures Transpose(RotationMatrix(axis, c, s)) == RotationMatrix(axis, c, ns)
  {
    SameEntries(Transpose(RotationMatrix(axis, c, s)), RotationMatrix(axis, c, ns));
  }

  /** The angle-sum formulas for an angle and its negation give the zero angle. */
  lemma ReverseAngleCancels(c: real, s: real, ns: real)
    requires c * c + s * s == 1.0 && ns == -s
    ensures c * c - s * ns == 1.0 && s * c + c * ns == 0.0
  {
  }

  /** The vector-times-matrix product is the transposed block applied to the vector. */
  lemma VecTimesMatIsTransposed(v: seq<real>, m: Mat34)
    requires |v| == 3
    ensures VecTimesMat(v, m) == MatTimesVec(Transpose(m), v)
  {
    var t := Transpose(m);
    forall i | 0 <= i < 3
      ensures VecTimesMat(v, m)[i] == MatTimesVec(t, v)[i]
    {
      assert t[i][0] == m[0][i] && t[i][1] == m[1][i] && t[i][2] == m[2][i];
    }
  }

  /** Applying a product of blocks is applying the right factor, then the left. */
  lemma ProductActsInOrder(prior: Mat34, a: Mat34, b: Mat34, v: seq<real>)
    requires |v| == 3
    ensures MatTimesVec(MatMul(prior, a, b), v) == MatTimesVec(a, MatTimesVec(b, v))
  {
    var p := MatMul(prior, a, b);
    var w := MatTimesVec(b, v);
    forall i | 0 <= i < 3
      ensures MatTimesVec(p, v)[i] == MatTimesVec(a, w)[i]
    {
      assert p[i][0] == RowTimesColumn(a, b, i, 0);
      assert p[i][1] == RowTimesColumn(a, b, i, 1);
      assert p[i][2] == RowTimesColumn(a, b, i, 2);
    }
  }

  // ---------------------------------------------------------------------
  // The in-place operations
  // ---------------------------------------------------------------------

  /** `initRotationMatrix`: overwrite all twelve entries for a known axis; leave others untouched. */
  method InitRotationMatrix(m: array2<real>, axis: MatrixAxis, c: real, s: real)
    requires Is34(m)
    modifies m
    ensures !axis.OtherAxis? ==> forall i, j | 0 <= i < 3 && 0 <= j < 4 :: m[i, j] == RotationMatrix(axis, c, s)[i][j]
    ensures axis.OtherAxis? ==> unchanged(m)
  {
    match axis
    case AxisX =>
      m[0, 0], m[0, 1], m[0, 2], m[0, 3] := 1.0, 0.0, 0.0, 0.0;
      m[1, 0], m[1, 1], m[1, 2], m[1, 3] := 0.0, c, -s, 0.0;
      m[2, 0], m[2, 1], m[2, 2], m[2, 3] := 0.0, s, c, 0.0;
    case AxisY =>
      m[0, 0], m[0, 1], m[0, 2], m[0, 3] := c, 0.0, s, 0.0;
      m[1, 0], m[1, 1], m[1, 2], m[1, 3] := 0.0, 1.0, 0.0, 0.0;
      m[2, 0], m[2, 1], m[2, 2], m[2, 3] := -s, 0.0, c, 0.0;
    case AxisZ =>
      m[0, 0], m[0, 1], m[0, 2], m[0, 3] := c, -s, 0.0, 0.0;
      m[1, 0], m[1, 1], m[1, 2], m[1, 3] := s, c, 0.0, 0.0;
      m[2, 0], m[2, 1], m[2, 2], m[2, 3] := 0.0, 0.0, 1.0, 0.0;
    case OtherAxis(_) =>
  }

  /** Entry (p, q) comes before entry (i, j) in the row-major order the product writes. */
  predicate WrittenBefore(p: int, q: int, i: int, j: int) {
    p < i || (p == i && q < j)
  }

  /**
   * `matMul33` on two matrices: each of the nine block entries of `result` is
   * zeroed and then accumulates three products; the translation column is
   * not written. The inputs are read while `result` is written, so `result`
   * must be a different buffer from both.
   */
  method MatMul33(result: array2<real>, lhs: array2<real>, rhs: array2<real>)
    requires Is34(result) && Is34(lhs) && Is34(rhs)
    requires result != lhs && result != rhs
    modifies result
    ensures forall i, j | 0 <= i < 3 && 0 <= j < 4 ::
      result[i, j] == MatMul(old(Entries(result)), Entries(lhs), Entries(rhs))[i][j]
  {
    ghost var target := MatMul(Entries(result), Entries(lhs), Entries(rhs));
    ghost var prior := Entries(result);
    for i := 0 to 3
      invariant forall p, q | 0 <= p < 3 && 0 <= q < 4 ::
        result[p, q] == if WrittenBefore(p, q, i, 0) then target[p][q] else prior[p][q]
    {
      for j := 0 to 3
        invariant forall p, q | 0 <= p < 3 && 0 <= q < 4 ::
          result[p, q] == if WrittenBefore(p, q, i, j) then target[p][q] else prior[p][q]
      {
        AccumulateEntry(result, lhs, rhs, i, j);
      }
    }
  }

  /** One entry of `matMul33`: zero `result[i][j]`, then add the three products of row i and column j. */
  method AccumulateEntry(result: array2<real>, lhs: array2<real>, rhs: array2<real>, i: nat, j: nat)
    requires Is34(result) && Is34(lhs) && Is34(rhs)
    requires result != lhs && result != rhs
    requires i < 3 && j < 3
    modifies result
    ensures result[i, j] == RowTimesColumn(Entries(lhs), Entries(rhs), i, j)
    ensures forall p, q | 0 <= p < 3 && 0 <= q < 4 && (p != i || q != j) :: result[p, q] == old(result[p, q])
  {
    result[i, j] := 0.0;
    for k := 0 to 3
      invariant result[i, j] == PartialRowTimesColumn(Entries(lhs), Entries(rhs), i, j, k)
      invariant forall p, q | 0 <= p < 3 && 0 <= q < 4 && (p != i || q != j) :: result[p, q] == old(result[p, q])
    {
      result[i, j] := result[i, j] + lhs[i, k] * rhs[k, j];
    }
  }

  /** `matMul33` of a matrix and a column vector: `result` is the block applied to `rhs`. */
  method MatTimesVec33(result: array<real>, lhs: array2<real>, rhs: array<real>)
    requires Is34(lhs) && result.Length == 3 && rhs.Length == 3
    requires result != rhs
    modifies result
    ensures result[..] == MatTimesVec(Entries(lhs), rhs[..])
  {
    for i := 0 to 3
      invariant forall p | 0 <= p < i :: result[p] == MatTimesVec(Entries(lhs), rhs[..])[p]
    {
      AccumulateRowTimesVec(result, lhs, rhs, i);
    }
  }

  /** One entry of MatTimesVec33: zero `result[i]`, then add the three products of row i with `rhs`. */
  method AccumulateRowTimesVec(result: array<real>, lhs: array2<real>, rhs: array<real>, i: nat)
    requires Is34(lhs) && result.Length == 3 && rhs.Length == 3
    requires result != rhs && i < 3
    modifies result
    ensures result[i] == MatTimesVec(Entries(lhs), rhs[..])[i]
    ensures forall p | 0 <= p < 3 && p != i :: result[p] == old(result[p])
  {
    ghost var m, v := Entries(lhs), rhs[..];
    result[i] := 0.0;
    for k := 0 to 3
      invariant result[i] == PartialRowTimesVec(m, v, i, k)
      invariant forall p | 0 <= p < 3 && p != i :: result[p] == old(result[p])
    {
      PartialRowTimesVecStep(m, v, i, k);
      result[i] := result[i] + lhs[i, k] * rhs[k];
    }
  }

  /** The sum of the first k of the three terms of row i of m times v. */
  function PartialRowTimesVec(m: Mat34, v: seq<real>, i: nat, k: nat): (r: real)
    requires |v| == 3 && i < 3 && k <= 3
    ensures k == 0 ==> r == 0.0
    ensures k == 3 ==> r == MatTimesVec(m, v)[i]
  {
    (if k > 0 then m[i][0] * v[0] else 0.0)
    + (if k > 1 then m[i][1] * v[1] else 0.0)
    + (if k > 2 then m[i][2] * v[2] else 0.0)
  }

  /** Each pass of the inner loop of MatTimesVec33 adds the k-th term of row i. */
  lemma PartialRowTimesVecStep(m: Mat34, v: seq<real>, i: nat, k: nat)
    requires |v| == 3 && i < 3 && k < 3
    ensures PartialRowTimesVec(m, v, i, k + 1) == PartialRowTimesVec(m, v, i, k) + m[i][k] * v[k]
  {
  }

  /** The sum of the first k of the three terms of v times column i of m. */
  function PartialVecTimesColumn(v: seq<real>, m: Mat34, i: nat, k: nat): (r: real)
    requires |v| == 3 && i < 3 && k <= 3
    ensures k == 0 ==> r == 0.0
    ensures k == 3 ==> r == VecTimesMat(v, m)[i]
  {
    (if k > 0 then v[0] * m[0][i] else 0.0)
    + (if k > 1 then v[1] * m[1][i] else 0.0)
    + (if k > 2 then v[2] * m[2][i] else 0.0)
  }

  /** Each pass of the inner loop of VecTimesMat33 adds the k-th term of column i. */
  lemma PartialVecTimesColumnStep(v: seq<real>, m: Mat34, i: nat, k: nat)
    requires |v| == 3 && i < 3 && k < 3
    ensures PartialVecTimesColumn(v, m, i, k + 1) == PartialVecTimesColumn(v, m, i, k) + v[k] * m[k][i]
  {
  }

  /** `matMul33` of a row vector and a matrix: `result` is `lhs` times the block, i.e. the transposed product. */
  method VecTimesMat33(result: array<real>, lhs: array<real>, rhs: array2<real>)
    requires Is34(rhs) && result.Length == 3 && lhs.Length == 3
    requires result != lhs
    modifies result
    ensures result[..] == VecTimesMat(lhs[..], Entries(rhs))
  {
    for i := 0 to 3
      invariant forall p | 0 <= p < i :: result[p] == VecTimesMat(lhs[..], Entries(rhs))[p]
    {
      AccumulateVecTimesColumn(result, lhs, rhs, i);
    }
  }

  /** One entry of VecTimesMat33: zero `result[i]`, then add the three products of `lhs` with column i. */
  method AccumulateVecTimesColumn(result: array<real>, lhs: array<real>, rhs: array2<real>, i: nat)
    requires Is34(rhs) && result.Length == 3 && lhs.Length == 3
    requires result != lhs && i < 3
    modifies result
    ensures result[i] == VecTimesMat(lhs[..], Entries(rhs))[i]
    ensures forall p | 0 <= p < 3 && p != i :: result[p] == old(result[p])
  {
    ghost var v, m := lhs[..], Entries(rhs);
    result[i] := 0.0;
    for k := 0 to 3
      invariant result[i] == PartialVecTimesColumn(v, m, i, k)
      invariant forall p | 0 <= p < 3 && p != i :: result[p] == old(result[p])
    {
      PartialVecTimesColumnStep(v, m, i, k);
      result[i] := result[i] + lhs[k] * rhs[k, i];
    }
  }

}
