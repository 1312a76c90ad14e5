/**
 * OpenVR quaternions (w, x, y, z): the Hamilton product, the conjugate, the
 * conversion from a 3x4 pose matrix, and the roll angle. Doubles are reals;
 * the square root and the arcsine are passed in as functions, with only the
 * properties the statements below need.
 */
module Quaternion {
  import opened Common

  /** `vr::HmdQuaternion_t`. */
  datatype Quat = Quat(w: real, x: real, y: real, z: real)

  const IdentityQuat: Quat := Quat(1.0, 0.0, 0.0, 0.0)

  /** `multiply`: the Hamilton product lhs * rhs. */
  function Multiply(lhs: Quat, rhs: Quat): Quat {
    Quat(lhs.w * rhs.w - lhs.x * rhs.x - lhs.y * rhs.y - lhs.z * rhs.z,
         lhs.w * rhs.x + lhs.x * rhs.w + lhs.y * rhs.z - lhs.z * rhs.y,
         lhs.w * rhs.y + lhs.y * rhs.w + lhs.z * rhs.x - lhs.x * rhs.z,
         lhs.w * rhs.z + lhs.z * rhs.w + lhs.x * rhs.y - lhs.y * rhs.x)
  }

  /** `conjugate`: the vector part negated. */
  function Conjugate(q: Quat): (r: Quat)
    ensures r.w == q.w && r.x == -q.x && r.y == -q.y && r.z == -q.z
  {
    Quat(q.w, -q.x, -q.y, -q.z)
  }

  /** The squared norm w^2 + x^2 + y^2 + z^2. */
  function NormSquared(q: Quat): real {
    Squared(q.w) + Squared(q.x) + Squared(q.y) + Squared(q.z)
  }

  function Squared(a: real): real {
    a * a
  }

  // ---------------------------------------------------------------------
  // Algebra of the product and the conjugate
  // ---------------------------------------------------------------------

  /** Conjugating twice gives back the quaternion. */
  lemma ConjugateInvolution(q: Quat)
    ensures Conjugate(Conjugate(q)) == q
  {
  }

  /** (1, 0, 0, 0) is a left and a right identity of the product. */
  lemma IdentityIsNeutral(q: Quat)
    ensures Multiply(IdentityQuat, q) == q
    ensures Multiply(q, IdentityQuat) == q
  {
  }

  /** The conjugate of a product is the product of the conjugates in reverse order. */
  lemma ConjugateOfProduct(a: Quat, b: Quat)
    ensures Conjugate(Multiply(a, b)) == Multiply(Conjugate(b), Conjugate(a))
  {
    ConjugateOfProductComponents(a.w, a.x, a.y, a.z, b.w, b.x, b.y, b.z);
  }

  /** ConjugateOfProduct component by component. */
  lemma ConjugateOfProductComponents(aw: real, ax: real, ay: real, az: real, bw: real, bx: real, bY: real, bz: real)
    ensures aw * bw - ax * bx - ay * bY - az * bz == bw * aw - (-bx) * (-ax) - (-bY) * (-ay) - (-bz) * (-az)
    ensures -(aw * bx + ax * bw + ay * bz - az * bY) == bw * (-ax) + (-bx) * aw + (-bY) * (-az) - (-bz) * (-ay)
    ensures -(aw * bY + ay * bw + az * bx - ax * bz) == bw * (-ay) + (-bY) * aw + (-bz) * (-ax) - (-bx) * (-az)
    ensures -(aw * bz + az * bw + ax * bY - ay * bx) == bw * (-az) + (-bz) * aw + (-bx) * (-ay) - (-bY) * (-ax)
  {
  }

  /** A quaternion times its conjugate is the real quaternion of its squared norm, on either side. */
  lemma ProductWithConjugate(q: Quat)
    ensures Multiply(q, Conjugate(q)) == Quat(NormSquared(q), 0.0, 0.0, 0.0)
    ensures Multiply(Conjugate(q), q) == Quat(NormSquared(q), 0.0, 0.0, 0.0)
  {
  }

  /** So the conjugate of a unit quaternion is its inverse. */
  lemma UnitConjugateIsInverse(q: Quat)
    requires NormSquared(q) == 1.0
    ensures Multiply(q, Conjugate(q)) == IdentityQuat
    ensures Multiply(Conjugate(q), q) == IdentityQuat
  {
    ProductWithConjugate(q);
  }

  // ---------------------------------------------------------------------
  // fromHmdMatrix34
  // ---------------------------------------------------------------------

  /** sqrt(v) is the non-negative square root of v. */
  ghost predicate RootOf(sqrt: real -> real, v: real) {
    0.0 <= sqrt(v) && sqrt(v) * sqrt(v) == v
  }

  /** A square root on the non-negative reals. */
  ghost predicate IsSquareRoot(sqrt: real -> real) {
    forall v :: 0.0 <= v ==> RootOf(sqrt, v)
  }

  function Max0(v: real): (r: real)
    ensures r >= 0.0 && r >= v && (r == v || r == 0.0)
  {
    if v > 0.0 then v else 0.0
  }

  /**
   * `copysign` on reals: the magnitude of `magnitude` with the sign of
   * `sign`. Reals have no signed zero, so a zero sign counts as positive.
   */
  function CopySign(magnitude: real, sign: real): (r: real)
    ensures 0.0 <= sign ==> r == if magnitude < 0.0 then -magnitude else magnitude
    ensures sign < 0.0 ==> r == if magnitude < 0.0 then magnitude else -magnitude
  {
    var a := if magnitude < 0.0 then -magnitude else magnitude;
    if sign < 0.0 then -a else a
  }

  /** The four diagonal combinations 1 +- m00 +- m11 +- m22 under the square roots, for w, x, y and z. */
  function TraceW(m: Mat34): real { 1.0 + m[0][0] + m[1][1] + m[2][2] }
  function TraceX(m: Mat34): real { 1.0 + m[0][0] - m[1][1] - m[2][2] }
  function TraceY(m: Mat34): real { 1.0 - m[0][0] + m[1][1] - m[2][2] }
  function TraceZ(m: Mat34): real { 1.0 - m[0][0] - m[1][1] + m[2][2] }

  /** Half the root of a diagonal combination clamped at 0: the magnitude of one component. */
  function HalfRoot(sqrt: real -> real, v: real): (r: real)
    requires IsSquareRoot(sqrt)
    ensures r >= 0.0
  {
    assert RootOf(sqrt, Max0(v));
    sqrt(Max0(v)) / 2.0
  }

  /** `fromHmdMatrix34`. */
  function FromHmdMatrix34(m: Mat34, sqrt: real -> real): (q: Quat)
    requires IsSquareRoot(sqrt)
    ensures q.w >= 0.0
    ensures m[2][1] - m[1][2] >= 0.0 ==> q.x >= 0.0
    ensures m[2][1] - m[1][2] < 0.0 ==> q.x <= 0.0
    ensures m[0][2] - m[2][0] >= 0.0 ==> q.y >= 0.0
    ensures m[0][2] - m[2][0] < 0.0 ==> q.y <= 0.0
    ensures m[1][0] - m[0][1] >= 0.0 ==> q.z >= 0.0
    ensures m[1][0] - m[0][1] < 0.0 ==> q.z <= 0.0
  {
    Quat(HalfRoot(sqrt, TraceW(m)),
         CopySign(HalfRoot(sqrt, TraceX(m)), m[2][1] - m[1][2]),
         CopySign(HalfRoot(sqrt, TraceY(m)), m[0][2] - m[2][0]),
         CopySign(HalfRoot(sqrt, TraceZ(m)), m[1][0] - m[0][1]))
  }

  lemma HalfRootSquared(sqrt: real -> real, v: real)
    requires IsSquareRoot(sqrt)
    ensures Squared(HalfRoot(sqrt, v)) == Max0(v) / 4.0
  {
    assert RootOf(sqrt, Max0(v));
    var r := sqrt(Max0(v));
    assert r * r == Max0(v);
    assert (r / 2.0) * (r / 2.0) == (r * r) / 4.0;
  }

  lemma CopySignSquared(magnitude: real, sign: real)
    ensures Squared(CopySign(magnitude, sign)) == Squared(magnitude)
  {
    assert (-magnitude) * (-magnitude) == magnitude * magnitude;
  }

  /** A component computed as half a root, with any sign copied onto it, squares to a quarter of the clamped radicand. */
  lemma SignedHalfRootSquared(sqrt: real -> real, v: real, sign: real)
    requires IsSquareRoot(sqrt)
    ensures Squared(CopySign(HalfRoot(sqrt, v), sign)) == Max0(v) / 4.0
  {
    CopySignSquared(HalfRoot(sqrt, v), sign);
    HalfRootSquared(sqrt, v);
  }

  /** The real part's square is a quarter of 1 + m00 + m11 + m22, clamped at 0. */
  lemma SquareW(m: Mat34, sqrt: real -> real)
    requires IsSquareRoot(sqrt)
    ensures Squared(FromHmdMatrix34(m, sqrt).w) == Max0(TraceW(m)) / 4.0
  {
    HalfRootSquared(sqrt, TraceW(m));
  }

  /** The x part's square is a quarter of 1 + m00 - m11 - m22, clamped at 0, whatever sign it took. */
  lemma SquareX(m: Mat34, sqrt: real -> real)
    requires IsSquareRoot(sqrt)
    ensures Squared(FromHmdMatrix34(m, sqrt).x) == Max0(TraceX(m)) / 4.0
  {
    SignedHalfRootSquared(sqrt, TraceX(m), m[2][1] - m[1][2]);
  }

  /** The y part's square is a quarter of 1 - m00 + m11 - m22, clamped at 0, whatever sign it took. */
  lemma SquareY(m: Mat34, sqrt: real -> real)
    requires IsSquareRoot(sqrt)
    ensures Squared(FromHmdMatrix34(m, sqrt).y) == Max0(TraceY(m)) / 4.0
  {
    SignedHalfRootSquared(sqrt, TraceY(m), m[0][2] - m[2][0]);
  }

  /** The z part's square is a quarter of 1 - m00 - m11 + m22, clamped at 0, whatever sign it took. */
  lemma SquareZ(m: Mat34, sqrt: real -> real)
    requires IsSquareRoot(sqrt)
    ensures Squared(FromHmdMatrix34(m, sqrt).z) == Max0(TraceZ(m)) / 4.0
  {
    SignedHalfRootSquared(sqrt, TraceZ(m), m[1][0] - m[0][1]);
  }

  /**
   * When none of the four combinations is clamped (true of every rotation
   * matrix, whose diagonal lies in [-1, 1] with the right sums), the result
   * is a unit quaternion: the combinations always sum to 4.
   */
  lemma FromRotationIsUnit(m: Mat34, sqrt: real -> real)
    requires IsSquareRoot(sqrt)
    requires TraceW(m) >= 0.0 && TraceX(m) >= 0.0 && TraceY(m) >= 0.0 && TraceZ(m) >= 0.0
    ensures NormSquared(FromHmdMatrix34(m, sqrt)) == 1.0
  {
    SquareW(m, sqrt);
    SquareX(m, sqrt);
    SquareY(m, sqrt);
    SquareZ(m, sqrt);
  }

  // ---------------------------------------------------------------------
  // getRoll
  // ---------------------------------------------------------------------

  /** The source's value of pi. */
  const PI: real := 3.14159265358979323846

  /** An arcsine: maps [-1, 1] into [-pi/2, pi/2]. */
  ghost predicate IsArcSine(asin: real -> real) {
    forall v :: -1.0 <= v <= 1.0 ==> -PI / 2.0 <= asin(v) <= PI / 2.0
  }

  /** `sinp` of `getRoll`: 2 (w z - y x). */
  function SinRoll(q: Quat): real {
    2.0 * (q.w * q.z - q.y * q.x)
  }

  /**
   * `getRoll`: plus or minus pi/2, with the sign of sinp, once |sinp| >= 1;
   * otherwise asin(sinp).
   */
  function GetRoll(q: Quat, asin: real -> real): (r: real)
    ensures SinRoll(q) >= 1.0 ==> r == PI / 2.0
    ensures SinRoll(q) <= -1.0 ==> r == -PI / 2.0
    ensures -1.0 < SinRoll(q) < 1.0 ==> r == asin(SinRoll(q))
  {
    var sinp := SinRoll(q);
    if (if sinp < 0.0 then -sinp else sinp) >= 1.0 then CopySign(PI / 2.0, sinp)
    else asin(sinp)
  }

  /** With a true arcsine, the roll always lies in [-pi/2, pi/2]. */
  lemma RollInRange(q: Quat, asin: real -> real)
    requires IsArcSine(asin)
    ensures -PI / 2.0 <= GetRoll(q, asin) <= PI / 2.0
  {
  }

  /** The identity orientation has roll asin(0). */
  lemma IdentityRoll(asin: real -> real)
    ensures GetRoll(IdentityQuat, asin) == asin(0.0)
  {
  }
}
