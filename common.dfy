/**
 * Value types shared by the boundary pipeline, the distance engine and the
 * settings serialisers: an optional value, OpenVR's 3-vectors, 3x4 pose
 * matrices and chaperone wall quads, with coordinates as reals.
 */
module Common {

  datatype Option<T> = None | Some(value: T)

  /** `vr::HmdVector3_t`: x, y (up), z. */
  datatype Vec3 = Vec3(x: real, y: real, z: real)

  /** `vr::HmdMatrix34_t`: three rows of four entries; column 3 is the translation. */
  type Mat34 = m: seq<seq<real>> | |m| == 3 && forall i :: 0 <= i < 3 ==> |m[i]| == 4
    witness [[0.0, 0.0, 0.0, 0.0], [0.0, 0.0, 0.0, 0.0], [0.0, 0.0, 0.0, 0.0]]

  /** The pose whose rotation block is the identity and whose translation is zero. */
  const IdentityPose: Mat34 := [[1.0, 0.0, 0.0, 0.0], [0.0, 1.0, 0.0, 0.0], [0.0, 0.0, 1.0, 0.0]]

  /** `vr::HmdQuad_t`: the four corners `vCorners[0..3]` of one chaperone wall. */
  datatype Quad = Quad(v0: Vec3, v1: Vec3, v2: Vec3, v3: Vec3)

  /** A square is never negative. */
  lemma SquareNonnegative(a: real)
    ensures a * a >= 0.0
  {
  }

  /**
   * The squared distance between two points in the floor (x/z) plane; the
   * source takes its square root, which is monotone, so every comparison of
   * distances is the same comparison of these squares.
   */
  function PlanarDistSquared(a: Vec3, b: Vec3): real {
    SumOfSquares(a.x - b.x, a.z - b.z)
  }

  /** The squared length of the planar vector (dx, dz). */
  function SumOfSquares(dx: real, dz: real): real {
    dx * dx + dz * dz
  }

  /** `(i + 1) % n` for an index below `n`: the next index around a polygon. */
  function CyclicSuccessor(i: nat, n: nat): (j: nat)
    requires i < n
    ensures j < n
    ensures j == (i + 1) % n
  {
    if i + 1 < n then i + 1 else 0
  }

  /** Bounds of the source's `uint32_t`. */
  const UINT32_MODULUS: int := 0x1_0000_0000
  type uint32 = n: int | 0 <= n < UINT32_MODULUS
}
