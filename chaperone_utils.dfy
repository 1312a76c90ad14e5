/**
 * The boundary distance engine: a polygon of chaperone corners loaded from
 * the runtime, the per-wall nearest point and distance for a query point in
 * the floor (x/z) plane, and the selection of the nearest wall.
 *
 * Distances are kept squared (see `Common.PlanarDistSquared`). A float NaN
 * is the `NaN` constructor of `Distance`; it arises for a wall whose two
 * corners coincide in x/z, where the projection divides 0 by 0.
 */
module ChaperoneUtils {
  import opened Common

  datatype Distance = NaN | Value(squared: real)

  /**
   * `ChaperoneQuadData`: the distance to one wall, the nearest point on it
   * (`None` where its x and z are NaN) and the wall's two corners.
   */
  datatype Sample = Sample(distance: Distance, nearestPoint: Option<Vec3>, corner0: Vec3, corner1: Vec3)

  /** The point at parameter `t` along the wall from `r0` to `r1`, at height `h`. */
  function PointOnWall(r0: Vec3, r1: Vec3, t: real, h: real): Vec3 {
    Vec3(Lerp(r0.x, r1.x, t), h, Lerp(r0.z, r1.z, t))
  }

  /** The coordinate at parameter t from a to b. */
  function Lerp(a: real, b: real, t: real): real {
    a + t * (b - a)
  }

  /** Squared x/z length of a wall. */
  function WallLengthSquared(r0: Vec3, r1: Vec3): real {
    SumOfSquares(r1.x - r0.x, r1.z - r0.z)
  }

  /** The x/z dot product of the wall with the offset of `x` from its start. */
  function WallDot(r0: Vec3, r1: Vec3, x: Vec3): real {
    DotProduct(x.x - r0.x, x.z - r0.z, r1.x - r0.x, r1.z - r0.z)
  }

  /** The dot product of the planar vectors (px, pz) and (ux, uz). */
  function DotProduct(px: real, pz: real, ux: real, uz: real): real {
    px * ux + pz * uz
  }

  /** The projection parameter of `x` on the line through the wall (`r` in the source). */
  function Projection(r0: Vec3, r1: Vec3, x: Vec3): real
    requires WallLengthSquared(r0, r1) != 0.0
  {
    WallDot(r0, r1, x) / WallLengthSquared(r0, r1)
  }

  /**
   * One iteration of `_getDistancesToChaperone`: project onto the wall; if the
   * projection falls outside it, take the strictly closer end, else `r1`.
   */
  function WallSample(r0: Vec3, r1: Vec3, x: Vec3): (s: Sample)
    ensures s.corner0 == r0 && s.corner1 == r1
    ensures s.distance.NaN? <==> s.nearestPoint.None?
    ensures s.nearestPoint.Some? ==>
      s.nearestPoint.value.y == x.y && s.distance.squared == PlanarDistSquared(s.nearestPoint.value, x)
  {
    if WallLengthSquared(r0, r1) == 0.0 then
      Sample(NaN, None, r0, r1)
    else
      var r := Projection(r0, r1, x);
      if r < 0.0 || r > 1.0 then
        var d1 := PlanarDistSquared(r0, x);
        var d2 := PlanarDistSquared(r1, x);
        if d1 < d2 then Sample(Value(d1), Some(Vec3(r0.x, x.y, r0.z)), r0, r1)
        else Sample(Value(d2), Some(Vec3(r1.x, x.y, r1.z)), r0, r1)
      else
        var p := PointOnWall(r0, r1, r, x.y);
        Sample(Value(PlanarDistSquared(p, x)), Some(p), r0, r1)
  }

  /** The samples for every wall of a polygon, wall i running from corner i to its cyclic successor. */
  function Samples(corners: seq<Vec3>, x: Vec3): (r: seq<Sample>)
    ensures |r| == |corners|
    ensures forall i :: 0 <= i < |r| ==> r[i].corner0 == corners[i] && r[i].corner1 == corners[CyclicSuccessor(i, |corners|)]
  {
    seq(|corners|, i requires 0 <= i < |corners| => WallSample(corners[i], corners[CyclicSuccessor(i, |corners|)], x))
  }

  /** Samples of the first n corners, element by element. */
  lemma SamplesOfPrefix(corners: seq<Vec3>, n: nat, x: Vec3, result: seq<Sample>)
    requires n <= |corners| && |result| == n
    requires forall k :: 0 <= k < n ==> result[k] == WallSample(corners[k], corners[CyclicSuccessor(k, n)], x)
    ensures result == Samples(corners[..n], x)
  {
    var expected := Samples(corners[..n], x);
    forall k | 0 <= k < n
      ensures result[k] == expected[k]
    {
      assert corners[..n][k] == corners[k];
      assert corners[..n][CyclicSuccessor(k, n)] == corners[CyclicSuccessor(k, n)];
    }
  }

  /**
   * A wall yields NaN exactly when its squared length is zero (the projection
   * divides by it), in particular when its corners coincide in the floor plane.
   */
  lemma NaNIffZeroLength(r0: Vec3, r1: Vec3, x: Vec3)
    ensures WallSample(r0, r1, x).distance.NaN? <==> WallLengthSquared(r0, r1) == 0.0
    ensures r0.x == r1.x && r0.z == r1.z ==> WallSample(r0, r1, x).distance.NaN?
  {
    if r0.x == r1.x && r0.z == r1.z {
      assert r1.x - r0.x == 0.0 && r1.z - r0.z == 0.0;
      assert (r1.x - r0.x) * (r1.x - r0.x) == 0.0 && (r1.z - r0.z) * (r1.z - r0.z) == 0.0;
    }
  }

  /**
   * How much farther the wall's point at parameter t is (squared) than its
   * point at the projection r, for a wall of squared length k.
   */
  function Excess(k: real, r: real, t: real): real {
    k * ((t - r) * (t - r))
  }

  /** The cross term between the points at parameters t and r, for squared length k and dot product d. */
  function Cross(k: real, d: real, r: real, t: real): real {
    2.0 * (t - r) * (r * k - d)
  }

  /** The squared distance from p to the point at parameter t on the line from a to b, in coordinates. */
  lemma LineDistanceExpanded(ax: real, az: real, bx: real, bz: real, px: real, pz: real, t: real)
    ensures SumOfSquares(Lerp(ax, bx, t) - px, Lerp(az, bz, t) - pz)
         == (ax + t * (bx - ax) - px) * (ax + t * (bx - ax) - px) + (az + t * (bz - az) - pz) * (az + t * (bz - az) - pz)
  {
  }

  /** The identity below, in coordinates, with k and d the squared length and the dot product. */
  lemma ExpandedIdentity(ax: real, az: real, bx: real, bz: real, px: real, pz: real, k: real, d: real, r: real, t: real)
    requires k == SumOfSquares(bx - ax, bz - az) && d == DotProduct(px - ax, pz - az, bx - ax, bz - az)
    ensures (ax + t * (bx - ax) - px) * (ax + t * (bx - ax) - px) + (az + t * (bz - az) - pz) * (az + t * (bz - az) - pz)
         == (ax + r * (bx - ax) - px) * (ax + r * (bx - ax) - px) + (az + r * (bz - az) - pz) * (az + r * (bz - az) - pz)
            + Excess(k, r, t) + Cross(k, d, r, t)
  {
  }

  /**
   * For the points at parameters t and r on the line from a to b:
   * |a + t u - p|^2 == |a + r u - p|^2 + |u|^2 (t - r)^2 + 2 (t - r) (r |u|^2 - (p - a).u),
   * with u = b - a.
   */
  lemma LineDistanceIdentity(ax: real, az: real, bx: real, bz: real, px: real, pz: real, r: real, t: real)
    ensures SumOfSquares(Lerp(ax, bx, t) - px, Lerp(az, bz, t) - pz)
         == SumOfSquares(Lerp(ax, bx, r) - px, Lerp(az, bz, r) - pz) + Excess(SumOfSquares(bx - ax, bz - az), r, t)
            + Cross(SumOfSquares(bx - ax, bz - az), DotProduct(px - ax, pz - az, bx - ax, bz - az), r, t)
  {
    LineDistanceExpanded(ax, az, bx, bz, px, pz, t);
    LineDistanceExpanded(ax, az, bx, bz, px, pz, r);
    ExpandedIdentity(ax, az, bx, bz, px, pz, SumOfSquares(bx - ax, bz - az), DotProduct(px - ax, pz - az, bx - ax, bz - az), r, t);
  }

  /**
   * LineDistanceIdentity on the wall's points: with u the wall's direction,
   * |P(t) - x|^2 == |P(r) - x|^2 + |u|^2 (t - r)^2 + 2 (t - r) (r |u|^2 - (x - r0).u).
   */
  lemma WallDistanceIdentity(r0: Vec3, r1: Vec3, x: Vec3, r: real, t: real)
    ensures PlanarDistSquared(PointOnWall(r0, r1, t, x.y), x)
        == PlanarDistSquared(PointOnWall(r0, r1, r, x.y), x) + Excess(WallLengthSquared(r0, r1), r, t)
           + Cross(WallLengthSquared(r0, r1), WallDot(r0, r1, x), r, t)
  {
    LineDistanceIdentity(r0.x, r0.z, r1.x, r1.z, x.x, x.z, r, t);
  }

  /** At the projection the cross term vanishes, since the projection times the squared length is the dot product. */
  lemma CrossVanishes(r0: Vec3, r1: Vec3, x: Vec3, t: real)
    requires WallLengthSquared(r0, r1) != 0.0
    ensures Cross(WallLengthSquared(r0, r1), WallDot(r0, r1, x), Projection(r0, r1, x), t) == 0.0
  {
  }

  /**
   * Along the wall, the squared distance exceeds the one at the projection by
   * the squared wall length times the squared parameter difference.
   */
  lemma DistanceAlongWall(r0: Vec3, r1: Vec3, x: Vec3, t: real)
    requires WallLengthSquared(r0, r1) != 0.0
    ensures PlanarDistSquared(PointOnWall(r0, r1, t, x.y), x)
        == PlanarDistSquared(PointOnWall(r0, r1, Projection(r0, r1, x), x.y), x)
           + Excess(WallLengthSquared(r0, r1), Projection(r0, r1, x), t)
  {
    WallDistanceIdentity(r0, r1, x, Projection(r0, r1, x), t);
    CrossVanishes(r0, r1, x, t);
  }

  lemma ScaleMonotone(k: real, a: real, b: real)
    requires k >= 0.0 && a >= b
    ensures k * a >= k * b
  {
  }

  lemma ProductNonnegative(a: real, b: real)
    requires a >= 0.0 && b >= 0.0
    ensures a * b >= 0.0
  {
  }

  /**
   * Before the start of the wall (projection r < 0), every point of it
   * (t >= 0) is at least as far from the projection as the start is.
   */
  lemma BeforeStart(k: real, r: real, t: real)
    requires k >= 0.0 && r < 0.0 && t >= 0.0
    ensures Excess(k, r, 0.0) <= Excess(k, r, t)
  {
    assert (t - r) * (t - r) - (0.0 - r) * (0.0 - r) == t * (t - 2.0 * r);
    ProductNonnegative(t, t - 2.0 * r);
    ScaleMonotone(k, (t - r) * (t - r), (0.0 - r) * (0.0 - r));
  }

  /** Past the end of the wall (r > 1), likewise every point of it (t <= 1) is as far as the end. */
  lemma PastEnd(k: real, r: real, t: real)
    requires k >= 0.0 && r > 1.0 && t <= 1.0
    ensures Excess(k, r, 1.0) <= Excess(k, r, t)
  {
    assert (t - r) * (t - r) - (1.0 - r) * (1.0 - r) == (1.0 - t) * (2.0 * r - 1.0 - t);
    ProductNonnegative(1.0 - t, 2.0 * r - 1.0 - t);
    ScaleMonotone(k, (t - r) * (t - r), (1.0 - r) * (1.0 - r));
  }

  lemma ExcessNonnegative(k: real, r: real, t: real)
    requires k >= 0.0
    ensures Excess(k, r, t) >= 0.0
  {
    SquareNonnegative(t - r);
    ProductNonnegative(k, (t - r) * (t - r));
  }

  lemma WallLengthNonnegative(r0: Vec3, r1: Vec3)
    ensures WallLengthSquared(r0, r1) >= 0.0
  {
    SquareNonnegative(r1.x - r0.x);
    SquareNonnegative(r1.z - r0.z);
  }

  /** The wall's start measured from the projection. */
  lemma StartExcess(r0: Vec3, r1: Vec3, x: Vec3)
    requires WallLengthSquared(r0, r1) != 0.0
    ensures PlanarDistSquared(r0, x)
        == PlanarDistSquared(PointOnWall(r0, r1, Projection(r0, r1, x), x.y), x)
           + Excess(WallLengthSquared(r0, r1), Projection(r0, r1, x), 0.0)
  {
    DistanceAlongWall(r0, r1, x, 0.0);
    assert PointOnWall(r0, r1, 0.0, x.y) == Vec3(r0.x, x.y, r0.z);
  }

  /** The wall's end measured from the projection. */
  lemma EndExcess(r0: Vec3, r1: Vec3, x: Vec3)
    requires WallLengthSquared(r0, r1) != 0.0
    ensures PlanarDistSquared(r1, x)
        == PlanarDistSquared(PointOnWall(r0, r1, Projection(r0, r1, x), x.y), x)
           + Excess(WallLengthSquared(r0, r1), Projection(r0, r1, x), 1.0)
  {
    DistanceAlongWall(r0, r1, x, 1.0);
    assert PointOnWall(r0, r1, 1.0, x.y) == Vec3(r1.x, x.y, r1.z);
  }

  /** When the projection falls before the wall, the wall's start is its nearest point. */
  lemma StartIsNearest(r0: Vec3, r1: Vec3, x: Vec3, t: real)
    requires WallLengthSquared(r0, r1) != 0.0 && Projection(r0, r1, x) < 0.0
    requires 0.0 <= t <= 1.0
    ensures PlanarDistSquared(r0, x) <= PlanarDistSquared(PointOnWall(r0, r1, t, x.y), x)
  {
    WallLengthNonnegative(r0, r1);
    DistanceAlongWall(r0, r1, x, t);
    StartExcess(r0, r1, x);
    BeforeStart(WallLengthSquared(r0, r1), Projection(r0, r1, x), t);
  }

  /** When the projection falls past the wall, the wall's end is its nearest point. */
  lemma EndIsNearest(r0: Vec3, r1: Vec3, x: Vec3, t: real)
    requires WallLengthSquared(r0, r1) != 0.0 && Projection(r0, r1, x) > 1.0
    requires 0.0 <= t <= 1.0
    ensures PlanarDistSquared(r1, x) <= PlanarDistSquared(PointOnWall(r0, r1, t, x.y), x)
  {
    WallLengthNonnegative(r0, r1);
    DistanceAlongWall(r0, r1, x, t);
    EndExcess(r0, r1, x);
    PastEnd(WallLengthSquared(r0, r1), Projection(r0, r1, x), t);
  }

  /** When the projection falls on the wall, the projected point is its nearest point. */
  lemma ProjectionIsNearest(r0: Vec3, r1: Vec3, x: Vec3, t: real)
    requires WallLengthSquared(r0, r1) != 0.0
    ensures PlanarDistSquared(PointOnWall(r0, r1, Projection(r0, r1, x), x.y), x)
         <= PlanarDistSquared(PointOnWall(r0, r1, t, x.y), x)
  {
    WallLengthNonnegative(r0, r1);
    DistanceAlongWall(r0, r1, x, t);
    ExcessNonnegative(WallLengthSquared(r0, r1), Projection(r0, r1, x), t);
  }

  /**
   * The sample is the nearest point of the wall: its distance is no larger than
   * that of any point of the segment between the two corners.
   */
  lemma SampleIsNearestOnWall(r0: Vec3, r1: Vec3, x: Vec3, t: real)
    requires WallLengthSquared(r0, r1) != 0.0
    requires 0.0 <= t <= 1.0
    ensures WallSample(r0, r1, x).distance.Value?
    ensures WallSample(r0, r1, x).distance.squared <= PlanarDistSquared(PointOnWall(r0, r1, t, x.y), x)
  {
    var r := Projection(r0, r1, x);
    if r < 0.0 {
      StartIsNearest(r0, r1, x, t);
    } else if r > 1.0 {
      EndIsNearest(r0, r1, x, t);
    } else {
      ProjectionIsNearest(r0, r1, x, t);
    }
  }

  /**
   * The nearest point lies on the wall: it is the point at some parameter in
   * [0, 1], at the query's height.
   */
  lemma NearestPointOnWall(r0: Vec3, r1: Vec3, x: Vec3) returns (t: real)
    requires WallLengthSquared(r0, r1) != 0.0
    ensures 0.0 <= t <= 1.0
    ensures WallSample(r0, r1, x).nearestPoint == Some(PointOnWall(r0, r1, t, x.y))
  {
    var r := Projection(r0, r1, x);
    if r < 0.0 || r > 1.0 {
      if PlanarDistSquared(r0, x) < PlanarDistSquared(r1, x) {
        t := 0.0;
      } else {
        t := 1.0;
      }
    } else {
      t := r;
    }
  }

  /**
   * The squared distance from the far end, expanded around the near end:
   * |b - p|^2 = |a - p|^2 - 2 (p - a).(b - a) + |b - a|^2.
   */
  lemma EndDistanceExpanded(ax: real, az: real, bx: real, bz: real, px: real, pz: real)
    ensures SumOfSquares(bx - px, bz - pz)
         == SumOfSquares(ax - px, az - pz) - 2.0 * DotProduct(px - ax, pz - az, bx - ax, bz - az)
            + SumOfSquares(bx - ax, bz - az)
  {
  }

  /**
   * Equal distances to both ends of a wall put the projection exactly at the
   * wall's midpoint. So the tie branch of the endpoint choice (the projection
   * outside [0, 1] with `d1 == d2`) is reachable only through floating-point
   * rounding, which this model does not have.
   */
  lemma EqualEndDistancesAtMidpoint(r0: Vec3, r1: Vec3, x: Vec3)
    requires WallLengthSquared(r0, r1) != 0.0
    requires PlanarDistSquared(r0, x) == PlanarDistSquared(r1, x)
    ensures Projection(r0, r1, x) == 0.5
  {
    EndDistanceExpanded(r0.x, r0.z, r1.x, r1.z, x.x, x.z);
    var k := WallLengthSquared(r0, r1);
    assert WallDot(r0, r1, x) == 0.5 * k;
  }

  /**
   * `closestCorner`: `corners[0]` when it is strictly closer to `point` in the
   * floor plane, otherwise `corners[1]`.
   */
  function ClosestCorner(s: Sample, point: Vec3): (c: Vec3)
    ensures c == s.corner0 || c == s.corner1
    ensures PlanarDistSquared(point, c) <= PlanarDistSquared(point, s.corner0)
    ensures PlanarDistSquared(point, c) <= PlanarDistSquared(point, s.corner1)
    ensures c == s.corner0 <== PlanarDistSquared(point, s.corner0) < PlanarDistSquared(point, s.corner1)
    ensures PlanarDistSquared(point, s.corner0) == PlanarDistSquared(point, s.corner1) ==> c == s.corner1
  {
    if PlanarDistSquared(point, s.corner0) < PlanarDistSquared(point, s.corner1) then s.corner0 else s.corner1
  }

  /** The comparator given to `std::min_element`: a NaN ranks below anything; otherwise float `<`. */
  predicate RanksBelow(a: Distance, b: Distance) {
    a.NaN? || (b.Value? && a.squared < b.squared)
  }

  /**
   * `std::min_element` with that comparator: the running choice is replaced by
   * each later element that ranks below it.
   */
  function MinElement(ds: seq<Distance>): (m: nat)
    requires |ds| > 0
    ensures m < |ds|
    decreases |ds|
  {
    if |ds| == 1 then 0
    else
      var m := MinElement(ds[..|ds| - 1]);
      if RanksBelow(ds[|ds| - 1], ds[m]) then |ds| - 1 else m
  }

  /** With no NaN, the choice is the first sample of least distance. */
  lemma {:induction false} MinElementFirstMinimum(ds: seq<Distance>)
    requires |ds| > 0
    requires forall k :: 0 <= k < |ds| ==> ds[k].Value?
    ensures var m := MinElement(ds);
      && (forall k :: 0 <= k < |ds| ==> ds[m].squared <= ds[k].squared)
      && (forall k :: 0 <= k < m ==> ds[k].squared > ds[m].squared)
    decreases |ds|
  {
    if |ds| > 1 {
      var init := ds[..|ds| - 1];
      MinElementFirstMinimum(init);
      assert forall k :: 0 <= k < |init| ==> init[k] == ds[k];
    }
  }

  /** With a NaN present, the choice is the last NaN: the comparator lets every NaN win. */
  lemma {:induction false} MinElementLastNaN(ds: seq<Distance>, j: nat)
    requires j < |ds| && ds[j].NaN?
    ensures var m := MinElement(ds);
      ds[m].NaN? && j <= m && forall k :: m < k < |ds| ==> ds[k].Value?
    decreases |ds|
  {
    var n := |ds|;
    if j < n - 1 {
      var init := ds[..n - 1];
      MinElementLastNaN(init, j);
      assert forall k :: 0 <= k < |init| ==> init[k] == ds[k];
    } else if n > 1 {
      assert RanksBelow(ds[n - 1], ds[MinElement(ds[..n - 1])]);
    }
  }

  /** The distances of a list of samples, in order. */
  function Distances(samples: seq<Sample>): (ds: seq<Distance>)
    ensures |ds| == |samples| && forall i :: 0 <= i < |ds| ==> ds[i] == samples[i].distance
  {
    seq(|samples|, i requires 0 <= i < |samples| => samples[i].distance)
  }

  /** `getDistanceToChaperone`'s choice among the samples; `None` stands for the NaN sample of an empty polygon. */
  function NearestSample(samples: seq<Sample>): (r: Option<Sample>)
    ensures r.None? <==> |samples| == 0
    ensures r.Some? ==> r.value in samples
  {
    if |samples| == 0 then None else Some(samples[MinElement(Distances(samples))])
  }

  /** With every wall non-degenerate, the nearest sample has the least distance and no earlier sample ties it. */
  lemma NearestSampleIsFirstMinimum(samples: seq<Sample>) returns (m: nat)
    requires |samples| > 0
    requires forall k :: 0 <= k < |samples| ==> samples[k].distance.Value?
    ensures m < |samples| && NearestSample(samples) == Some(samples[m])
    ensures forall k :: 0 <= k < |samples| ==> samples[m].distance.squared <= samples[k].distance.squared
    ensures forall k :: 0 <= k < m ==> samples[k].distance.squared > samples[m].distance.squared
  {
    MinElementFirstMinimum(Distances(samples));
    m := MinElement(Distances(samples));
  }

  /** One runtime read of the collision bounds. */
  datatype BoundsRead = ReadLive | ReadWorking

  /** The reload continuity test for quad i: its corner 3 is the next quad's corner 0, and its corner 0 is on the floor. */
  predicate QuadJoinsNext(quads: seq<Quad>, i: nat)
    requires i < |quads|
  {
    quads[i].v3 == quads[CyclicSuccessor(i, |quads|)].v0 && quads[i].v0.y == 0.0
  }

  predicate Continuous(quads: seq<Quad>) {
    forall i :: 0 <= i < |quads| ==> QuadJoinsNext(quads, i)
  }

  /** Corner 0 of each quad, in order. */
  function FirstCorners(quads: seq<Quad>): (cs: seq<Vec3>)
    ensures |cs| == |quads| && forall i :: 0 <= i < |cs| ==> cs[i] == quads[i].v0
  {
    seq(|quads|, i requires 0 <= i < |quads| => quads[i].v0)
  }

  class ChaperoneEngine {
    var quadsCount: uint32
    var corners: seq<Vec3>
    var wellFormed: bool
    /** The runtime getters called, in order. */
    var boundsReads: seq<BoundsRead>

    ghost predicate Valid()
      reads this
    {
      quadsCount <= |corners|
    }

    /** A fresh engine: no walls and a well-formed flag of true. */
    constructor ()
      ensures Valid() && quadsCount == 0 && wellFormed && boundsReads == []
    {
      quadsCount := 0;
      corners := [];
      wellFormed := true;
      boundsReads := [];
    }

    /**
     * `loadChaperoneData`: read the count and then the quads from the live or
     * the working bounds; with at least one quad, corner i becomes corner 0 of
     * quad i and the flag is cleared if any quad fails the continuity test.
     */
    method LoadChaperoneData(fromLiveBounds: bool, liveQuads: seq<Quad>, workingQuads: seq<Quad>)
      requires |liveQuads| < UINT32_MODULUS && |workingQuads| < UINT32_MODULUS
      requires Valid()
      modifies this
      ensures Valid()
      ensures var quads := if fromLiveBounds then liveQuads else workingQuads;
        var src := if fromLiveBounds then ReadLive else ReadWorking;
        && quadsCount == |quads|
        && (|quads| == 0 ==> corners == old(corners) && wellFormed == old(wellFormed) && boundsReads == old(boundsReads) + [src])
        && (|quads| > 0 ==>
              corners == FirstCorners(quads)
              && wellFormed == (old(wellFormed) && Continuous(quads))
              && boundsReads == old(boundsReads) + [src, src])
    {
      var quads := if fromLiveBounds then liveQuads else workingQuads;
      var src := if fromLiveBounds then ReadLive else ReadWorking;
      boundsReads := boundsReads + [src];
      quadsCount := |quads|;
      if quadsCount > 0 {
        boundsReads := boundsReads + [src];
        var cs: seq<Vec3> := [];
        var n := |quads|;
        var index := 0;
        var flag := wellFormed;
        ghost var flag0 := wellFormed;
        while index < n
          invariant 0 <= index <= n
          invariant cs == FirstCorners(quads)[..index]
          invariant flag == (flag0 && forall k :: 0 <= k < index ==> QuadJoinsNext(quads, k))
        {
          cs := cs + [quads[index].v0];
          var index2 := (index + 1) % n;
          assert index2 == CyclicSuccessor(index, n);
          assert QuadJoinsNext(quads, index) == (quads[index].v3 == quads[index2].v0 && quads[index].v0.y == 0.0);
          if quads[index].v3 != quads[index2].v0 || quads[index].v0.y != 0.0 {
            flag := false;
          }
          assert flag == (flag0 && forall k :: 0 <= k < index + 1 ==> QuadJoinsNext(quads, k));
          index := index + 1;
        }
        corners := cs;
        wellFormed := flag;
      }
    }

    /** `_getDistancesToChaperone`: one sample per wall, in polygon order. */
    method GetDistancesInternal(x: Vec3) returns (result: seq<Sample>)
      requires Valid()
      ensures result == Samples(corners[..quadsCount], x)
    {
      result := [];
      var i := 0;
      while i < quadsCount
        invariant 0 <= i <= quadsCount
        invariant |result| == i
        invariant forall k :: 0 <= k < i ==> result[k] == WallSample(corners[k], corners[CyclicSuccessor(k, quadsCount)], x)
      {
        var i2 := (i + 1) % quadsCount;
        var r0 := corners[i];
        var r1 := corners[i2];
        result := result + [WallSample(r0, r1, x)];
        i := i + 1;
      }
      SamplesOfPrefix(corners, quadsCount, x, result);
    }

    /** `getDistancesToChaperone`: the lock only serialises; the samples do not depend on it. */
    method GetDistancesToChaperone(point: Vec3, doLock: bool) returns (result: seq<Sample>)
      requires Valid()
      ensures |result| == quadsCount
      ensures result == Samples(corners[..quadsCount], point)
    {
      if doLock {
        result := GetDistancesInternal(point);
        return;
      }
      result := GetDistancesInternal(point);
    }

    /** `getDistanceToChaperone`: the `min_element` choice among the samples, `None` with no walls. */
    method GetDistanceToChaperone(point: Vec3, doLock: bool) returns (nearest: Option<Sample>)
      requires Valid()
      ensures nearest == NearestSample(Samples(corners[..quadsCount], point))
      ensures nearest.None? <==> quadsCount == 0
    {
      var distances := GetDistancesToChaperone(point, doLock);
      if |distances| == 0 {
        return None;
      }
      var best := MinElement(Distances(distances));
      nearest := Some(distances[best]);
    }
  }
}
