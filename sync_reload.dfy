/**
 * What the distance engine makes of a boundary the sync server committed.
 *
 * The sync server orders each wall as [p1 floor, p2 floor, p2 top, p1 top],
 * while the engine's reload test expects corner 3 of each wall to be corner 0
 * of the next one, on the floor. A synced boundary therefore always reloads
 * as not well-formed. The corrected wall order [p1 floor, p1 top, p2 top,
 * p2 floor] keeps the same four vertices per wall and reloads well-formed,
 * with the engine's corners equal to the synced world corners.
 */
module SyncReload {
  import opened Common
  import BoundarySync
  import ChaperoneUtils

  /** As written: no non-empty synced boundary passes the reload continuity test. */
  lemma {:induction false} SyncedBoundaryReloadsMalformed(corners: seq<Vec3>)
    requires |corners| > 0
    ensures !ChaperoneUtils.Continuous(BoundarySync.SyncedQuads(corners))
  {
    var quads := BoundarySync.SyncedQuads(corners);
    var next := CyclicSuccessor(0, |corners|);
    assert quads[0].v3.y == BoundarySync.WALL_HEIGHT;
    assert quads[next].v0.y == 0.0;
    assert !ChaperoneUtils.QuadJoinsNext(quads, 0);
  }

  /** As written, end to end: reloading what a frame with a valid pose committed clears the flag. */
  method ReloadAfterSync(engine: ChaperoneUtils.ChaperoneEngine, frame: BoundarySync.Frame, pose: Mat34)
    requires engine.Valid() && !BoundarySync.IsSentinel(frame)
    modifies engine
    ensures engine.Valid() && !engine.wellFormed
  {
    var committed := BoundarySync.SyncedQuads(BoundarySync.WorldCorners(pose, frame));
    SyncedBoundaryReloadsMalformed(BoundarySync.WorldCorners(pose, frame));
    engine.LoadChaperoneData(true, committed, []);
  }

  /** The wall order the reload test expects: [p1 floor, p1 top, p2 top, p2 floor]. */
  function CorrectedWallQuad(p1: Vec3, p2: Vec3): (q: Quad)
    ensures q.v0.y == 0.0 && q.v3.y == 0.0
  {
    Quad(Vec3(p1.x, 0.0, p1.z), Vec3(p1.x, BoundarySync.WALL_HEIGHT, p1.z),
         Vec3(p2.x, BoundarySync.WALL_HEIGHT, p2.z), Vec3(p2.x, 0.0, p2.z))
  }

  function CorrectedSyncedQuads(corners: seq<Vec3>): (r: seq<Quad>)
    ensures |r| == |corners|
  {
    seq(|corners|, i requires 0 <= i < |corners| => CorrectedWallQuad(corners[i], corners[CyclicSuccessor(i, |corners|)]))
  }

  function Vertices(q: Quad): set<Vec3> {
    {q.v0, q.v1, q.v2, q.v3}
  }

  /** Each corrected wall has exactly the vertices of the wall the server builds. */
  lemma CorrectedWallSameVertices(p1: Vec3, p2: Vec3)
    ensures Vertices(CorrectedWallQuad(p1, p2)) == Vertices(BoundarySync.WallQuad(p1, p2))
  {
  }

  /** Corrected: every synced boundary passes the reload continuity test. */
  lemma {:induction false} CorrectedSyncReloadsWellFormed(corners: seq<Vec3>)
    ensures ChaperoneUtils.Continuous(CorrectedSyncedQuads(corners))
  {
    var quads := CorrectedSyncedQuads(corners);
    forall i | 0 <= i < |quads|
      ensures ChaperoneUtils.QuadJoinsNext(quads, i)
    {
      var j := CyclicSuccessor(i, |quads|);
      assert quads[i] == CorrectedWallQuad(corners[i], corners[j]);
      assert quads[j] == CorrectedWallQuad(corners[j], corners[CyclicSuccessor(j, |corners|)]);
    }
  }

  /** Corrected: the reloaded corners are the synced world corners, which already lie on the floor. */
  lemma CorrectedReloadRecoversCorners(frame: BoundarySync.Frame, pose: Mat34)
    ensures ChaperoneUtils.FirstCorners(CorrectedSyncedQuads(BoundarySync.WorldCorners(pose, frame)))
            == BoundarySync.WorldCorners(pose, frame)
  {
  }

  /** Corrected, end to end: reloading a corrected synced boundary keeps a well-formed engine well-formed. */
  method ReloadAfterCorrectedSync(engine: ChaperoneUtils.ChaperoneEngine, frame: BoundarySync.Frame, pose: Mat34)
    requires engine.Valid() && engine.wellFormed
    modifies engine
    ensures engine.Valid() && engine.wellFormed
    ensures engine.quadsCount == 4 && engine.corners == BoundarySync.WorldCorners(pose, frame)
  {
    var corners := BoundarySync.WorldCorners(pose, frame);
    var committed := CorrectedSyncedQuads(corners);
    CorrectedSyncReloadsWellFormed(corners);
    CorrectedReloadRecoversCorners(frame, pose);
    engine.LoadChaperoneData(true, committed, []);
  }
}
