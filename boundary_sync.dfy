/**
 * The boundary sync server: a companion device sends a fixed-size frame with
 * the play-area extents and four boundary corners relative to the headset;
 * the server moves them into tracking space with the current head pose,
 * flattens them onto the floor, builds four wall quads and commits them to
 * the runtime as the live chaperone. The discovery broadcaster advertises
 * the server's TCP port over UDP.
 *
 * The runtime (`IVRChaperoneSetup`, the pose query) and the notification to
 * the move-center controller are modelled as one ordered log of calls.
 */
module BoundarySync {
  import opened Common
  import DiscoveryProtocol

  /** `SteamVRChaperoneData`: extents, four head-relative corners, an unused pose. */
  datatype ChaperoneData = ChaperoneData(
    playAreaX: real,
    playAreaZ: real,
    collisionBounds: seq<Vec3>,
    hmdMatrix34: seq<real>)

  /** A frame as it arrives: always exactly four corners and twelve pose floats. */
  type Frame = d: ChaperoneData | |d.collisionBounds| == 4 && |d.hmdMatrix34| == 12
    witness ChaperoneData(0.0, 0.0, [Vec3(0.0, 0.0, 0.0), Vec3(0.0, 0.0, 0.0), Vec3(0.0, 0.0, 0.0), Vec3(0.0, 0.0, 0.0)],
                          [0.0, 0.0, 0.0, 0.0, 0.0, 0.0, 0.0, 0.0, 0.0, 0.0, 0.0, 0.0])

  /** Each field of the packed frame is a 32-bit float. */
  const FLOAT_SIZE: nat := 4
  /** `sizeof(SteamVRChaperoneData)`: two extents, four 3-float points, a 12-float matrix. */
  const FRAME_SIZE: nat := FLOAT_SIZE * (2 + 4 * 3 + 12)

  /** TCP port the server listens on and advertises. */
  const SERVER_TCP_PORT: int := 1191

  /** Height of every generated wall. */
  const WALL_HEIGHT: real := 2.4

  /** `TransformPoint`: the pose's 3x3 block times the point, plus column 3. */
  function TransformPoint(m: Mat34, x: real, y: real, z: real): Vec3 {
    Vec3(m[0][0] * x + m[0][1] * y + m[0][2] * z + m[0][3],
         m[1][0] * x + m[1][1] * y + m[1][2] * z + m[1][3],
         m[2][0] * x + m[2][1] * y + m[2][2] * z + m[2][3])
  }

  /** The identity pose leaves every point where it is. */
  lemma TransformByIdentity(x: real, y: real, z: real)
    ensures TransformPoint(IdentityPose, x, y, z) == Vec3(x, y, z)
  {
  }

  /** A pose with identity rotation only translates, by its column 3. */
  lemma TransformByTranslation(m: Mat34, x: real, y: real, z: real)
    requires m[0][..3] == [1.0, 0.0, 0.0] && m[1][..3] == [0.0, 1.0, 0.0] && m[2][..3] == [0.0, 0.0, 1.0]
    ensures TransformPoint(m, x, y, z) == Vec3(x + m[0][3], y + m[1][3], z + m[2][3])
  {
    assert m[0][0] == m[0][..3][0] && m[0][1] == m[0][..3][1] && m[0][2] == m[0][..3][2];
    assert m[1][0] == m[1][..3][0] && m[1][1] == m[1][..3][1] && m[1][2] == m[1][..3][2];
    assert m[2][0] == m[2][..3][0] && m[2][1] == m[2][..3][1] && m[2][2] == m[2][..3][2];
  }

  /** `Dist` before the square root ignores height and is symmetric. */
  lemma DistSquaredSymmetric(a: Vec3, b: Vec3, h: real)
    ensures PlanarDistSquared(a, b) == PlanarDistSquared(b, a)
    ensures PlanarDistSquared(a, b) == PlanarDistSquared(a.(y := h), b)
  {
  }

  /** A world corner: the head-relative corner moved by the pose, then `y` forced to 0. */
  function WorldCorner(pose: Mat34, p: Vec3): Vec3 {
    var w := TransformPoint(pose, p.x, p.y, p.z);
    Vec3(w.x, 0.0, w.z)
  }

  /** The four world corners of a frame, in frame order. */
  function WorldCorners(pose: Mat34, frame: Frame): (r: seq<Vec3>)
    ensures |r| == 4
  {
    seq(4, i requires 0 <= i < 4 => WorldCorner(pose, frame.collisionBounds[i]))
  }

  /** One wall: [p1 on the floor, p2 on the floor, p2 at wall height, p1 at wall height]. */
  function WallQuad(p1: Vec3, p2: Vec3): Quad {
    Quad(Vec3(p1.x, 0.0, p1.z), Vec3(p2.x, 0.0, p2.z),
         Vec3(p2.x, WALL_HEIGHT, p2.z), Vec3(p1.x, WALL_HEIGHT, p1.z))
  }

  /** Wall i spans corner i to its cyclic successor. */
  function SyncedQuads(corners: seq<Vec3>): (r: seq<Quad>)
    ensures |r| == |corners|
  {
    seq(|corners|, i requires 0 <= i < |corners| => WallQuad(corners[i], corners[(i + 1) % |corners|]))
  }

  /** One call the server makes, in the order made. */
  datatype Call =
    | QueryHeadPose
    | RevertWorkingCopy
    | SetWorkingPlayAreaSize(sizeX: real, sizeZ: real)
    | SetWorkingCollisionBoundsInfo(quads: seq<Quad>)
    | SetWorkingStandingZeroPoseToRawTrackingPose(standing: Mat34)
    | SetWorkingSeatedZeroPoseToRawTrackingPose(seated: Mat34)
    | CommitWorkingCopyLive
    | UpdateChaperoneResetData(reset: bool)

  /** "Boundary unavailable": a frame with a non-positive extent. */
  predicate IsSentinel(frame: Frame) {
    frame.playAreaX <= 0.0 || frame.playAreaZ <= 0.0
  }

  /** The calls `ProcessData` makes for one frame, given what the pose query answers. */
  function ProcessCalls(frame: Frame, headPose: Option<Mat34>): (r: seq<Call>)
    ensures |r| == (if IsSentinel(frame) then 2 else if headPose.None? then 1 else 8)
    ensures CommitWorkingCopyLive in r <==> !IsSentinel(frame) && headPose.Some?
  {
    if IsSentinel(frame) then
      [RevertWorkingCopy, UpdateChaperoneResetData(false)]
    else if headPose.None? then
      [QueryHeadPose]
    else
      [QueryHeadPose,
       RevertWorkingCopy,
       SetWorkingPlayAreaSize(frame.playAreaX, frame.playAreaZ),
       SetWorkingCollisionBoundsInfo(SyncedQuads(WorldCorners(headPose.value, frame))),
       SetWorkingStandingZeroPoseToRawTrackingPose(IdentityPose),
       SetWorkingSeatedZeroPoseToRawTrackingPose(IdentityPose),
       CommitWorkingCopyLive,
       UpdateChaperoneResetData(false)]
  }

  /** A sentinel frame only reverts and notifies: no pose query, no transform, no commit. */
  lemma {:induction false} SentinelOnlyReverts(frame: Frame, headPose: Option<Mat34>)
    requires IsSentinel(frame)
    ensures ProcessCalls(frame, headPose) == [RevertWorkingCopy, UpdateChaperoneResetData(false)]
    ensures CommitWorkingCopyLive !in ProcessCalls(frame, headPose)
    ensures QueryHeadPose !in ProcessCalls(frame, headPose)
  {
  }

  /** An invalid head pose drops the frame: nothing changes in the runtime and nobody is notified. */
  lemma InvalidPoseChangesNothing(frame: Frame)
    requires !IsSentinel(frame)
    ensures forall c :: c in ProcessCalls(frame, None) ==> c == QueryHeadPose
  {
  }

  /**
   * A real frame with a valid pose commits exactly four walls built from the
   * flattened world corners, with both zero poses set to the identity and the
   * commit issued after every working-copy edit.
   */
  lemma {:induction false} CommittedGeometry(frame: Frame, pose: Mat34, i: int)
    requires !IsSentinel(frame)
    requires 0 <= i < 4
    ensures var calls := ProcessCalls(frame, Some(pose));
      && |calls| == 8
      && calls[1] == RevertWorkingCopy
      && calls[6] == CommitWorkingCopyLive
      && calls[3].SetWorkingCollisionBoundsInfo?
      && |calls[3].quads| == 4
      && var q := calls[3].quads[i];
         var p := TransformPoint(pose, frame.collisionBounds[i].x, frame.collisionBounds[i].y, frame.collisionBounds[i].z);
         && q.v0 == Vec3(p.x, 0.0, p.z)
         && q.v3 == Vec3(p.x, WALL_HEIGHT, p.z)
         && q.v1 == calls[3].quads[(i + 1) % 4].v0
  {
    var corners := WorldCorners(pose, frame);
    var quads := SyncedQuads(corners);
    assert quads[i] == WallQuad(corners[i], corners[(i + 1) % 4]);
    assert quads[(i + 1) % 4] == WallQuad(corners[(i + 1) % 4], corners[((i + 1) % 4 + 1) % 4]);
  }

  /** Every synced wall stands on the floor and reaches wall height. */
  lemma SyncedWallsAreVertical(corners: seq<Vec3>, i: int)
    requires 0 <= i < |corners|
    ensures var q := SyncedQuads(corners)[i];
      q.v0.y == 0.0 && q.v1.y == 0.0 && q.v2.y == WALL_HEIGHT && q.v3.y == WALL_HEIGHT
      && q.v0.x == q.v3.x && q.v0.z == q.v3.z && q.v1.x == q.v2.x && q.v1.z == q.v2.z
  {
  }

  /** `sizeof(SteamVRChaperoneData)` is 104 bytes. */
  lemma FrameSizeIs104()
    ensures FRAME_SIZE == 104
  {
  }

  /** What `Run` does with one `recv` return value. */
  datatype RecvAction = Disconnect | Process | Ignore

  function RecvActionFor(ret: int): (a: RecvAction)
    ensures a == Disconnect <==> ret <= 0
    ensures a == Process <==> ret == FRAME_SIZE
  {
    if ret <= 0 then Disconnect else if ret == FRAME_SIZE then Process else Ignore
  }

  /** One `recv` of the session: its return value, the frame it filled and the pose the runtime would report. */
  datatype Received = Received(ret: int, frame: Frame, headPose: Option<Mat34>)

  /** The calls of a session prefix in which no `recv` ended the session. */
  function SessionCalls(rs: seq<Received>): seq<Call>
    decreases |rs|
  {
    if |rs| == 0 then []
    else
      var last := rs[|rs| - 1];
      SessionCalls(rs[..|rs| - 1]) + (if last.ret == FRAME_SIZE then ProcessCalls(last.frame, last.headPose) else [])
  }

  /** Frames of any length other than 104 bytes leave no trace. */
  lemma {:induction false} ShortReadsIgnored(rs: seq<Received>)
    requires forall k :: 0 <= k < |rs| ==> rs[k].ret != FRAME_SIZE
    ensures SessionCalls(rs) == []
    decreases |rs|
  {
    if |rs| > 0 {
      ShortReadsIgnored(rs[..|rs| - 1]);
    }
  }

  class ChaperoneSyncClient {
    /** Every call made to the runtime and the notifier, oldest first. */
    var calls: seq<Call>

    constructor ()
      ensures calls == []
    {
      calls := [];
    }

    /** `ProcessData`: handle one complete frame. */
    method ProcessData(data: Frame, headPose: Option<Mat34>)
      modifies this
      ensures calls == old(calls) + ProcessCalls(data, headPose)
    {
      if data.playAreaX <= 0.0 || data.playAreaZ <= 0.0 {
        calls := calls + [RevertWorkingCopy];
        calls := calls + [UpdateChaperoneResetData(false)];
        return;
      }
      calls := calls + [QueryHeadPose];
      if headPose.None? {
        return;
      }
      var hmdPose := headPose.value;

      var worldCorners: seq<Vec3> := [];
      var i := 0;
      while i < 4
        invariant 0 <= i <= 4
        invariant worldCorners == WorldCorners(hmdPose, data)[..i]
      {
        var p := TransformPoint(hmdPose, data.collisionBounds[i].x, data.collisionBounds[i].y, data.collisionBounds[i].z);
        p := p.(y := 0.0);
        worldCorners := worldCorners + [p];
        i := i + 1;
      }
      assert worldCorners == WorldCorners(hmdPose, data);

      var geometryQuads: seq<Quad> := [];
      i := 0;
      while i < 4
        invariant 0 <= i <= 4
        invariant geometryQuads == SyncedQuads(worldCorners)[..i]
      {
        var next := (i + 1) % 4;
        var p1 := worldCorners[i];
        var p2 := worldCorners[next];
        var wall := Quad(Vec3(p1.x, 0.0, p1.z), Vec3(p2.x, 0.0, p2.z),
                         Vec3(p2.x, WALL_HEIGHT, p2.z), Vec3(p1.x, WALL_HEIGHT, p1.z));
        geometryQuads := geometryQuads + [wall];
        i := i + 1;
      }
      assert geometryQuads == SyncedQuads(worldCorners);

      calls := calls + [RevertWorkingCopy];
      calls := calls + [SetWorkingPlayAreaSize(data.playAreaX, data.playAreaZ)];
      calls := calls + [SetWorkingCollisionBoundsInfo(geometryQuads)];
      calls := calls + [SetWorkingStandingZeroPoseToRawTrackingPose(IdentityPose)];
      calls := calls + [SetWorkingSeatedZeroPoseToRawTrackingPose(IdentityPose)];
      calls := calls + [CommitWorkingCopyLive];
      calls := calls + [UpdateChaperoneResetData(false)];
    }

    /**
     * `Run`'s receive loop over the values `recv` returns: a return of 0 or
     * less ends the session, exactly `FRAME_SIZE` bytes are processed, any
     * other length is ignored. `served` is how many receives were consumed
     * before the disconnect (all of them if none disconnected).
     */
    method Run(received: seq<Received>) returns (served: nat)
      modifies this
      ensures served <= |received|
      ensures forall k :: 0 <= k < served ==> received[k].ret > 0
      ensures served < |received| ==> received[served].ret <= 0
      ensures calls == old(calls) + SessionCalls(received[..served])
    {
      served := 0;
      while served < |received|
        invariant served <= |received|
        invariant forall k :: 0 <= k < served ==> received[k].ret > 0
        invariant calls == old(calls) + SessionCalls(received[..served])
      {
        var r := received[served];
        if r.ret <= 0 {
          return;
        }
        if r.ret == FRAME_SIZE {
          ProcessData(r.frame, r.headPose);
        }
        assert received[..served + 1][..served] == received[..served];
        served := served + 1;
      }
    }
  }

  /** Where a discovery datagram goes. */
  datatype Destination = Broadcast | Unicast(address: string)

  datatype Datagram = Datagram(to: Destination, port: int, payload: seq<bv8>)

  /** State of the broadcaster's UDP socket handle. */
  datatype SocketState = Invalid | Open | ClosedHandle

  /**
   * The datagrams one round of `workerLoop` sends: always the broadcast, and a
   * unicast copy when the target is non-empty and parses as an address
   * (`inet_pton`, a parameter here).
   */
  function RoundDatagrams(tcpPort: int, udpPort: int, targetIP: string, parsesAsAddress: string -> bool): (r: seq<Datagram>)
    ensures 1 <= |r| <= 2 && r[0].to == Broadcast
    ensures |r| == 2 <==> targetIP != "" && parsesAsAddress(targetIP)
    ensures |r| == 2 ==> r[1].to == Unicast(targetIP)
    ensures forall k :: 0 <= k < |r| ==> r[k].port == udpPort && r[k].payload == DiscoveryProtocol.EncodePacket(tcpPort)
  {
    var packet := DiscoveryProtocol.EncodePacket(tcpPort);
    [Datagram(Broadcast, udpPort, packet)]
      + (if targetIP != "" && parsesAsAddress(targetIP) then [Datagram(Unicast(targetIP), udpPort, packet)] else [])
  }

  /** The server's broadcast goes to the discovery port and decodes to the server's own TCP port. */
  lemma ServerAdvertisesItsPort(target: string, parsesAsAddress: string -> bool)
    ensures var r := RoundDatagrams(SERVER_TCP_PORT, DiscoveryProtocol.DISCOVERY_PORT, target, parsesAsAddress);
      r[0].port == DiscoveryProtocol.DISCOVERY_PORT
      && DiscoveryProtocol.DecodePacket(r[0].payload) == Some(DiscoveryProtocol.PortField(SERVER_TCP_PORT))
  {
    DiscoveryProtocol.DecodeEncode(SERVER_TCP_PORT);
  }

  class DiscoveryBroadcaster {
    const tcpPort: int
    const udpPort: int
    var isRunning: bool
    var socket: SocketState
    var targetIP: string
    /** Worker threads started and not yet joined. */
    var liveWorkers: nat

    /** At most one worker, and it exists exactly while running on an open socket. */
    ghost predicate Valid()
      reads this
    {
      liveWorkers == (if isRunning then 1 else 0) && (isRunning ==> socket == Open)
    }

    constructor (tcpPort: int, udpPort: int)
      ensures Valid() && !isRunning && socket == Invalid && targetIP == ""
      ensures this.tcpPort == tcpPort && this.udpPort == udpPort
    {
      this.tcpPort := tcpPort;
      this.udpPort := udpPort;
      isRunning := false;
      socket := Invalid;
      targetIP := "";
      liveWorkers := 0;
    }

    /**
     * `start`: running already means success with nothing created; otherwise
     * a socket or `SO_BROADCAST` failure (given as parameters) returns false
     * and leaves the broadcaster stopped.
     */
    method Start(socketCreated: bool, broadcastEnabled: bool) returns (ok: bool)
      requires Valid()
      modifies this
      ensures Valid() && targetIP == old(targetIP)
      ensures ok == (old(isRunning) || (socketCreated && broadcastEnabled))
      ensures isRunning == ok
      ensures old(isRunning) ==> socket == old(socket) && liveWorkers == old(liveWorkers)
      ensures !old(isRunning) && !socketCreated ==> socket == Invalid
      ensures !old(isRunning) && socketCreated && !broadcastEnabled ==> socket == ClosedHandle
    {
      if isRunning {
        return true;
      }
      if !socketCreated {
        socket := Invalid;
        return false;
      }
      socket := Open;
      if !broadcastEnabled {
        // closesocket, but the handle is not reset to INVALID_SOCKET
        socket := ClosedHandle;
        return false;
      }
      isRunning := true;
      liveWorkers := liveWorkers + 1;
      ok := true;
    }

    /** `stop`: a no-op unless running; otherwise closes the socket and joins the worker. */
    method Stop()
      requires Valid()
      modifies this
      ensures Valid() && !isRunning && targetIP == old(targetIP)
      ensures !old(isRunning) ==> socket == old(socket) && liveWorkers == old(liveWorkers)
      ensures old(isRunning) ==> socket == Invalid && liveWorkers == 0
    {
      if !isRunning {
        return;
      }
      isRunning := false;
      if socket != Invalid {
        socket := Invalid;
      }
      liveWorkers := liveWorkers - 1;
    }

    /** `setTargetIP`: replaces the unicast target; the empty string means broadcast only. */
    method SetTargetIP(ip: string)
      requires Valid()
      modifies this
      ensures Valid() && targetIP == ip
      ensures isRunning == old(isRunning) && socket == old(socket) && liveWorkers == old(liveWorkers)
    {
      targetIP := ip;
    }

    /** One round of `workerLoop`, given the address parser. */
    function NextRound(parsesAsAddress: string -> bool): (r: seq<Datagram>)
      reads this
      ensures r == RoundDatagrams(tcpPort, udpPort, targetIP, parsesAsAddress)
      ensures |r| == 2 <==> targetIP != "" && parsesAsAddress(targetIP)
      ensures |r| == 2 ==> r[1].to == Unicast(targetIP)
    {
      RoundDatagrams(tcpPort, udpPort, targetIP, parsesAsAddress)
    }
  }

  /** A call on the broadcaster, with the outcomes of the socket calls `start` makes. */
  datatype BroadcasterCall = StartCall(socketCreated: bool, broadcastEnabled: bool) | StopCall | SetTargetCall(ip: string)

  /**
   * Any sequence of `start`, `stop` and `setTargetIP` calls, whatever the
   * socket calls return, keeps at most one worker alive; when the last call
   * is `stop`, the broadcaster ends stopped with no live worker.
   */
  method RunCalls(b: DiscoveryBroadcaster, calls: seq<BroadcasterCall>)
    requires b.Valid()
    modifies b
    ensures b.Valid() && b.liveWorkers <= 1
    ensures |calls| > 0 && calls[|calls| - 1] == StopCall ==> !b.isRunning && b.liveWorkers == 0
  {
    var k := 0;
    while k < |calls|
      invariant 0 <= k <= |calls|
      invariant b.Valid()
      invariant k > 0 && calls[k - 1] == StopCall ==> !b.isRunning
    {
      match calls[k] {
        case StartCall(created, enabled) =>
          var _ := b.Start(created, enabled);
        case StopCall =>
          b.Stop();
        case SetTargetCall(ip) =>
          b.SetTargetIP(ip);
      }
      k := k + 1;
    }
  }
}
