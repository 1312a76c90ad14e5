/**
 * A saved chaperone profile: `ChaperoneProfile::saveSettings` turns the
 * profile's fields into the typed queues of a `SettingsObjectData`, and
 * `loadSettings` reads them back in the same order, falling back to a
 * default for every value that is missing. The `saveObject` family stores
 * the queues under the profile's settings name, optionally numbered.
 *
 * The profile's fields are grouped here by the block of saveSettings that
 * writes them (header, play area, markers, style, proximity); the order of
 * fields inside each group is the declaration order of the source.
 *
 * The profile's floats are reals here; the source widens them to double
 * when saving and narrows them back when loading, which is exact for a
 * value that was a float to begin with.
 */
module ChaperoneProfiles {
  import opened Common
  import opened SettingsStore
  import opened SettingsObject

  // ---------------------------------------------------------------------
  // The profile as a value
  // ---------------------------------------------------------------------

  /** `std::array<int, 3>`. */
  type IntTriple = s: seq<int> | |s| == 3 witness [0, 0, 0]

  /** The name and the chaperone geometry. */
  datatype Header = Header(
    profileName: string,
    includesChaperoneGeometry: bool,
    chaperoneGeometryQuadCount: uint32,
    chaperoneGeometryQuads: seq<Quad>)

  /** The standing pose and the size of the play area. */
  datatype PlayArea = PlayArea(standingCenter: Mat34, playSpaceAreaX: real, playSpaceAreaZ: real)

  /** Visibility, fade distance and the three markers, each with its flag. */
  datatype Markers = Markers(
    includesVisibility: bool,
    visibility: real,
    includesFadeDistance: bool,
    fadeDistance: real,
    includesCenterMarker: bool,
    centerMarker: bool,
    includesPlaySpaceMarker: bool,
    playSpaceMarker: bool,
    includesFloorBoundsMarker: bool,
    floorBoundsMarker: bool)

  /** Bounds colour, chaperone style and forced bounds, each with its flag. */
  datatype Style = Style(
    includesBoundsColor: bool,
    boundsColor: IntTriple,
    includesChaperoneStyle: bool,
    chaperoneStyle: int,
    includesForceBounds: bool,
    forceBounds: bool)

  /** The proximity warning settings, the new center marker and the dim height. */
  datatype Proximity = Proximity(
    includesProximityWarningSettings: bool,
    enableChaperoneSwitchToBeginner: bool,
    chaperoneSwitchToBeginnerDistance: real,
    enableChaperoneHapticFeedback: bool,
    chaperoneHapticFeedbackDistance: real,
    enableChaperoneAlarmSound: bool,
    chaperoneAlarmSoundLooping: bool,
    chaperoneAlarmSoundAdjustVolume: bool,
    chaperoneAlarmSoundDistance: real,
    enableChaperoneShowDashboard: bool,
    chaperoneShowDashboardDistance: real,
    centerMarkerNew: bool,
    chaperoneDimHeight: real)

  /** Every field of a `ChaperoneProfile`. */
  datatype Profile = Profile(header: Header, playArea: PlayArea, markers: Markers, style: Style, proximity: Proximity)

  /** `settingsName()`: the group the profile is saved under. */
  const SettingsName: string := "ChaperoneTabController::ChaperoneProfile"

  const ZeroPose: Mat34 := [[0.0, 0.0, 0.0, 0.0], [0.0, 0.0, 0.0, 0.0], [0.0, 0.0, 0.0, 0.0]]

  /**
   * The member initialisers: 0.6 visibility, 0.7 fade distance, a looping
   * alarm, and false, 0 or empty for the rest. `standingCenter` has no
   * initialiser, so it is a parameter here.
   */
  function InitialProfile(center: Mat34): Profile {
    Profile(Header("", false, 0, []),
            PlayArea(center, 0.0, 0.0),
            Markers(false, 0.6, false, 0.7, false, false, false, false, false, false),
            Style(false, [0, 0, 0], false, 0, false, false),
            Proximity(false, false, 0.0, false, 0.0, false, true, false, 0.0, false, 0.0, false, 0.0))
  }

  // ---------------------------------------------------------------------
  // The quad count crosses the int queue as a 32-bit int
  // ---------------------------------------------------------------------

  const INT32_LIMIT: int := 0x8000_0000

  /** `static_cast<int>` of an unsigned: values from 2^31 up wrap to negatives. */
  function ToSigned32(c: uint32): (i: int)
    ensures -INT32_LIMIT <= i < INT32_LIMIT
    ensures c < INT32_LIMIT ==> i == c
  {
    if c < INT32_LIMIT then c else c - UINT32_MODULUS
  }

  /** `static_cast<unsigned>` of an int: reduction modulo 2^32. */
  function ToUnsigned32(i: int): (c: uint32)
    ensures 0 <= i < UINT32_MODULUS ==> c == i
  {
    i % UINT32_MODULUS
  }

  /** The two casts undo each other, so every quad count survives the int queue. */
  lemma QuadCountCastsRoundTrip(c: uint32)
    ensures ToUnsigned32(ToSigned32(c)) == c
  {
  }

  // ---------------------------------------------------------------------
  // What saveSettings writes
  // ---------------------------------------------------------------------

  function Corner(q: Quad, c: nat): Vec3
    requires c < 4
  {
    if c == 0 then q.v0 else if c == 1 then q.v1 else if c == 2 then q.v2 else q.v3
  }

  /** One corner's coordinates, x then y then z. */
  function CornerDoubles(v: Vec3): seq<Variant> {
    [VDouble(v.x), VDouble(v.y), VDouble(v.z)]
  }

  /** The coordinates of the first c corners of q. */
  function QuadDoublesUpTo(q: Quad, c: nat): (r: seq<Variant>)
    requires c <= 4
    ensures |r| == 3 * c
  {
    if c == 0 then [] else QuadDoublesUpTo(q, c - 1) + CornerDoubles(Corner(q, c - 1))
  }

  /** The coordinates of the quads, quad by quad, corner 0 to 3, axis x, y, z. */
  function QuadsDoubles(qs: seq<Quad>): (r: seq<Variant>)
    ensures |r| == 12 * |qs|
  {
    if qs == [] then [] else QuadsDoubles(qs[..|qs| - 1]) + QuadDoublesUpTo(qs[|qs| - 1], 4)
  }

  /** The first n entries of a 3x4 matrix in row-major order. */
  function MatDoublesUpTo(m: Mat34, n: nat): (r: seq<Variant>)
    requires n <= 12
    ensures |r| == n
  {
    if n == 0 then [] else MatDoublesUpTo(m, n - 1) + [VDouble(m[(n - 1) / 4][(n - 1) % 4])]
  }

  // saveSettings in five blocks. Each block's values per queue, in the
  // order of its `addValue` calls, then the queues with the block appended.

  /** The geometry flag and the validity flag (a positive quad count). */
  function HeaderBools(h: Header): seq<Variant> {
    [VBool(h.includesChaperoneGeometry), VBool(h.chaperoneGeometryQuadCount > 0)]
  }

  /** The quads' coordinates, written only when the count is positive. */
  function SavedQuadDoubles(h: Header): seq<Variant> {
    if h.chaperoneGeometryQuadCount > 0 then QuadsDoubles(h.chaperoneGeometryQuads) else []
  }

  /** Name, geometry flag, quad count (as a signed int), validity flag and the quads. */
  function HeaderSaved(h: Header, c: Contents): Contents {
    Contents(c.bools + HeaderBools(h),
             c.ints + [VInt(ToSigned32(h.chaperoneGeometryQuadCount))],
             c.doubles + SavedQuadDoubles(h),
             c.strings + [VString(h.profileName)])
  }

  /** The standing pose row by row, then the play area. */
  function PlayAreaDoubles(a: PlayArea): seq<Variant> {
    MatDoublesUpTo(a.standingCenter, 12) + [VDouble(a.playSpaceAreaX), VDouble(a.playSpaceAreaZ)]
  }

  function PlayAreaSaved(a: PlayArea, c: Contents): Contents {
    c.(doubles := c.doubles + PlayAreaDoubles(a))
  }

  function MarkersBools(m: Markers): seq<Variant> {
    [VBool(m.includesVisibility), VBool(m.includesFadeDistance),
     VBool(m.includesCenterMarker), VBool(m.centerMarker),
     VBool(m.includesPlaySpaceMarker), VBool(m.playSpaceMarker),
     VBool(m.includesFloorBoundsMarker), VBool(m.floorBoundsMarker)]
  }

  function MarkersDoubles(m: Markers): seq<Variant> {
    [VDouble(m.visibility), VDouble(m.fadeDistance)]
  }

  /** Visibility, fade distance and the three markers, each after its flag. */
  function MarkersSaved(m: Markers, c: Contents): Contents {
    c.(bools := c.bools + MarkersBools(m), doubles := c.doubles + MarkersDoubles(m))
  }

  function StyleBools(s: Style): seq<Variant> {
    [VBool(s.includesBoundsColor), VBool(s.includesChaperoneStyle), VBool(s.includesForceBounds), VBool(s.forceBounds)]
  }

  function StyleInts(s: Style): seq<Variant> {
    [VInt(s.boundsColor[0]), VInt(s.boundsColor[1]), VInt(s.boundsColor[2]), VInt(s.chaperoneStyle)]
  }

  /** Bounds colour, chaperone style and forced bounds, each after its flag. */
  function StyleSaved(s: Style, c: Contents): Contents {
    c.(bools := c.bools + StyleBools(s), ints := c.ints + StyleInts(s))
  }

  function ProximityBools(x: Proximity): seq<Variant> {
    [VBool(x.includesProximityWarningSettings), VBool(x.enableChaperoneSwitchToBeginner),
     VBool(x.enableChaperoneHapticFeedback), VBool(x.enableChaperoneAlarmSound),
     VBool(x.chaperoneAlarmSoundLooping), VBool(x.chaperoneAlarmSoundAdjustVolume),
     VBool(x.enableChaperoneShowDashboard), VBool(x.centerMarkerNew)]
  }

  function ProximityDoubles(x: Proximity): seq<Variant> {
    [VDouble(x.chaperoneSwitchToBeginnerDistance), VDouble(x.chaperoneHapticFeedbackDistance),
     VDouble(x.chaperoneAlarmSoundDistance), VDouble(x.chaperoneShowDashboardDistance),
     VDouble(x.chaperoneDimHeight)]
  }

  /** The proximity warning settings, the new center marker and the dim height. */
  function ProximitySaved(x: Proximity, c: Contents): Contents {
    c.(bools := c.bools + ProximityBools(x), doubles := c.doubles + ProximityDoubles(x))
  }

  /** The queues `saveSettings` fills: the five blocks in order, from empty queues. */
  function SavedContents(p: Profile): Contents {
    ProximitySaved(p.proximity, StyleSaved(p.style, MarkersSaved(p.markers,
      PlayAreaSaved(p.playArea, HeaderSaved(p.header, EmptyContents)))))
  }

  // ---------------------------------------------------------------------
  // What loadSettings reads
  // ---------------------------------------------------------------------

  function BoolAt(s: seq<Variant>, i: nat, d: bool): bool {
    AsBool(At(s, i, VBool(d)))
  }

  function IntAt(s: seq<Variant>, i: nat, d: int): int {
    AsInt(At(s, i, VInt(d)))
  }

  function DoubleAt(s: seq<Variant>, i: nat, d: real): real {
    AsDouble(At(s, i, VDouble(d)))
  }

  function StringAt(s: seq<Variant>, i: nat, d: string): string {
    AsString(At(s, i, VString(d)))
  }

  /** The corner whose coordinates start at position b. */
  function CornerAt(s: seq<Variant>, b: nat): Vec3 {
    Vec3(DoubleAt(s, b, 0.0), DoubleAt(s, b + 1, 0.0), DoubleAt(s, b + 2, 0.0))
  }

  /** The quad whose twelve coordinates start at position b. */
  function QuadAt(s: seq<Variant>, b: nat): Quad {
    Quad(CornerAt(s, b), CornerAt(s, b + 3), CornerAt(s, b + 6), CornerAt(s, b + 9))
  }

  /** The four entries of a matrix row starting at position b. */
  function RowAt(s: seq<Variant>, b: nat): (r: seq<real>)
    ensures |r| == 4
  {
    [DoubleAt(s, b, 0.0), DoubleAt(s, b + 1, 0.0), DoubleAt(s, b + 2, 0.0), DoubleAt(s, b + 3, 0.0)]
  }

  /** The 3x4 matrix whose entries start at position b, row by row. */
  function MatAt(s: seq<Variant>, b: nat): Mat34 {
    [RowAt(s, b), RowAt(s, b + 4), RowAt(s, b + 8)]
  }

  /**
   * Where the pose starts in the doubles: after quadCount quads of twelve
   * coordinates when the validity bool says quads were written, else at 0.
   */
  function PoseOffset(c: Contents): nat {
    if BoolAt(c.bools, 1, false) then 12 * (ToUnsigned32(IntAt(c.ints, 0, 0)) as nat) else 0
  }

  // loadSettings block by block: each function is one block's fields as
  // read from the queues c held when loading began, with the defaults of
  // the source for missing values.

  /**
   * Name, geometry flag and quad count; the quads only when the validity
   * bool says so, and then exactly quadCount of them, else prior's stay.
   */
  function HeaderFrom(c: Contents, prior: Header): Header {
    var count := ToUnsigned32(IntAt(c.ints, 0, 0));
    Header(StringAt(c.strings, 0, ""), BoolAt(c.bools, 0, false), count,
           if BoolAt(c.bools, 1, false)
           then seq(count, k requires 0 <= k < count => QuadAt(c.doubles, 12 * k))
           else prior.chaperoneGeometryQuads)
  }

  function PlayAreaFrom(c: Contents): PlayArea {
    var d, off := c.doubles, PoseOffset(c);
    PlayArea(MatAt(d, off), DoubleAt(d, off + 12, 0.0), DoubleAt(d, off + 13, 0.0))
  }

  function MarkersFrom(c: Contents): Markers {
    var b, d, off := c.bools, c.doubles, PoseOffset(c);
    Markers(BoolAt(b, 2, false), DoubleAt(d, off + 14, 0.6),
            BoolAt(b, 3, false), DoubleAt(d, off + 15, 0.7),
            BoolAt(b, 4, false), BoolAt(b, 5, false),
            BoolAt(b, 6, false), BoolAt(b, 7, false),
            BoolAt(b, 8, false), BoolAt(b, 9, false))
  }

  function StyleFrom(c: Contents): Style {
    var b, i := c.bools, c.ints;
    Style(BoolAt(b, 10, false), [IntAt(i, 1, 0), IntAt(i, 2, 0), IntAt(i, 3, 0)],
          BoolAt(b, 11, false), IntAt(i, 4, 0),
          BoolAt(b, 12, false), BoolAt(b, 13, false))
  }

  function ProximityFrom(c: Contents): Proximity {
    var b, d, off := c.bools, c.doubles, PoseOffset(c);
    Proximity(BoolAt(b, 14, false), BoolAt(b, 15, false), DoubleAt(d, off + 16, 0.0),
              BoolAt(b, 16, false), DoubleAt(d, off + 17, 0.0),
              BoolAt(b, 17, false), BoolAt(b, 18, true),
              BoolAt(b, 19, false), DoubleAt(d, off + 18, 0.0),
              BoolAt(b, 20, false), DoubleAt(d, off + 19, 0.0),
              BoolAt(b, 21, false), DoubleAt(d, off + 20, 0.0))
  }

  /** What is left of queues c once `loadSettings` has read a profile from them. */
  function LeftAfterLoad(c: Contents): Contents {
    Contents(Rest(c.bools, 22), Rest(c.ints, 5), Rest(c.doubles, PoseOffset(c) + 21), Rest(c.strings, 1))
  }

  /**
   * The profile after `loadSettings` of contents c into prior: every field
   * is overwritten, except the quads when the validity bool is false.
   */
  function Loaded(prior: Profile, c: Contents): (r: Profile)
    ensures BoolAt(c.bools, 1, false) ==> |r.header.chaperoneGeometryQuads| == r.header.chaperoneGeometryQuadCount
    ensures !BoolAt(c.bools, 1, false) ==> r.header.chaperoneGeometryQuads == prior.header.chaperoneGeometryQuads
  {
    Profile(HeaderFrom(c, prior.header), PlayAreaFrom(c), MarkersFrom(c), StyleFrom(c), ProximityFrom(c))
  }

  // ---------------------------------------------------------------------
  // Properties of the pair
  // ---------------------------------------------------------------------

  /** The saved bools are the blocks' bools concatenated in save order. */
  lemma SavedBools(p: Profile)
    ensures SavedContents(p).bools ==
      HeaderBools(p.header) + MarkersBools(p.markers) + StyleBools(p.style) + ProximityBools(p.proximity)
  {
    var e: seq<Variant> := [];
    assert e + HeaderBools(p.header) == HeaderBools(p.header);
  }

  /** The saved queues are the blocks' values concatenated in save order. */
  lemma SavedQueues(p: Profile)
    ensures SavedContents(p).bools ==
      HeaderBools(p.header) + MarkersBools(p.markers) + StyleBools(p.style) + ProximityBools(p.proximity)
    ensures SavedContents(p).ints == [VInt(ToSigned32(p.header.chaperoneGeometryQuadCount))] + StyleInts(p.style)
    ensures SavedContents(p).doubles ==
      SavedQuadDoubles(p.header) + PlayAreaDoubles(p.playArea) + MarkersDoubles(p.markers) + ProximityDoubles(p.proximity)
    ensures SavedContents(p).strings == [VString(p.header.profileName)]
  {
    var e: seq<Variant> := [];
    SavedBools(p);
    assert e + [VInt(ToSigned32(p.header.chaperoneGeometryQuadCount))] == [VInt(ToSigned32(p.header.chaperoneGeometryQuadCount))];
    assert e + SavedQuadDoubles(p.header) == SavedQuadDoubles(p.header);
  }

  /** The save writes 1 string, 5 ints, 22 bools and 12 doubles per quad written plus 21. */
  lemma SavedCounts(p: Profile)
    ensures |SavedContents(p).strings| == 1
    ensures |SavedContents(p).ints| == 5
    ensures |SavedContents(p).bools| == 22
    ensures |SavedContents(p).doubles| ==
      12 * (if p.header.chaperoneGeometryQuadCount > 0 then |p.header.chaperoneGeometryQuads| else 0) + 21
  {
    SavedQueues(p);
  }

  /** Each saved queue holds values of its own type only. */
  lemma SavedWellTyped(p: Profile)
    ensures WellTyped(SavedContents(p))
  {
    var c1 := HeaderSaved(p.header, EmptyContents);
    HeaderKeepsTypes(p.header, EmptyContents);
    var c2 := PlayAreaSaved(p.playArea, c1);
    PlayAreaKeepsTypes(p.playArea, c1);
    var c3 := MarkersSaved(p.markers, c2);
    MarkersKeepTypes(p.markers, c2);
    var c4 := StyleSaved(p.style, c3);
    StyleKeepsTypes(p.style, c3);
    ProximityKeepsTypes(p.proximity, c4);
  }

  lemma HeaderKeepsTypes(h: Header, c: Contents)
    requires WellTyped(c)
    ensures WellTyped(HeaderSaved(h, c))
  {
    QuadsDoublesTyped(h.chaperoneGeometryQuads);
  }

  lemma PlayAreaKeepsTypes(a: PlayArea, c: Contents)
    requires WellTyped(c)
    ensures WellTyped(PlayAreaSaved(a, c))
  {
    MatDoublesTyped(a.standingCenter, 12);
  }

  lemma MarkersKeepTypes(m: Markers, c: Contents)
    requires WellTyped(c)
    ensures WellTyped(MarkersSaved(m, c))
  {
  }

  lemma StyleKeepsTypes(s: Style, c: Contents)
    requires WellTyped(c)
    ensures WellTyped(StyleSaved(s, c))
  {
  }

  lemma ProximityKeepsTypes(x: Proximity, c: Contents)
    requires WellTyped(c)
    ensures WellTyped(ProximitySaved(x, c))
  {
  }

  lemma {:induction false} QuadsDoublesTyped(qs: seq<Quad>)
    ensures AllOfType(QuadsDoubles(qs), DoubleType)
  {
    if qs != [] {
      QuadsDoublesTyped(qs[..|qs| - 1]);
      QuadDoublesTyped(qs[|qs| - 1], 4);
    }
  }

  lemma {:induction false} QuadDoublesTyped(q: Quad, c: nat)
    requires c <= 4
    ensures AllOfType(QuadDoublesUpTo(q, c), DoubleType)
  {
    if c > 0 {
      QuadDoublesTyped(q, c - 1);
    }
  }

  lemma {:induction false} MatDoublesTyped(m: Mat34, n: nat)
    requires n <= 12
    ensures AllOfType(MatDoublesUpTo(m, n), DoubleType)
  {
    if n > 0 {
      MatDoublesTyped(m, n - 1);
    }
  }

  /** Corner j of q sits at positions 3j to 3j + 2 of its coordinates. */
  lemma {:induction false} QuadDoublesAt(q: Quad, c: nat, j: nat)
    requires j < c <= 4
    ensures QuadDoublesUpTo(q, c)[3 * j..3 * j + 3] == CornerDoubles(Corner(q, j))
  {
    if j < c - 1 {
      QuadDoublesAt(q, c - 1, j);
      assert QuadDoublesUpTo(q, c)[..3 * (c - 1)] == QuadDoublesUpTo(q, c - 1);
    }
  }

  /** Entry k of a pose's saved doubles is the entry at row k / 4, column k % 4. */
  lemma {:induction false} MatDoublesAt(m: Mat34, n: nat, k: nat)
    requires k < n <= 12
    ensures MatDoublesUpTo(m, n)[k] == VDouble(m[k / 4][k % 4])
  {
    if k < n - 1 {
      MatDoublesAt(m, n - 1, k);
    }
  }

  lemma CornerFrom(s: seq<Variant>, b: nat, v: Vec3)
    requires b + 3 <= |s| && s[b..b + 3] == CornerDoubles(v)
    ensures CornerAt(s, b) == v
  {
    assert s[b] == s[b..b + 3][0] && s[b + 1] == s[b..b + 3][1] && s[b + 2] == s[b..b + 3][2];
  }

  /** Quad k of the saved quads comes back from positions 12k to 12k + 11. */
  lemma {:induction false} QuadsDoublesAt(qs: seq<Quad>, rest: seq<Variant>, k: nat)
    requires k < |qs|
    ensures QuadAt(QuadsDoubles(qs) + rest, 12 * k) == qs[k]
  {
    var init := qs[..|qs| - 1];
    var last := qs[|qs| - 1];
    assert QuadsDoubles(qs) + rest == QuadsDoubles(init) + (QuadDoublesUpTo(last, 4) + rest);
    if k < |qs| - 1 {
      QuadsDoublesAt(init, QuadDoublesUpTo(last, 4) + rest, k);
      assert init[k] == qs[k];
    } else {
      LastQuadAt(QuadsDoubles(init), last, rest);
    }
  }

  /** The quad written last, after the earlier quads' coordinates, reads back. */
  lemma LastQuadAt(before: seq<Variant>, last: Quad, rest: seq<Variant>)
    ensures QuadAt(before + (QuadDoublesUpTo(last, 4) + rest), |before|) == last
  {
    var s := before + (QuadDoublesUpTo(last, 4) + rest);
    var b := |before|;
    var own := QuadDoublesUpTo(last, 4);
    assert s[b..b + 12] == own;
    forall j | 0 <= j < 4
      ensures CornerAt(s, b + 3 * j) == Corner(last, j)
    {
      QuadDoublesAt(last, 4, j);
      assert s[b + 3 * j..b + 3 * j + 3] == own[3 * j..3 * j + 3];
      CornerFrom(s, b + 3 * j, Corner(last, j));
    }
    assert CornerAt(s, b + 3 * 0) == Corner(last, 0) && CornerAt(s, b + 3 * 1) == Corner(last, 1);
    assert CornerAt(s, b + 3 * 2) == Corner(last, 2) && CornerAt(s, b + 3 * 3) == Corner(last, 3);
  }

  /** Twelve doubles holding m row by row read back as m. */
  lemma MatFrom(s: seq<Variant>, b: nat, m: Mat34)
    requires b + 12 <= |s|
    requires forall i, j :: 0 <= i < 3 && 0 <= j < 4 ==> s[b + 4 * i + j] == VDouble(m[i][j])
    ensures MatAt(s, b) == m
  {
    var r := MatAt(s, b);
    forall i, j | 0 <= i < 3 && 0 <= j < 4
      ensures r[i][j] == m[i][j]
    {
      assert s[b + 4 * i + j] == VDouble(m[i][j]);
    }
    assert r[0] == m[0] && r[1] == m[1] && r[2] == m[2];
  }

  /** In saved queues the pose starts right after the quads' doubles. */
  lemma SavedPoseOffset(p: Profile)
    requires |p.header.chaperoneGeometryQuads| == p.header.chaperoneGeometryQuadCount
    ensures PoseOffset(SavedContents(p)) == |SavedQuadDoubles(p.header)|
  {
    QuadCountCastsRoundTrip(p.header.chaperoneGeometryQuadCount);
    SavedQueues(p);
  }

  /** The header comes back: name, flag and count always, the quads when the count is positive. */
  lemma HeaderRoundTrip(prior: Header, p: Profile)
    requires |p.header.chaperoneGeometryQuads| == p.header.chaperoneGeometryQuadCount
    ensures HeaderFrom(SavedContents(p), prior) ==
      if p.header.chaperoneGeometryQuadCount > 0 then p.header
      else p.header.(chaperoneGeometryQuads := prior.chaperoneGeometryQuads)
  {
    var h := p.header;
    QuadCountCastsRoundTrip(h.chaperoneGeometryQuadCount);
    SavedQueues(p);
    if h.chaperoneGeometryQuadCount > 0 {
      QuadListRoundTrip(prior, p);
    }
  }

  /** With a positive count the loaded quad list is the saved one. */
  lemma QuadListRoundTrip(prior: Header, p: Profile)
    requires |p.header.chaperoneGeometryQuads| == p.header.chaperoneGeometryQuadCount > 0
    ensures HeaderFrom(SavedContents(p), prior).chaperoneGeometryQuads == p.header.chaperoneGeometryQuads
  {
    var qs := p.header.chaperoneGeometryQuads;
    var d := SavedContents(p).doubles;
    var r := HeaderFrom(SavedContents(p), prior);
    QuadCountCastsRoundTrip(p.header.chaperoneGeometryQuadCount);
    SavedQueues(p);
    var qd := QuadsDoubles(qs);
    var tail := PlayAreaDoubles(p.playArea) + MarkersDoubles(p.markers) + ProximityDoubles(p.proximity);
    assert d == qd + tail;
    forall k | 0 <= k < |qs|
      ensures r.chaperoneGeometryQuads[k] == qs[k]
    {
      QuadsDoublesAt(qs, tail, k);
    }
  }

  /** The doubles after the quads: the play area, the markers, the proximity distances. */
  function TailDoubles(p: Profile): seq<Variant> {
    PlayAreaDoubles(p.playArea) + MarkersDoubles(p.markers) + ProximityDoubles(p.proximity)
  }

  /** Position k after the quads' doubles holds position k of the tail. */
  lemma SavedDoubleAfterQuads(p: Profile, k: nat, d: real)
    requires |p.header.chaperoneGeometryQuads| == p.header.chaperoneGeometryQuadCount
    requires k < 21
    ensures DoubleAt(SavedContents(p).doubles, PoseOffset(SavedContents(p)) + k, d) == AsDouble(TailDoubles(p)[k])
  {
    SavedPoseOffset(p);
    SavedQueues(p);
    var qd := SavedQuadDoubles(p.header);
    assert SavedContents(p).doubles == qd + TailDoubles(p);
    assert (qd + TailDoubles(p))[|qd| + k] == TailDoubles(p)[k];
  }

  /** The standing pose and the play area come back from the doubles after the quads. */
  lemma PlayAreaRoundTrip(p: Profile)
    requires |p.header.chaperoneGeometryQuads| == p.header.chaperoneGeometryQuadCount
    ensures PlayAreaFrom(SavedContents(p)) == p.playArea
  {
    var c := SavedContents(p);
    var d, off := c.doubles, PoseOffset(c);
    var a := p.playArea;
    var m := a.standingCenter;
    SavedPoseOffset(p);
    SavedQueues(p);
    var qd := SavedQuadDoubles(p.header);
    assert d == qd + TailDoubles(p);
    forall i, j | 0 <= i < 3 && 0 <= j < 4
      ensures d[off + 4 * i + j] == VDouble(m[i][j])
    {
      var k := 4 * i + j;
      assert k / 4 == i && k % 4 == j;
      MatDoublesAt(m, 12, k);
      assert TailDoubles(p)[k] == MatDoublesUpTo(m, 12)[k];
    }
    MatFrom(d, off, m);
    SavedDoubleAfterQuads(p, 12, 0.0);
    SavedDoubleAfterQuads(p, 13, 0.0);
  }

  /** The markers block reads back from queues that hold it after the header's bools and the play area's doubles. */
  lemma MarkersFromBlocks(m: Markers, c: Contents, before: seq<Variant>, after: seq<Variant>,
                          doublesBefore: seq<Variant>, doublesAfter: seq<Variant>)
    requires c.bools == before + MarkersBools(m) + after && |before| == 2
    requires c.doubles == doublesBefore + MarkersDoubles(m) + doublesAfter && |doublesBefore| == PoseOffset(c) + 14
    ensures MarkersFrom(c) == m
  {
  }

  /** Visibility, fade distance and the markers come back: bools 2 to 9, doubles 14 and 15 after the quads. */
  lemma MarkersRoundTrip(p: Profile)
    requires |p.header.chaperoneGeometryQuads| == p.header.chaperoneGeometryQuadCount
    ensures MarkersFrom(SavedContents(p)) == p.markers
  {
    SavedPoseOffset(p);
    SavedQueues(p);
    MarkersFromBlocks(p.markers, SavedContents(p),
      HeaderBools(p.header), StyleBools(p.style) + ProximityBools(p.proximity),
      SavedQuadDoubles(p.header) + PlayAreaDoubles(p.playArea), ProximityDoubles(p.proximity));
  }

  /** The style comes back: bools 10 to 13 and ints 1 to 4. */
  lemma StyleRoundTrip(p: Profile)
    ensures StyleFrom(SavedContents(p)) == p.style
  {
    SavedQueues(p);
  }

  /** The proximity block reads back from queues that end with it. */
  lemma ProximityFromBlocks(x: Proximity, c: Contents, before: seq<Variant>, doublesBefore: seq<Variant>)
    requires c.bools == before + ProximityBools(x) && |before| == 14
    requires c.doubles == doublesBefore + ProximityDoubles(x) && |doublesBefore| == PoseOffset(c) + 16
    ensures ProximityFrom(c) == x
  {
  }

  /** The proximity settings come back: bools 14 to 21, doubles 16 to 20 after the quads. */
  lemma ProximityRoundTrip(p: Profile)
    requires |p.header.chaperoneGeometryQuads| == p.header.chaperoneGeometryQuadCount
    ensures ProximityFrom(SavedContents(p)) == p.proximity
  {
    SavedPoseOffset(p);
    SavedQueues(p);
    ProximityFromBlocks(p.proximity, SavedContents(p),
      HeaderBools(p.header) + MarkersBools(p.markers) + StyleBools(p.style),
      SavedQuadDoubles(p.header) + PlayAreaDoubles(p.playArea) + MarkersDoubles(p.markers));
  }

  /**
   * Loading what was saved restores every field, provided the quad list is
   * as long as the quad count. With a count of 0 no quads are written and
   * the loaded profile keeps the quads it had before.
   */
  lemma ProfileRoundTrip(prior: Profile, p: Profile)
    requires |p.header.chaperoneGeometryQuads| == p.header.chaperoneGeometryQuadCount
    ensures Loaded(prior, SavedContents(p)) ==
      if p.header.chaperoneGeometryQuadCount > 0 then p
      else p.(header := p.header.(chaperoneGeometryQuads := prior.header.chaperoneGeometryQuads))
  {
    HeaderRoundTrip(prior.header, p);
    PlayAreaRoundTrip(p);
    MarkersRoundTrip(p);
    StyleRoundTrip(p);
    ProximityRoundTrip(p);
  }

  /**
   * Loading from empty data gives the member initialisers' values, except
   * that the standing pose becomes all zeros and the quads stay as they were.
   */
  lemma LoadFromEmpty(prior: Profile)
    ensures Loaded(prior, EmptyContents) ==
      var init := InitialProfile(ZeroPose);
      init.(header := init.header.(chaperoneGeometryQuads := prior.header.chaperoneGeometryQuads))
  {
  }

  /** The quad count, once through the int queue, is the one that was saved. */
  lemma SavedQuadCountRestored(prior: Profile, p: Profile)
    ensures Loaded(prior, SavedContents(p)).header.chaperoneGeometryQuadCount == p.header.chaperoneGeometryQuadCount
  {
    QuadCountCastsRoundTrip(p.header.chaperoneGeometryQuadCount);
    SavedQueues(p);
  }


  // ---------------------------------------------------------------------
  // Writing, block by block in the order of saveSettings
  // ---------------------------------------------------------------------

  /** The quads' coordinates, quad by quad, corner by corner, axis by axis. */
  method AddQuads(sod: SettingsObjectData, qs: seq<Quad>)
    modifies sod
    ensures sod.doubles == old(sod.doubles) + QuadsDoubles(qs)
    ensures sod.bools == old(sod.bools) && sod.ints == old(sod.ints) && sod.strings == old(sod.strings)
  {
    for i := 0 to |qs|
      invariant sod.doubles == old(sod.doubles) + QuadsDoubles(qs[..i])
      invariant sod.bools == old(sod.bools) && sod.ints == old(sod.ints) && sod.strings == old(sod.strings)
    {
      ghost var before := sod.doubles;
      for c := 0 to 4
        invariant sod.doubles == before + QuadDoublesUpTo(qs[i], c)
        invariant sod.bools == old(sod.bools) && sod.ints == old(sod.ints) && sod.strings == old(sod.strings)
      {
        var corner := Corner(qs[i], c);
        sod.AddDouble(corner.x);
        sod.AddDouble(corner.y);
        sod.AddDouble(corner.z);
      }
      assert qs[..i + 1][..i] == qs[..i];
    }
    assert qs[..|qs|] == qs;
  }

  /** The standing pose, row by row. */
  method AddPose(sod: SettingsObjectData, m: Mat34)
    modifies sod
    ensures sod.doubles == old(sod.doubles) + MatDoublesUpTo(m, 12)
    ensures sod.bools == old(sod.bools) && sod.ints == old(sod.ints) && sod.strings == old(sod.strings)
  {
    for i := 0 to 3
      invariant sod.doubles == old(sod.doubles) + MatDoublesUpTo(m, 4 * i)
      invariant sod.bools == old(sod.bools) && sod.ints == old(sod.ints) && sod.strings == old(sod.strings)
    {
      for j := 0 to 4
        invariant sod.doubles == old(sod.doubles) + MatDoublesUpTo(m, 4 * i + j)
        invariant sod.bools == old(sod.bools) && sod.ints == old(sod.ints) && sod.strings == old(sod.strings)
      {
        assert (4 * i + j) / 4 == i && (4 * i + j) % 4 == j;
        sod.AddDouble(m[i][j]);
      }
    }
  }

  /** The three bound colour components. */
  method AddColors(sod: SettingsObjectData, colors: IntTriple)
    modifies sod
    ensures sod.ints == old(sod.ints) + [VInt(colors[0]), VInt(colors[1]), VInt(colors[2])]
    ensures sod.bools == old(sod.bools) && sod.doubles == old(sod.doubles) && sod.strings == old(sod.strings)
  {
    for k := 0 to 3
      invariant sod.ints == old(sod.ints) + seq(k, j requires 0 <= j < k => VInt(colors[j]))
      invariant sod.bools == old(sod.bools) && sod.doubles == old(sod.doubles) && sod.strings == old(sod.strings)
    {
      sod.AddInt(colors[k]);
    }
  }

  /** The first block of saveSettings. */
  method SaveHeader(sod: SettingsObjectData, h: Header)
    modifies sod
    ensures sod.Pending() == HeaderSaved(h, old(sod.Pending()))
  {
    sod.AddString(h.profileName);
    sod.AddBool(h.includesChaperoneGeometry);
    sod.AddInt(ToSigned32(h.chaperoneGeometryQuadCount));
    var quadsValid := h.chaperoneGeometryQuadCount > 0;
    sod.AddBool(quadsValid);
    if quadsValid {
      AddQuads(sod, h.chaperoneGeometryQuads);
    }
  }

  /** The standing pose and the play area. */
  method SavePlayArea(sod: SettingsObjectData, a: PlayArea)
    modifies sod
    ensures sod.Pending() == PlayAreaSaved(a, old(sod.Pending()))
  {
    AddPose(sod, a.standingCenter);
    sod.AddDouble(a.playSpaceAreaX);
    sod.AddDouble(a.playSpaceAreaZ);
  }

  // Values pushed one at a time make up the block they belong to.

  lemma PushedFour(q: seq<Variant>, block: seq<Variant>)
    requires |block| == 4
    ensures q + [block[0]] + [block[1]] + [block[2]] + [block[3]] == q + block
  {
  }

  lemma PushedFive(q: seq<Variant>, block: seq<Variant>)
    requires |block| == 5
    ensures q + [block[0]] + [block[1]] + [block[2]] + [block[3]] + [block[4]] == q + block
  {
  }

  lemma PushedEight(q: seq<Variant>, block: seq<Variant>)
    requires |block| == 8
    ensures q + [block[0]] + [block[1]] + [block[2]] + [block[3]]
              + [block[4]] + [block[5]] + [block[6]] + [block[7]] == q + block
  {
  }

  /** Visibility, fade distance and the three markers, each after its flag. */
  method SaveMarkers(sod: SettingsObjectData, m: Markers)
    modifies sod
    ensures sod.Pending() == MarkersSaved(m, old(sod.Pending()))
  {
    PushedEight(sod.bools, MarkersBools(m));
    sod.AddBool(m.includesVisibility);
    sod.AddDouble(m.visibility);
    sod.AddBool(m.includesFadeDistance);
    sod.AddDouble(m.fadeDistance);
    sod.AddBool(m.includesCenterMarker);
    sod.AddBool(m.centerMarker);
    sod.AddBool(m.includesPlaySpaceMarker);
    sod.AddBool(m.playSpaceMarker);
    sod.AddBool(m.includesFloorBoundsMarker);
    sod.AddBool(m.floorBoundsMarker);
  }

  /** Bounds colour, chaperone style and forced bounds, each after its flag. */
  method SaveStyle(sod: SettingsObjectData, s: Style)
    modifies sod
    ensures sod.Pending() == StyleSaved(s, old(sod.Pending()))
  {
    PushedFour(sod.bools, StyleBools(s));
    sod.AddBool(s.includesBoundsColor);
    AddColors(sod, s.boundsColor);
    sod.AddBool(s.includesChaperoneStyle);
    sod.AddInt(s.chaperoneStyle);
    sod.AddBool(s.includesForceBounds);
    sod.AddBool(s.forceBounds);
  }

  /** The proximity warning settings, the new center marker and the dim height. */
  method SaveProximity(sod: SettingsObjectData, x: Proximity)
    modifies sod
    ensures sod.Pending() == ProximitySaved(x, old(sod.Pending()))
  {
    PushedEight(sod.bools, ProximityBools(x));
    PushedFive(sod.doubles, ProximityDoubles(x));
    sod.AddBool(x.includesProximityWarningSettings);
    sod.AddBool(x.enableChaperoneSwitchToBeginner);
    sod.AddDouble(x.chaperoneSwitchToBeginnerDistance);
    sod.AddBool(x.enableChaperoneHapticFeedback);
    sod.AddDouble(x.chaperoneHapticFeedbackDistance);
    sod.AddBool(x.enableChaperoneAlarmSound);
    sod.AddBool(x.chaperoneAlarmSoundLooping);
    sod.AddBool(x.chaperoneAlarmSoundAdjustVolume);
    sod.AddDouble(x.chaperoneAlarmSoundDistance);
    sod.AddBool(x.enableChaperoneShowDashboard);
    sod.AddDouble(x.chaperoneShowDashboardDistance);
    sod.AddBool(x.centerMarkerNew);
    sod.AddDouble(x.chaperoneDimHeight);
  }

  /** `saveSettings`: a new object whose queues hold p's values in save order. */
  method SaveProfile(p: Profile) returns (sod: SettingsObjectData)
    ensures fresh(sod) && sod.Valid()
    ensures sod.Pending() == SavedContents(p)
  {
    sod := new SettingsObjectData();
    SaveHeader(sod, p.header);
    SavePlayArea(sod, p.playArea);
    SaveMarkers(sod, p.markers);
    SaveStyle(sod, p.style);
    SaveProximity(sod, p.proximity);
    SavedWellTyped(p);
  }


  // ---------------------------------------------------------------------
  // Reading, in the order of loadSettings
  // ---------------------------------------------------------------------

  // Each reader consumes the front of one queue. The ghost q and n say
  // where in the originally pending queue q that front is: what is pending
  // is q from position n on.

  lemma RestStep(q: seq<Variant>, n: nat)
    ensures Rest(Rest(q, n), 1) == Rest(q, n + 1)
  {
    if n < |q| {
      assert q[n..][1..] == q[n + 1..];
    }
  }

  method ReadBool(obj: SettingsObjectData, d: bool, ghost q: seq<Variant>, ghost n: nat) returns (b: bool)
    requires obj.bools == Rest(q, n)
    modifies obj
    ensures b == BoolAt(q, n, d) && obj.bools == Rest(q, n + 1)
    ensures obj.ints == old(obj.ints) && obj.doubles == old(obj.doubles) && obj.strings == old(obj.strings)
  {
    b := obj.NextBool(d);
    RestStep(q, n);
  }

  method ReadInt(obj: SettingsObjectData, d: int, ghost q: seq<Variant>, ghost n: nat) returns (i: int)
    requires obj.ints == Rest(q, n)
    modifies obj
    ensures i == IntAt(q, n, d) && obj.ints == Rest(q, n + 1)
    ensures obj.bools == old(obj.bools) && obj.doubles == old(obj.doubles) && obj.strings == old(obj.strings)
  {
    i := obj.NextInt(d);
    RestStep(q, n);
  }

  method ReadDouble(obj: SettingsObjectData, d: real, ghost q: seq<Variant>, ghost n: nat) returns (x: real)
    requires obj.doubles == Rest(q, n)
    modifies obj
    ensures x == DoubleAt(q, n, d) && obj.doubles == Rest(q, n + 1)
    ensures obj.bools == old(obj.bools) && obj.ints == old(obj.ints) && obj.strings == old(obj.strings)
  {
    x := obj.NextDouble(d);
    RestStep(q, n);
  }

  method ReadString(obj: SettingsObjectData, d: string, ghost q: seq<Variant>, ghost n: nat) returns (s: string)
    requires obj.strings == Rest(q, n)
    modifies obj
    ensures s == StringAt(q, n, d) && obj.strings == Rest(q, n + 1)
    ensures obj.bools == old(obj.bools) && obj.ints == old(obj.ints) && obj.doubles == old(obj.doubles)
  {
    s := obj.NextString(d);
    RestStep(q, n);
  }

  /** One corner: its x, y and z, read from the doubles. */
  method ReadCorner(obj: SettingsObjectData, ghost q: seq<Variant>, ghost n: nat) returns (v: Vec3)
    requires obj.doubles == Rest(q, n)
    modifies obj
    ensures v == CornerAt(q, n) && obj.doubles == Rest(q, n + 3)
    ensures obj.bools == old(obj.bools) && obj.ints == old(obj.ints) && obj.strings == old(obj.strings)
  {
    var x := ReadDouble(obj, 0.0, q, n);
    var y := ReadDouble(obj, 0.0, q, n + 1);
    var z := ReadDouble(obj, 0.0, q, n + 2);
    v := Vec3(x, y, z);
  }

  /** One quad: its four corners in order. */
  method ReadQuad(obj: SettingsObjectData, ghost q: seq<Variant>, ghost n: nat) returns (quad: Quad)
    requires obj.doubles == Rest(q, n)
    modifies obj
    ensures quad == QuadAt(q, n) && obj.doubles == Rest(q, n + 12)
    ensures obj.bools == old(obj.bools) && obj.ints == old(obj.ints) && obj.strings == old(obj.strings)
  {
    var corners: seq<Vec3> := [];
    for c := 0 to 4
      invariant |corners| == c && forall j :: 0 <= j < c ==> corners[j] == CornerAt(q, n + 3 * j)
      invariant obj.doubles == Rest(q, n + 3 * c)
      invariant obj.bools == old(obj.bools) && obj.ints == old(obj.ints) && obj.strings == old(obj.strings)
    {
      var v := ReadCorner(obj, q, n + 3 * c);
      corners := corners + [v];
    }
    quad := Quad(corners[0], corners[1], corners[2], corners[3]);
    assert corners[3] == CornerAt(q, n + 3 * 3);
  }

  /** The first i quads whose coordinates start at position n, one after another. */
  function QuadsFrom(q: seq<Variant>, n: nat, i: nat): (r: seq<Quad>)
    ensures |r| == i
  {
    if i == 0 then [] else QuadsFrom(q, n, i - 1) + [QuadAt(q, n + 12 * (i - 1))]
  }

  /** Quad k of those is the quad at position n + 12k. */
  lemma {:induction false} QuadsFromAt(q: seq<Variant>, n: nat, i: nat, k: nat)
    requires k < i
    ensures QuadsFrom(q, n, i)[k] == QuadAt(q, n + 12 * k)
  {
    if k < i - 1 {
      QuadsFromAt(q, n, i - 1, k);
    }
  }

  /** `count` quads of twelve coordinates each, read from the doubles. */
  method ReadQuads(obj: SettingsObjectData, count: uint32, ghost q: seq<Variant>, ghost n: nat) returns (qs: seq<Quad>)
    requires obj.doubles == Rest(q, n)
    modifies obj
    ensures qs == QuadsFrom(q, n, count)
    ensures obj.doubles == Rest(q, n + 12 * (count as nat))
    ensures obj.bools == old(obj.bools) && obj.ints == old(obj.ints) && obj.strings == old(obj.strings)
  {
    qs := [];
    for i := 0 to count
      invariant qs == QuadsFrom(q, n, i)
      invariant obj.doubles == Rest(q, n + 12 * i)
      invariant obj.bools == old(obj.bools) && obj.ints == old(obj.ints) && obj.strings == old(obj.strings)
    {
      qs := ReadNextQuad(obj, q, n, i, qs);
    }
  }

  /** One pass of the quad loop: the next quad, appended to those read so far. */
  method ReadNextQuad(obj: SettingsObjectData, ghost q: seq<Variant>, ghost n: nat, i: nat, qs: seq<Quad>) returns (qs': seq<Quad>)
    requires qs == QuadsFrom(q, n, i) && obj.doubles == Rest(q, n + 12 * i)
    modifies obj
    ensures qs' == QuadsFrom(q, n, i + 1) && obj.doubles == Rest(q, n + 12 * (i + 1))
    ensures obj.bools == old(obj.bools) && obj.ints == old(obj.ints) && obj.strings == old(obj.strings)
  {
    var quad := ReadQuad(obj, q, n + 12 * i);
    qs' := qs + [quad];
  }

  /** One matrix row of four entries, read from the doubles. */
  method ReadRow(obj: SettingsObjectData, ghost q: seq<Variant>, ghost n: nat) returns (row: seq<real>)
    requires obj.doubles == Rest(q, n)
    modifies obj
    ensures row == RowAt(q, n) && obj.doubles == Rest(q, n + 4)
    ensures obj.bools == old(obj.bools) && obj.ints == old(obj.ints) && obj.strings == old(obj.strings)
  {
    row := [];
    for j := 0 to 4
      invariant |row| == j && forall l :: 0 <= l < j ==> row[l] == DoubleAt(q, n + l, 0.0)
      invariant obj.doubles == Rest(q, n + j)
      invariant obj.bools == old(obj.bools) && obj.ints == old(obj.ints) && obj.strings == old(obj.strings)
    {
      var x := ReadDouble(obj, 0.0, q, n + j);
      row := row + [x];
    }
  }

  /** The first i rows of a matrix whose entries start at position n. */
  function RowsFrom(q: seq<Variant>, n: nat, i: nat): (r: seq<seq<real>>)
    ensures |r| == i
  {
    if i == 0 then [] else RowsFrom(q, n, i - 1) + [RowAt(q, n + 4 * (i - 1))]
  }

  /** A 3x4 matrix, row by row, read from the doubles. */
  method ReadPose(obj: SettingsObjectData, ghost q: seq<Variant>, ghost n: nat) returns (m: Mat34)
    requires obj.doubles == Rest(q, n)
    modifies obj
    ensures m == MatAt(q, n) && obj.doubles == Rest(q, n + 12)
    ensures obj.bools == old(obj.bools) && obj.ints == old(obj.ints) && obj.strings == old(obj.strings)
  {
    var rows: seq<seq<real>> := [];
    for i := 0 to 3
      invariant rows == RowsFrom(q, n, i)
      invariant obj.doubles == Rest(q, n + 4 * i)
      invariant obj.bools == old(obj.bools) && obj.ints == old(obj.ints) && obj.strings == old(obj.strings)
    {
      rows := ReadNextRow(obj, q, n, i, rows);
    }
    assert RowsFrom(q, n, 1) == [RowAt(q, n)];
    assert RowsFrom(q, n, 2) == [RowAt(q, n), RowAt(q, n + 4)];
    assert rows == [RowAt(q, n), RowAt(q, n + 4), RowAt(q, n + 8)];
    m := rows;
  }

  /** One pass of the row loop: the next row, appended to those read so far. */
  method ReadNextRow(obj: SettingsObjectData, ghost q: seq<Variant>, ghost n: nat, i: nat, rows: seq<seq<real>>)
    returns (rows': seq<seq<real>>)
    requires rows == RowsFrom(q, n, i) && obj.doubles == Rest(q, n + 4 * i)
    modifies obj
    ensures rows' == RowsFrom(q, n, i + 1) && obj.doubles == Rest(q, n + 4 * (i + 1))
    ensures obj.bools == old(obj.bools) && obj.ints == old(obj.ints) && obj.strings == old(obj.strings)
  {
    var row := ReadRow(obj, q, n + 4 * i);
    rows' := rows + [row];
  }

  /** The three bound colour components, read from the ints. */
  method ReadColors(obj: SettingsObjectData, ghost q: seq<Variant>, ghost n: nat) returns (colors: IntTriple)
    requires obj.ints == Rest(q, n)
    modifies obj
    ensures colors == [IntAt(q, n, 0), IntAt(q, n + 1, 0), IntAt(q, n + 2, 0)] && obj.ints == Rest(q, n + 3)
    ensures obj.bools == old(obj.bools) && obj.doubles == old(obj.doubles) && obj.strings == old(obj.strings)
  {
    var cs: seq<int> := [];
    for k := 0 to 3
      invariant |cs| == k && forall j :: 0 <= j < k ==> cs[j] == IntAt(q, n + j, 0)
      invariant obj.ints == Rest(q, n + k)
      invariant obj.bools == old(obj.bools) && obj.doubles == old(obj.doubles) && obj.strings == old(obj.strings)
    {
      var x := ReadInt(obj, 0, q, n + k);
      cs := cs + [x];
    }
    colors := cs;
  }

  // The blocks of loadSettings, each proved against its function above.

  /** Name, geometry flag, quad count and, when the validity bool says so, the quads. */
  method LoadHeader(obj: SettingsObjectData, ghost c: Contents, prior: Header) returns (h: Header)
    requires obj.Pending() == c
    modifies obj
    ensures h == HeaderFrom(c, prior)
    ensures obj.strings == Rest(c.strings, 1) && obj.bools == Rest(c.bools, 2) && obj.ints == Rest(c.ints, 1)
    ensures obj.doubles == Rest(c.doubles, PoseOffset(c))
  {
    assert Rest(c.strings, 0) == c.strings && Rest(c.bools, 0) == c.bools;
    assert Rest(c.ints, 0) == c.ints && Rest(c.doubles, 0) == c.doubles;
    var name := ReadString(obj, "", c.strings, 0);
    var includes := ReadBool(obj, false, c.bools, 0);
    var signed := ReadInt(obj, 0, c.ints, 0);
    var count := ToUnsigned32(signed);
    var quadsValid := ReadBool(obj, false, c.bools, 1);
    var quads := prior.chaperoneGeometryQuads;
    if quadsValid {
      quads := ReadQuadList(obj, count, c.doubles);
    }
    h := Header(name, includes, count, quads);
  }

  /** The quad list of the header: `count` quads from the front of the doubles. */
  method ReadQuadList(obj: SettingsObjectData, count: uint32, ghost q: seq<Variant>) returns (qs: seq<Quad>)
    requires obj.doubles == q
    modifies obj
    ensures qs == seq(count, k requires 0 <= k < count => QuadAt(q, 12 * k))
    ensures obj.doubles == Rest(q, 12 * (count as nat))
    ensures obj.bools == old(obj.bools) && obj.ints == old(obj.ints) && obj.strings == old(obj.strings)
  {
    assert Rest(q, 0) == q;
    qs := ReadQuads(obj, count, q, 0);
    forall k | 0 <= k < count
      ensures qs[k] == QuadAt(q, 12 * k)
    {
      QuadsFromAt(q, 0, count, k);
    }
  }

  /** The standing pose, row by row, and the play area. */
  method LoadPlayArea(obj: SettingsObjectData, ghost c: Contents) returns (a: PlayArea)
    requires obj.doubles == Rest(c.doubles, PoseOffset(c))
    modifies obj
    ensures a == PlayAreaFrom(c)
    ensures obj.doubles == Rest(c.doubles, PoseOffset(c) + 14)
    ensures obj.bools == old(obj.bools) && obj.ints == old(obj.ints) && obj.strings == old(obj.strings)
  {
    ghost var off := PoseOffset(c);
    var center := ReadPose(obj, c.doubles, off);
    var x := ReadDouble(obj, 0.0, c.doubles, off + 12);
    var z := ReadDouble(obj, 0.0, c.doubles, off + 13);
    a := PlayArea(center, x, z);
  }

  /** Visibility and fade distance, each after its flag, into m. */
  method LoadVisibility(obj: SettingsObjectData, ghost c: Contents, m: Markers) returns (m': Markers)
    requires obj.bools == Rest(c.bools, 2) && obj.doubles == Rest(c.doubles, PoseOffset(c) + 14)
    modifies obj
    ensures m' == m.(includesVisibility := MarkersFrom(c).includesVisibility, visibility := MarkersFrom(c).visibility,
                     includesFadeDistance := MarkersFrom(c).includesFadeDistance, fadeDistance := MarkersFrom(c).fadeDistance)
    ensures obj.bools == Rest(c.bools, 4) && obj.doubles == Rest(c.doubles, PoseOffset(c) + 16)
    ensures obj.ints == old(obj.ints) && obj.strings == old(obj.strings)
  {
    ghost var b, d, off := c.bools, c.doubles, PoseOffset(c);
    var includesVisibility := ReadBool(obj, false, b, 2);
    var visibility := ReadDouble(obj, 0.6, d, off + 14);
    var includesFadeDistance := ReadBool(obj, false, b, 3);
    var fadeDistance := ReadDouble(obj, 0.7, d, off + 15);
    m' := m.(includesVisibility := includesVisibility, visibility := visibility,
             includesFadeDistance := includesFadeDistance, fadeDistance := fadeDistance);
  }

  /** The center, play space and floor bounds markers, each after its flag, into m. */
  method LoadMarkerFlags(obj: SettingsObjectData, ghost c: Contents, m: Markers) returns (m': Markers)
    requires obj.bools == Rest(c.bools, 4)
    modifies obj
    ensures m' == m.(includesCenterMarker := MarkersFrom(c).includesCenterMarker, centerMarker := MarkersFrom(c).centerMarker,
                     includesPlaySpaceMarker := MarkersFrom(c).includesPlaySpaceMarker,
                     playSpaceMarker := MarkersFrom(c).playSpaceMarker,
                     includesFloorBoundsMarker := MarkersFrom(c).includesFloorBoundsMarker,
                     floorBoundsMarker := MarkersFrom(c).floorBoundsMarker)
    ensures obj.bools == Rest(c.bools, 10)
    ensures obj.ints == old(obj.ints) && obj.doubles == old(obj.doubles) && obj.strings == old(obj.strings)
  {
    ghost var b := c.bools;
    var includesCenterMarker := ReadBool(obj, false, b, 4);
    var centerMarker := ReadBool(obj, false, b, 5);
    var includesPlaySpaceMarker := ReadBool(obj, false, b, 6);
    var playSpaceMarker := ReadBool(obj, false, b, 7);
    var includesFloorBoundsMarker := ReadBool(obj, false, b, 8);
    var floorBoundsMarker := ReadBool(obj, false, b, 9);
    m' := m.(includesCenterMarker := includesCenterMarker, centerMarker := centerMarker,
             includesPlaySpaceMarker := includesPlaySpaceMarker, playSpaceMarker := playSpaceMarker,
             includesFloorBoundsMarker := includesFloorBoundsMarker, floorBoundsMarker := floorBoundsMarker);
  }

  /** Visibility, fade distance and the three markers, each after its flag. */
  method LoadMarkers(obj: SettingsObjectData, ghost c: Contents) returns (m: Markers)
    requires obj.bools == Rest(c.bools, 2) && obj.doubles == Rest(c.doubles, PoseOffset(c) + 14)
    modifies obj
    ensures m == MarkersFrom(c)
    ensures obj.bools == Rest(c.bools, 10) && obj.doubles == Rest(c.doubles, PoseOffset(c) + 16)
    ensures obj.ints == old(obj.ints) && obj.strings == old(obj.strings)
  {
    m := InitialProfile(ZeroPose).markers;
    m := LoadVisibility(obj, c, m);
    m := LoadMarkerFlags(obj, c, m);
  }

  /** Bounds colour, chaperone style and forced bounds, each after its flag. */
  method LoadStyle(obj: SettingsObjectData, ghost c: Contents) returns (s: Style)
    requires obj.bools == Rest(c.bools, 10) && obj.ints == Rest(c.ints, 1)
    modifies obj
    ensures s == StyleFrom(c)
    ensures obj.bools == Rest(c.bools, 14) && obj.ints == Rest(c.ints, 5)
    ensures obj.doubles == old(obj.doubles) && obj.strings == old(obj.strings)
  {
    ghost var b, i := c.bools, c.ints;
    var includesBoundsColor := ReadBool(obj, false, b, 10);
    var colors := ReadColors(obj, i, 1);
    var includesChaperoneStyle := ReadBool(obj, false, b, 11);
    var style := ReadInt(obj, 0, i, 4);
    var includesForceBounds := ReadBool(obj, false, b, 12);
    var forceBounds := ReadBool(obj, false, b, 13);
    s := Style(includesBoundsColor, colors, includesChaperoneStyle, style, includesForceBounds, forceBounds);
  }

  /** The switch to beginner mode, haptic feedback and the alarm's flags, into x. */
  method LoadProximityWarnings(obj: SettingsObjectData, ghost c: Contents, x: Proximity) returns (x': Proximity)
    requires obj.bools == Rest(c.bools, 14) && obj.doubles == Rest(c.doubles, PoseOffset(c) + 16)
    modifies obj
    ensures var f := ProximityFrom(c);
      x' == x.(includesProximityWarningSettings := f.includesProximityWarningSettings,
               enableChaperoneSwitchToBeginner := f.enableChaperoneSwitchToBeginner,
               chaperoneSwitchToBeginnerDistance := f.chaperoneSwitchToBeginnerDistance,
               enableChaperoneHapticFeedback := f.enableChaperoneHapticFeedback,
               chaperoneHapticFeedbackDistance := f.chaperoneHapticFeedbackDistance,
               enableChaperoneAlarmSound := f.enableChaperoneAlarmSound,
               chaperoneAlarmSoundLooping := f.chaperoneAlarmSoundLooping)
    ensures obj.bools == Rest(c.bools, 19) && obj.doubles == Rest(c.doubles, PoseOffset(c) + 18)
    ensures obj.ints == old(obj.ints) && obj.strings == old(obj.strings)
  {
    ghost var b, d, off := c.bools, c.doubles, PoseOffset(c);
    var includesProximity := ReadBool(obj, false, b, 14);
    var switchToBeginner := ReadBool(obj, false, b, 15);
    var switchDistance := ReadDouble(obj, 0.0, d, off + 16);
    var haptic := ReadBool(obj, false, b, 16);
    var hapticDistance := ReadDouble(obj, 0.0, d, off + 17);
    var alarm := ReadBool(obj, false, b, 17);
    var looping := ReadBool(obj, true, b, 18);
    x' := x.(includesProximityWarningSettings := includesProximity,
             enableChaperoneSwitchToBeginner := switchToBeginner, chaperoneSwitchToBeginnerDistance := switchDistance,
             enableChaperoneHapticFeedback := haptic, chaperoneHapticFeedbackDistance := hapticDistance,
             enableChaperoneAlarmSound := alarm, chaperoneAlarmSoundLooping := looping);
  }

  /** Alarm volume and distance, dashboard, the new center marker and the dim height, into x. */
  method LoadAlarm(obj: SettingsObjectData, ghost c: Contents, x: Proximity) returns (x': Proximity)
    requires obj.bools == Rest(c.bools, 19) && obj.doubles == Rest(c.doubles, PoseOffset(c) + 18)
    modifies obj
    ensures var f := ProximityFrom(c);
      x' == x.(chaperoneAlarmSoundAdjustVolume := f.chaperoneAlarmSoundAdjustVolume,
               chaperoneAlarmSoundDistance := f.chaperoneAlarmSoundDistance,
               enableChaperoneShowDashboard := f.enableChaperoneShowDashboard,
               chaperoneShowDashboardDistance := f.chaperoneShowDashboardDistance,
               centerMarkerNew := f.centerMarkerNew, chaperoneDimHeight := f.chaperoneDimHeight)
    ensures obj.bools == Rest(c.bools, 22) && obj.doubles == Rest(c.doubles, PoseOffset(c) + 21)
    ensures obj.ints == old(obj.ints) && obj.strings == old(obj.strings)
  {
    ghost var b, d, off := c.bools, c.doubles, PoseOffset(c);
    var adjustVolume := ReadBool(obj, false, b, 19);
    var alarmDistance := ReadDouble(obj, 0.0, d, off + 18);
    var dashboard := ReadBool(obj, false, b, 20);
    var dashboardDistance := ReadDouble(obj, 0.0, d, off + 19);
    var centerMarkerNew := ReadBool(obj, false, b, 21);
    var dimHeight := ReadDouble(obj, 0.0, d, off + 20);
    x' := x.(chaperoneAlarmSoundAdjustVolume := adjustVolume, chaperoneAlarmSoundDistance := alarmDistance,
             enableChaperoneShowDashboard := dashboard, chaperoneShowDashboardDistance := dashboardDistance,
             centerMarkerNew := centerMarkerNew, chaperoneDimHeight := dimHeight);
  }

  /** The proximity warning settings, the new center marker and the dim height. */
  method LoadProximity(obj: SettingsObjectData, ghost c: Contents) returns (x: Proximity)
    requires obj.bools == Rest(c.bools, 14) && obj.doubles == Rest(c.doubles, PoseOffset(c) + 16)
    modifies obj
    ensures x == ProximityFrom(c)
    ensures obj.bools == Rest(c.bools, 22) && obj.doubles == Rest(c.doubles, PoseOffset(c) + 21)
    ensures obj.ints == old(obj.ints) && obj.strings == old(obj.strings)
  {
    x := InitialProfile(ZeroPose).proximity;
    x := LoadProximityWarnings(obj, c, x);
    x := LoadAlarm(obj, c, x);
  }

  /**
   * `loadSettings` into prior: the loaded profile is `Loaded` of what was
   * pending, and exactly the values read have left the queues.
   */
  method LoadProfile(obj: SettingsObjectData, prior: Profile) returns (r: Profile)
    modifies obj
    ensures r == Loaded(prior, old(obj.Pending()))
    ensures obj.Pending() == LeftAfterLoad(old(obj.Pending()))
  {
    ghost var c := obj.Pending();
    var h := LoadHeader(obj, c, prior.header);
    var a := LoadPlayArea(obj, c);
    var m := LoadMarkers(obj, c);
    var s := LoadStyle(obj, c);
    var x := LoadProximity(obj, c);
    r := Profile(h, a, m, s, x);
  }

  // ---------------------------------------------------------------------
  // saveObject / loadObject and their numbered forms, for a profile
  // ---------------------------------------------------------------------

  /** The group name of slot `slot`, or the plain settings name. */
  function GroupName(slot: Option<int>): string {
    match slot
    case None => SettingsName
    case Some(n) => AppendSlotNumberToSettingsName(SettingsName, n)
  }

  /**
   * `saveObject` (slot None) and `saveNumberedObject` (slot Some(n)): the
   * profile's saved queues, stored as an object in the group of that name.
   */
  method SaveProfileObject(store: Store, p: Profile, slot: Option<int>)
    modifies store
    ensures store.stack == old(store.stack)
    ensures store.entries == WriteObject(old(store.entries), Prefix(old(store.stack)) + [GroupName(slot)], SavedContents(p))
  {
    var sod := SaveProfile(p);
    var name := GroupName(slot);
    SaveSettingsObject(store, sod, name);
  }

  /** `loadObject` and `loadNumberedObject`: prior with the stored object loaded into it. */
  method LoadProfileObject(store: Store, prior: Profile, slot: Option<int>) returns (r: Profile)
    modifies store
    ensures store.stack == old(store.stack) && store.entries == old(store.entries)
    ensures r == Loaded(prior, ReadObject(old(store.entries), Prefix(old(store.stack)) + [GroupName(slot)]))
  {
    var name := GroupName(slot);
    var sod := LoadSettingsObject(store, name);
    r := LoadProfile(sod, prior);
  }

  /**
   * Saving a profile to a group and loading it back from the same group
   * restores it (the quads only when the count is positive), whatever else
   * the store held.
   */
  lemma ProfileStoreRoundTrip(e: map<seq<string>, Variant>, path: seq<string>, prior: Profile, p: Profile)
    requires |p.header.chaperoneGeometryQuads| == p.header.chaperoneGeometryQuadCount
    ensures Loaded(prior, ReadObject(WriteObject(e, path, SavedContents(p)), path)) ==
      if p.header.chaperoneGeometryQuadCount > 0 then p
      else p.(header := p.header.(chaperoneGeometryQuads := prior.header.chaperoneGeometryQuads))
  {
    SavedWellTyped(p);
    ReadWriteObject(e, path, SavedContents(p));
    ProfileRoundTrip(prior, p);
  }

  /** Numbered slots of a profile never share a group. */
  lemma ProfileSlotsDistinct(a: int, b: int)
    ensures GroupName(Some(a)) != GroupName(None)
    ensures a != b ==> GroupName(Some(a)) != GroupName(Some(b))
  {
    SlotNamesDistinct(SettingsName, a, b);
    var n := AppendSlotNumberToSettingsName(SettingsName, a);
    assert |n| > |SettingsName|;
  }

}
