/**
 * The wrapper around the runtime's device queries: property error handling,
 * the display name of a device, the list of connected devices and the
 * guess of which controller model is in use.
 *
 * The runtime is not visible; what it would answer for each device index is
 * a `Runtime` value of functions, so every query here is a function of it.
 */
module OvrSystemWrapper {
  import opened StringSearch

  /** `vr::k_unMaxTrackedDeviceCount`. */
  const MAX_TRACKED_DEVICE_COUNT: int := 64

  /** `vr::ETrackedDeviceClass`. */
  datatype DeviceClass = ClassInvalid | HMD | Controller | GenericTracker | TrackingReference | DisplayRedirect

  /** `vr::ETrackedPropertyError`, reduced to success or a failure code. */
  datatype TrackedPropertyError = TrackedPropSuccess | TrackedPropFailure(code: int)

  datatype SystemError = NoError | UndefinedError

  /** `vr::TrackedControllerRole_LeftHand` and `_RightHand`. */
  const ROLE_LEFT_HAND: int := 1
  const ROLE_RIGHT_HAND: int := 2

  /** The string properties the program asks for. */
  datatype StringProperty =
    | ControllerTypeProp | ConnectedWirelessDongleProp | SerialNumberProp | AllWirelessDongleDescriptionsProp

  /**
   * What the runtime answers for device index i: whether it is connected,
   * its class, its string properties and its controller role hint.
   */
  datatype Runtime = Runtime(
    connected: int -> bool,
    deviceClass: int -> DeviceClass,
    stringProperty: (int, StringProperty) -> string,
    roleHint: int -> int)

  /** `Prop_ControllerType_String`. */
  function ControllerType(rt: Runtime, i: int): string {
    rt.stringProperty(i, ControllerTypeProp)
  }

  // ---------------------------------------------------------------------
  // Property errors
  // ---------------------------------------------------------------------

  /** `handleTrackedPropertyErrors`: the message it logs is left out. */
  function HandleTrackedPropertyErrors(error: TrackedPropertyError): (r: SystemError)
    ensures r == NoError <==> error == TrackedPropSuccess
  {
    if error != TrackedPropSuccess then UndefinedError else NoError
  }

  /**
   * `getStringTrackedProperty`: the runtime's string, with the error always
   * handled as success (the runtime's own error is never asked for).
   */
  function GetStringTrackedProperty(rt: Runtime, index: int, property: StringProperty): (r: (SystemError, string))
    ensures r.0 == NoError
  {
    (HandleTrackedPropertyErrors(TrackedPropSuccess), rt.stringProperty(index, property))
  }

  // ---------------------------------------------------------------------
  // getDeviceName
  // ---------------------------------------------------------------------

  /** The side word of a tracker name; "_left" is looked for first. */
  function TrackerSide(name: string): string {
    if Contains(name, "_left") then "left "
    else if Contains(name, "_right") then "right "
    else ""
  }

  /** The body part of a tracker name, the first match in a fixed order. */
  function TrackerPart(name: string): string {
    if Contains(name, "handed") then " hand"
    else if Contains(name, "shoulder") then "shoulder"
    else if Contains(name, "knee") then "knee"
    else if Contains(name, "elbow") then "elbow"
    else if Contains(name, "foot") then "foot"
    else if Contains(name, "camera") then "camera"
    else if Contains(name, "waist") then "waist"
    else ""
  }

  /** `getDeviceName`. */
  function GetDeviceName(rt: Runtime, index: int): (r: string)
    ensures !rt.connected(index) ==> r == "No Device Connected"
    ensures rt.connected(index) && ControllerType(rt, index) in DeviceNameTable ==>
      r == DeviceNameTable[ControllerType(rt, index)]
  {
    if !rt.connected(index) then "No Device Connected"
    else
      var pair := GetStringTrackedProperty(rt, index, ControllerTypeProp);
      if pair.0 != NoError then "Error"
      else
        var name := pair.1;
        if name == "oculus_touch" then "Touch"
        else if name == "knuckles" then "Knuckles"
        else if name == "vive_controller" then "Wand"
        else if name == "hpmotioncontroller" then "Reverb G2 WMR"
        else if name == "holographic_controller" then "WMR"
        else if name == "vive_cosmos_controller" then "Cosmos"
        else if name == "vive_tracker" then "Tracker"
        else if name == "indexhmd" then "Index Headset"
        else if Contains(name, "vive_tracker_") then "Tracker " + TrackerSide(name) + TrackerPart(name)
        else name
  }

  /** The fixed names, as a table. */
  const DeviceNameTable: map<string, string> := map[
    "oculus_touch" := "Touch", "knuckles" := "Knuckles", "vive_controller" := "Wand",
    "hpmotioncontroller" := "Reverb G2 WMR", "holographic_controller" := "WMR",
    "vive_cosmos_controller" := "Cosmos", "vive_tracker" := "Tracker", "indexhmd" := "Index Headset"]

  /**
   * A connected device's name: the table's entry when its type is in the
   * table, otherwise the tracker composition for "vive_tracker_" types,
   * otherwise the type itself; a disconnected device is "No Device Connected".
   */
  lemma DeviceNameCases(rt: Runtime, index: int)
    ensures !rt.connected(index) ==> GetDeviceName(rt, index) == "No Device Connected"
    ensures var t := ControllerType(rt, index);
      rt.connected(index) ==>
        GetDeviceName(rt, index) ==
          if t in DeviceNameTable then DeviceNameTable[t]
          else if Contains(t, "vive_tracker_") then "Tracker " + TrackerSide(t) + TrackerPart(t)
          else t
  {
  }

  /** The "Error" branch is never taken: "Error" comes back only as a device's own type. */
  lemma DeviceNameErrorUnreachable(rt: Runtime, index: int)
    ensures GetDeviceName(rt, index) == "Error" ==> rt.connected(index) && ControllerType(rt, index) == "Error"
  {
    assert GetStringTrackedProperty(rt, index, ControllerTypeProp).0 == NoError;
  }

  /** A tracker's name starts with "Tracker ", and a name with both sides counts as left. */
  lemma TrackerNameShape(name: string)
    ensures var r := "Tracker " + TrackerSide(name) + TrackerPart(name);
      r[..8] == "Tracker " &&
      (Contains(name, "_left") ==> r[8..13] == "left ")
  {
  }

  // ---------------------------------------------------------------------
  // getAllConnectedDevices
  // ---------------------------------------------------------------------

  predicate IsWearable(c: DeviceClass) {
    c == Controller || c == GenericTracker || c == HMD
  }

  /** Whether `getAllConnectedDevices(onlyWearable)` lists index i. */
  predicate Listed(rt: Runtime, onlyWearable: bool, i: int) {
    0 <= i < MAX_TRACKED_DEVICE_COUNT && rt.connected(i) && (!onlyWearable || IsWearable(rt.deviceClass(i)))
  }

  /** The listed indices below n, in order. */
  function ListedBelow(rt: Runtime, onlyWearable: bool, n: nat): seq<int> {
    if n == 0 then []
    else ListedBelow(rt, onlyWearable, n - 1) + (if Listed(rt, onlyWearable, n - 1) then [n - 1] else [])
  }

  /** What `getAllConnectedDevices` returns, for the callers' specifications. */
  function ConnectedDevices(rt: Runtime, onlyWearable: bool): seq<int> {
    ListedBelow(rt, onlyWearable, MAX_TRACKED_DEVICE_COUNT)
  }

  /** `getAllConnectedDevices`: exactly the listed indices, ascending. */
  method GetAllConnectedDevices(rt: Runtime, onlyWearable: bool) returns (output: seq<int>)
    ensures forall i :: i in output <==> Listed(rt, onlyWearable, i)
    ensures forall j, k :: 0 <= j < k < |output| ==> output[j] < output[k]
    ensures output == ConnectedDevices(rt, onlyWearable)
  {
    output := [];
    for i := 0 to MAX_TRACKED_DEVICE_COUNT
      invariant output == ListedBelow(rt, onlyWearable, i)
      invariant forall x :: x in output <==> x < i && Listed(rt, onlyWearable, x)
      invariant forall j, k :: 0 <= j < k < |output| ==> output[j] < output[k]
      invariant forall j :: 0 <= j < |output| ==> output[j] < i
    {
      if rt.connected(i) {
        var deviceClass := rt.deviceClass(i);
        if onlyWearable {
          if deviceClass == Controller || deviceClass == GenericTracker || deviceClass == HMD {
            output := output + [i];
          }
        } else {
          output := output + [i];
        }
      }
    }
  }

  // ---------------------------------------------------------------------
  // getControllerName
  // ---------------------------------------------------------------------

  /**
   * The scan's variables. `found` is a bit set in the source (0b100 left,
   * 0b010 right); here it is two flags. Indices not found stay at 999.
   */
  datatype Scan = Scan(foundLeft: bool, foundRight: bool, hasHmd: bool, hmdIdx: int, lftIdx: int, rightIdx: int)

  const NOT_FOUND: int := 999
  const InitialScan := Scan(false, false, false, NOT_FOUND, NOT_FOUND, NOT_FOUND)

  predicate IsHand(rt: Runtime, i: int, role: int) {
    rt.deviceClass(i) == Controller && rt.roleHint(i) == role
  }

  /** One iteration's effect on the scan variables. */
  function Step(rt: Runtime, s: Scan, i: int): Scan {
    var s1 := if rt.deviceClass(i) == HMD then s.(hmdIdx := i, hasHmd := true) else s;
    if IsHand(rt, i, ROLE_LEFT_HAND) then s1.(lftIdx := i, foundLeft := true)
    else if IsHand(rt, i, ROLE_RIGHT_HAND) then s1.(rightIdx := i, foundRight := true)
    else s1
  }

  /** The scan from index i on, stopping after the index at which both hands are known. */
  function ScanFrom(rt: Runtime, i: nat, s: Scan): Scan
    decreases MAX_TRACKED_DEVICE_COUNT - i
  {
    if i >= MAX_TRACKED_DEVICE_COUNT then s
    else
      var s' := Step(rt, s, i);
      if s'.foundLeft && s'.foundRight then s' else ScanFrom(rt, i + 1, s')
  }

  /** The guess from the headset's type when no hand controller is connected. */
  function HmdControllerGuess(hmdName: string): string {
    if hmdName == "indexhmd" then "knuckles"
    else if hmdName == "vive" then "vive_controller"
    else if hmdName == "vive_pro" then "knuckles"
    else if hmdName == "holographic_hmd" then "hpmotioncontroller"
    else if hmdName == "rift" then "oculus_touch"
    else "oculus_touch"
  }

  /** What `getControllerName` returns once the scan has ended in s. */
  function ControllerNameAfter(rt: Runtime, s: Scan): string {
    var isLeftCon := s.foundLeft && rt.connected(s.lftIdx);
    var isRightCon := s.foundRight && rt.connected(s.rightIdx);
    var left := if isLeftCon then ControllerType(rt, s.lftIdx) else "";
    var right := if isRightCon then ControllerType(rt, s.rightIdx) else "";
    if !isLeftCon && !isRightCon && s.hasHmd then HmdControllerGuess(ControllerType(rt, s.hmdIdx))
    else if s.rightIdx == NOT_FOUND then left
    else right
  }

  /** `getControllerName`. */
  method GetControllerName(rt: Runtime) returns (name: string)
    ensures name == ControllerNameAfter(rt, ScanFrom(rt, 0, InitialScan))
  {
    var s := InitialScan;
    var i := 0;
    while i < MAX_TRACKED_DEVICE_COUNT
      invariant 0 <= i <= MAX_TRACKED_DEVICE_COUNT
      invariant ScanFrom(rt, i, s) == ScanFrom(rt, 0, InitialScan)
      decreases MAX_TRACKED_DEVICE_COUNT - i
    {
      var trackedDeviceClass := rt.deviceClass(i);
      if trackedDeviceClass == HMD {
        s := s.(hmdIdx := i, hasHmd := true);
      }
      if trackedDeviceClass == Controller {
        var handRole := rt.roleHint(i);
        if handRole == ROLE_LEFT_HAND {
          s := s.(lftIdx := i, foundLeft := true);
        } else if handRole == ROLE_RIGHT_HAND {
          s := s.(rightIdx := i, foundRight := true);
        }
      }
      if s.foundLeft && s.foundRight {
        break;
      }
      i := i + 1;
    }
    var isRightCon := false;
    var isLeftCon := false;
    var right := "";
    var left := "";
    if s.foundLeft {
      isLeftCon := rt.connected(s.lftIdx);
      if isLeftCon {
        left := GetStringTrackedProperty(rt, s.lftIdx, ControllerTypeProp).1;
      }
    }
    if s.foundRight {
      isRightCon := rt.connected(s.rightIdx);
      if isRightCon {
        right := GetStringTrackedProperty(rt, s.rightIdx, ControllerTypeProp).1;
      }
    }
    if !isLeftCon && !isRightCon && s.hasHmd {
      return HmdControllerGuess(GetStringTrackedProperty(rt, s.hmdIdx, ControllerTypeProp).1);
    }
    if s.rightIdx == NOT_FOUND {
      return left;
    }
    return right;
  }

  // What the scan finds.

  /** The scan's indices point at what they claim, all below the device count or 999. */
  predicate Consistent(rt: Runtime, s: Scan) {
    (s.foundLeft <==> s.lftIdx != NOT_FOUND) && (s.foundRight <==> s.rightIdx != NOT_FOUND) &&
    (s.hasHmd <==> s.hmdIdx != NOT_FOUND) &&
    (s.foundLeft ==> 0 <= s.lftIdx < MAX_TRACKED_DEVICE_COUNT && IsHand(rt, s.lftIdx, ROLE_LEFT_HAND)) &&
    (s.foundRight ==> 0 <= s.rightIdx < MAX_TRACKED_DEVICE_COUNT && IsHand(rt, s.rightIdx, ROLE_RIGHT_HAND)) &&
    (s.hasHmd ==> 0 <= s.hmdIdx < MAX_TRACKED_DEVICE_COUNT && rt.deviceClass(s.hmdIdx) == HMD)
  }

  predicate HandFrom(rt: Runtime, i: nat, role: int) {
    exists k :: i <= k < MAX_TRACKED_DEVICE_COUNT && IsHand(rt, k, role)
  }

  /**
   * From a consistent state, the scan ends consistent, and it has found a
   * hand exactly when one was found already or one exists from i on.
   */
  lemma {:induction false} ScanFromFacts(rt: Runtime, i: nat, s: Scan)
    requires Consistent(rt, s)
    ensures Consistent(rt, ScanFrom(rt, i, s))
    ensures ScanFrom(rt, i, s).foundLeft <==> s.foundLeft || HandFrom(rt, i, ROLE_LEFT_HAND)
    ensures ScanFrom(rt, i, s).foundRight <==> s.foundRight || HandFrom(rt, i, ROLE_RIGHT_HAND)
    decreases MAX_TRACKED_DEVICE_COUNT - i
  {
    if i < MAX_TRACKED_DEVICE_COUNT {
      var s' := Step(rt, s, i);
      assert Consistent(rt, s');
      if !(s'.foundLeft && s'.foundRight) {
        ScanFromFacts(rt, i + 1, s');
        if HandFrom(rt, i, ROLE_LEFT_HAND) && !HandFrom(rt, i + 1, ROLE_LEFT_HAND) {
          assert IsHand(rt, i, ROLE_LEFT_HAND);
        }
        if HandFrom(rt, i, ROLE_RIGHT_HAND) && !HandFrom(rt, i + 1, ROLE_RIGHT_HAND) {
          assert IsHand(rt, i, ROLE_RIGHT_HAND);
        }
      } else {
        if s.foundLeft || HandFrom(rt, i, ROLE_LEFT_HAND) {
        }
      }
    }
  }

  /**
   * The scan finds a left (right) hand controller exactly when the runtime
   * has one, and the index it keeps is such a controller.
   */
  lemma ScanFindsHands(rt: Runtime)
    ensures var s := ScanFrom(rt, 0, InitialScan);
      Consistent(rt, s) &&
      (s.foundLeft <==> HandFrom(rt, 0, ROLE_LEFT_HAND)) &&
      (s.foundRight <==> HandFrom(rt, 0, ROLE_RIGHT_HAND))
  {
    ScanFromFacts(rt, 0, InitialScan);
  }

  /** Some device below `below` is a hand controller with this role. */
  predicate HandBelow(rt: Runtime, role: int, below: int) {
    exists k :: 0 <= k < below && IsHand(rt, k, role)
  }

  /**
   * `idx` is the last hand controller with this role below `below` when
   * `found`, and there is none below `below` otherwise.
   */
  predicate LastHandBelow(rt: Runtime, found: bool, idx: int, role: int, below: int) {
    (found ==> 0 <= idx < below && IsHand(rt, idx, role) && forall k :: idx < k < below ==> !IsHand(rt, k, role)) &&
    (!found ==> forall k :: 0 <= k < below ==> !IsHand(rt, k, role))
  }

  /** Likewise for the last headset below `below`. */
  predicate LastHmdBelow(rt: Runtime, found: bool, idx: int, below: int) {
    (found ==> 0 <= idx < below && rt.deviceClass(idx) == HMD && forall k :: idx < k < below ==> rt.deviceClass(k) != HMD) &&
    (!found ==> forall k :: 0 <= k < below ==> rt.deviceClass(k) != HMD)
  }

  /**
   * `m` is the index at which a left and a right hand controller have first
   * both been seen: both exist at or below `m`, but not both below `m`.
   */
  predicate BothHandsFirstSeenAt(rt: Runtime, m: nat) {
    m < MAX_TRACKED_DEVICE_COUNT &&
    HandBelow(rt, ROLE_LEFT_HAND, m + 1) && HandBelow(rt, ROLE_RIGHT_HAND, m + 1) &&
    !(HandBelow(rt, ROLE_LEFT_HAND, m) && HandBelow(rt, ROLE_RIGHT_HAND, m))
  }

  /** The scan from i, given what it has kept of the devices below i, up to the stop at m. */
  lemma {:induction false} ScanStopsAt(rt: Runtime, i: nat, s: Scan, m: nat)
    requires i <= m && BothHandsFirstSeenAt(rt, m)
    requires LastHandBelow(rt, s.foundLeft, s.lftIdx, ROLE_LEFT_HAND, i)
    requires LastHandBelow(rt, s.foundRight, s.rightIdx, ROLE_RIGHT_HAND, i)
    requires LastHmdBelow(rt, s.hasHmd, s.hmdIdx, i)
    ensures var r := ScanFrom(rt, i, s);
      r.foundLeft && r.foundRight &&
      LastHandBelow(rt, r.foundLeft, r.lftIdx, ROLE_LEFT_HAND, m + 1) &&
      LastHandBelow(rt, r.foundRight, r.rightIdx, ROLE_RIGHT_HAND, m + 1) &&
      LastHmdBelow(rt, r.hasHmd, r.hmdIdx, m + 1)
    decreases m - i
  {
    var s' := Step(rt, s, i);
    assert LastHandBelow(rt, s'.foundLeft, s'.lftIdx, ROLE_LEFT_HAND, i + 1);
    assert LastHandBelow(rt, s'.foundRight, s'.rightIdx, ROLE_RIGHT_HAND, i + 1);
    assert LastHmdBelow(rt, s'.hasHmd, s'.hmdIdx, i + 1);
    if i < m {
      if s'.foundLeft && s'.foundRight {
        assert false;
      }
      ScanStopsAt(rt, i + 1, s', m);
    } else {
      var wl :| 0 <= wl < m + 1 && IsHand(rt, wl, ROLE_LEFT_HAND);
      var wr :| 0 <= wr < m + 1 && IsHand(rt, wr, ROLE_RIGHT_HAND);
      assert s'.foundLeft && s'.foundRight;
    }
  }

  /**
   * `getControllerName` stops scanning once both hands are found: with `m`
   * the index at which a left and a right hand controller have both been
   * seen, the kept left and right indices are the last such controllers at
   * or below `m`, the headset is the last one at or below `m`, and devices
   * above `m` are ignored.
   */
  lemma ScanStopsOnceBothHandsFound(rt: Runtime, m: nat)
    requires BothHandsFirstSeenAt(rt, m)
    ensures var s := ScanFrom(rt, 0, InitialScan);
      s.foundLeft && s.foundRight && s.lftIdx <= m && s.rightIdx <= m && (s.hasHmd ==> s.hmdIdx <= m) &&
      LastHandBelow(rt, true, s.lftIdx, ROLE_LEFT_HAND, m + 1) &&
      LastHandBelow(rt, true, s.rightIdx, ROLE_RIGHT_HAND, m + 1) &&
      LastHmdBelow(rt, s.hasHmd, s.hmdIdx, m + 1)
  {
    ScanStopsAt(rt, 0, InitialScan, m);
  }

  /**
   * With no connected hand controller and a headset seen, the name is the
   * guess from the headset's type; otherwise it is the right controller's
   * type, or the left's when no right hand controller exists.
   */
  lemma ControllerNameCases(rt: Runtime)
    ensures var s := ScanFrom(rt, 0, InitialScan);
      var leftCon := s.foundLeft && rt.connected(s.lftIdx);
      var rightCon := s.foundRight && rt.connected(s.rightIdx);
      ControllerNameAfter(rt, s) ==
        if !leftCon && !rightCon && s.hasHmd then HmdControllerGuess(ControllerType(rt, s.hmdIdx))
        else if !HandFrom(rt, 0, ROLE_RIGHT_HAND) then (if leftCon then ControllerType(rt, s.lftIdx) else "")
        else if rightCon then ControllerType(rt, s.rightIdx) else ""
  {
    ScanFindsHands(rt);
  }
}
