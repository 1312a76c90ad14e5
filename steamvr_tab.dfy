/**
 * The SteamVR tab's device and dongle bookkeeping and its cached toggles.
 *
 * The runtime reports its wireless dongles as one string of records
 * separated by ';', each record a serial followed by ',' and more detail.
 * `searchRXTX` lists the connected devices with the dongle each uses, then
 * adds a "No Connection" entry for every listed dongle no device uses, as
 * long as there are fewer devices than dongles.
 *
 * The toggles are cached copies of runtime settings; a setter writes the
 * setting and signals only when the value changes.
 */
module SteamVRTab {
  import opened Common
  import opened StringSearch
  import opened OvrSystemWrapper
  import OSW = OvrSettingsWrapper

  // ---------------------------------------------------------------------
  // The dongle description string
  // ---------------------------------------------------------------------

  /** The most dongles the description can list: one per ';'-separated record. */
  function MaxDongleCount(dongleList: string): nat {
    (if dongleList != "" then 1 else 0) + multiset(dongleList)[';']
  }

  /** The counting loop of `searchRXTX`. */
  method CountDongles(dongleList: string) returns (count: int)
    ensures count == MaxDongleCount(dongleList)
  {
    count := 0;
    if dongleList != "" {
      count := count + 1;
    }
    for i := 0 to |dongleList|
      invariant count == (if dongleList != "" then 1 else 0) + multiset(dongleList[..i])[';']
    {
      assert dongleList[..i + 1] == dongleList[..i] + [dongleList[i]];
      if dongleList[i] == ';' {
        count := count + 1;
      }
    }
    assert dongleList[..|dongleList|] == dongleList;
  }

  /**
   * What `getDongleSerialList` returns: the text before the first ',', then
   * the same for what follows the first ';'. With no ';' left, the loop looks
   * for the same ',' again and takes the same text a second time.
   */
  function DongleSerials(s: string): seq<string>
    decreases |s|
  {
    match IndexOf(s, ",")
    case None => []
    case Some(p) =>
      match IndexOf(s, ";")
      case Some(q) => [s[..p]] + DongleSerials(s[q + 1..])
      case None => [s[..p], s[..p]]
  }

  /** `getDongleSerialList`: each round drops everything up to the first ';'. */
  method GetDongleSerialList(deviceString: string) returns (dongleList: seq<string>)
    ensures dongleList == DongleSerials(deviceString)
  {
    var rest := deviceString;
    dongleList := [];
    while IndexOf(rest, ",").Some?
      invariant dongleList + DongleSerials(rest) == DongleSerials(deviceString)
      decreases |rest|
    {
      var pos := IndexOf(rest, ",").value;
      dongleList := dongleList + [rest[..pos]];
      var semi := IndexOf(rest, ";");
      if semi.Some? {
        rest := rest[semi.value + 1..];
        continue;
      }
      var again := IndexOf(rest, ",");
      dongleList := dongleList + [rest[..again.value]];
      break;
    }
  }

  /** One record of the description: the dongle's serial, then its detail. */
  datatype DongleRecord = DongleRecord(serial: string, detail: string)

  /** The serial holds no separator, the detail no ';'. */
  predicate WellFormedRecord(r: DongleRecord) {
    ',' !in r.serial && ';' !in r.serial && ';' !in r.detail
  }

  function RecordText(r: DongleRecord): string {
    r.serial + "," + r.detail
  }

  /** The description of a list of records. */
  function JoinRecords(rs: seq<DongleRecord>): string
    decreases |rs|
  {
    if |rs| == 0 then ""
    else if |rs| == 1 then RecordText(rs[0])
    else RecordText(rs[0]) + ";" + JoinRecords(rs[1..])
  }

  function Serials(rs: seq<DongleRecord>): (r: seq<string>)
    ensures |r| == |rs| && forall k :: 0 <= k < |rs| ==> r[k] == rs[k].serial
    decreases |rs|
  {
    if |rs| == 0 then [] else [rs[0].serial] + Serials(rs[1..])
  }

  /** The description of n well-formed records has n - 1 separators, so n is the maximum. */
  lemma {:induction false} MaxDongleCountOfRecords(rs: seq<DongleRecord>)
    requires forall k :: 0 <= k < |rs| ==> WellFormedRecord(rs[k])
    ensures MaxDongleCount(JoinRecords(rs)) == |rs|
  {
    if |rs| > 0 {
      assert JoinRecords(rs) != "" by {
        assert |RecordText(rs[0])| > 0;
      }
      SeparatorsOfRecords(rs);
    }
  }

  lemma {:induction false} SeparatorsOfRecords(rs: seq<DongleRecord>)
    requires |rs| > 0
    requires forall k :: 0 <= k < |rs| ==> WellFormedRecord(rs[k])
    ensures multiset(JoinRecords(rs))[';'] == |rs| - 1
    decreases |rs|
  {
    var r := rs[0];
    assert multiset(RecordText(r))[';'] == 0 by {
      assert RecordText(r) == r.serial + [','] + r.detail;
      assert ';' !in RecordText(r);
    }
    if |rs| > 1 {
      SeparatorsOfRecords(rs[1..]);
      assert JoinRecords(rs) == RecordText(r) + [';'] + JoinRecords(rs[1..]);
    }
  }

  /** In a record's text followed by anything, the first ',' ends the serial. */
  lemma FirstComma(r: DongleRecord, tail: string)
    requires WellFormedRecord(r)
    ensures IndexOf(RecordText(r) + tail, ",") == Some(|r.serial|)
  {
    var s := RecordText(r) + tail;
    IndexOfChar(s, ',');
    assert s[|r.serial|] == ',';
    forall k | 0 <= k < |r.serial|
      ensures s[k] != ','
    {
      assert s[k] == r.serial[k];
    }
  }

  /** In a record's text followed by ";" and more, the first ';' is that separator. */
  lemma FirstSemicolon(r: DongleRecord, tail: string)
    requires WellFormedRecord(r)
    ensures IndexOf(RecordText(r) + ";" + tail, ";") == Some(|RecordText(r)|)
  {
    var t := RecordText(r);
    var s := t + ";" + tail;
    IndexOfChar(s, ';');
    assert s[|t|] == ';';
    forall k | 0 <= k < |t|
      ensures s[k] != ';'
    {
      assert s[k] == t[k];
      if k < |r.serial| {
        assert t[k] == r.serial[k];
      } else if k > |r.serial| {
        assert t[k] == r.detail[k - |r.serial| - 1];
      }
    }
  }

  /** A single record's text has no ';'. */
  lemma NoSemicolon(r: DongleRecord)
    requires WellFormedRecord(r)
    ensures IndexOf(RecordText(r), ";") == None
  {
    var t := RecordText(r);
    IndexOfChar(t, ';');
    forall k | 0 <= k < |t|
      ensures t[k] != ';'
    {
      if k < |r.serial| {
        assert t[k] == r.serial[k];
      } else if k > |r.serial| {
        assert t[k] == r.detail[k - |r.serial| - 1];
      }
    }
  }

  /**
   * For well-formed records, `getDongleSerialList` returns every serial in
   * order, and the last one a second time.
   */
  lemma {:induction false} SerialsOfRecords(rs: seq<DongleRecord>)
    requires |rs| > 0
    requires forall k :: 0 <= k < |rs| ==> WellFormedRecord(rs[k])
    ensures DongleSerials(JoinRecords(rs)) == Serials(rs) + [rs[|rs| - 1].serial]
    decreases |rs|
  {
    var r := rs[0];
    var s := JoinRecords(rs);
    if |rs| == 1 {
      assert s == RecordText(r) + "";
      FirstComma(r, "");
      NoSemicolon(r);
      assert s[..|r.serial|] == r.serial;
    } else {
      var tail := JoinRecords(rs[1..]);
      assert s == RecordText(r) + (";" + tail);
      FirstComma(r, ";" + tail);
      FirstSemicolon(r, tail);
      assert s[..|r.serial|] == r.serial;
      assert s[|RecordText(r)| + 1..] == tail;
      SerialsOfRecords(rs[1..]);
      assert rs[1..][|rs[1..]| - 1] == rs[|rs| - 1];
    }
  }

  /** A string without ',' yields no serial at all, even when it is a record by itself. */
  lemma NoCommaNoSerial(s: string)
    requires ',' !in s
    ensures DongleSerials(s) == []
  {
    IndexOfChar(s, ',');
  }

  // ---------------------------------------------------------------------
  // Dongle classification
  // ---------------------------------------------------------------------

  /**
   * A full match of "(.*)(-[0-9]YX)": the serial ends in '-', a digit, "YX",
   * and the part before matches `.*`, which in ECMAScript regular expressions
   * excludes the line terminators '\n' and '\r'.
   */
  predicate IsTundraSerial(s: string) {
    |s| >= 4 && s[|s| - 4] == '-' && '0' <= s[|s| - 3] <= '9' && s[|s| - 2] == 'Y' && s[|s| - 1] == 'X'
    && '\n' !in s[..|s| - 4] && '\r' !in s[..|s| - 4]
  }

  predicate IsHeadsetSerial(s: string) {
    Contains(s, "-RYB") || Contains(s, "-LYM")
  }

  /** The dongle type shown for a dongle serial. */
  function DongleType(s: string): string {
    if IsHeadsetSerial(s) then "Headset"
    else if IsTundraSerial(s) then "Tundra Dongle"
    else "Standard Dongle"
  }

  /**
   * A serial ending in '-', a digit and "YX" is a Tundra dongle unless its
   * beginning already marks a headset or holds a line terminator; the ending
   * cannot form "-RYB" or "-LYM" with what precedes it.
   */
  lemma TundraSuffix(p: string, d: char)
    requires '0' <= d <= '9'
    requires !Contains(p, "-RYB") && !Contains(p, "-LYM")
    requires '\n' !in p && '\r' !in p
    ensures DongleType(p + ['-', d, 'Y', 'X']) == "Tundra Dongle"
  {
    var s := p + ['-', d, 'Y', 'X'];
    assert s[..|s| - 4] == p;
    forall k | 0 <= k <= |s|
      ensures !OccursAt(s, "-RYB", k) && !OccursAt(s, "-LYM", k)
    {
      SuffixIsNoMarker(p, d, "-RYB", k);
      SuffixIsNoMarker(p, d, "-LYM", k);
    }
  }

  /** The marker w does not start at k in p followed by the Tundra ending. */
  lemma SuffixIsNoMarker(p: string, d: char, w: string, k: int)
    requires '0' <= d <= '9'
    requires w == "-RYB" || w == "-LYM"
    requires !Contains(p, w)
    ensures !OccursAt(p + ['-', d, 'Y', 'X'], w, k)
  {
    var s := p + ['-', d, 'Y', 'X'];
    if 0 <= k && k + 4 <= |s| {
      var window := s[k..k + 4];
      if k + 4 <= |p| {
        assert window == p[k..k + 4];
        assert !OccursAt(p, w, k);
      } else if k < |p| {
        assert window[|p| - k] == '-';
        assert w[|p| - k] != '-';
      } else {
        assert window[1] == d;
      }
    }
  }

  /**
   * A line terminator before the ending defeats the regular expression: such
   * a serial is a standard dongle, not a Tundra one.
   */
  lemma LineBreakIsStandard(p: string, d: char)
    requires '0' <= d <= '9'
    requires !Contains(p, "-RYB") && !Contains(p, "-LYM")
    requires '\n' in p
    ensures DongleType(p + ['-', d, 'Y', 'X']) == "Standard Dongle"
  {
    var s := p + ['-', d, 'Y', 'X'];
    assert s[..|s| - 4] == p;
    forall k | 0 <= k <= |s|
      ensures !OccursAt(s, "-RYB", k) && !OccursAt(s, "-LYM", k)
    {
      SuffixIsNoMarker(p, d, "-RYB", k);
      SuffixIsNoMarker(p, d, "-LYM", k);
    }
  }

  /** A headset marker anywhere decides, whatever the ending. */
  lemma HeadsetFirst(s: string)
    requires Contains(s, "-RYB") || Contains(s, "-LYM")
    ensures DongleType(s) == "Headset"
  {
  }

  // ---------------------------------------------------------------------
  // Device entries
  // ---------------------------------------------------------------------

  /** `DeviceInfo`. */
  datatype DeviceInfo = DeviceInfo(
    index: int, conDongle: string, txName: string, deviceName: string,
    hand: string, dongleType: string, serialNumber: string, hasName: bool)

  /** A default-constructed `DeviceInfo`. */
  const DefaultDeviceInfo := DeviceInfo(-1, "", "", "", "", "n/a", "", false)

  /** `AddUnPairedDevice`: the entry for a dongle no device uses. */
  function AddUnPairedDevice(device: DeviceInfo, donSN: string): (d: DeviceInfo)
    ensures d.index == -1 && d.conDongle == donSN && d.dongleType == DongleType(donSN)
    ensures d.txName == "No Connection" && d.deviceName == "No Connection" && d.serialNumber == "n/a"
    ensures d.hand == device.hand && d.hasName == device.hasName
  {
    device.(conDongle := donSN, dongleType := DongleType(donSN), index := -1,
            txName := "No Connection", serialNumber := "n/a", deviceName := "No Connection")
  }

  /** An empty or single-space property counts as missing. */
  predicate IsBlank(s: string) {
    s == "" || s == " "
  }

  function RoleSuffix(role: int): string {
    if role == ROLE_LEFT_HAND then " (L)" else if role == ROLE_RIGHT_HAND then " (R)" else ""
  }

  function Dongle(rt: Runtime, i: int): string {
    rt.stringProperty(i, ConnectedWirelessDongleProp)
  }

  /** What `GatherDeviceInfo` makes of an entry, querying the runtime at the entry's index. */
  function GatheredInfo(rt: Runtime, device: DeviceInfo): DeviceInfo {
    var i := device.index;
    var dongle := Dongle(rt, i);
    var serial := rt.stringProperty(i, SerialNumberProp);
    var txName := if IsBlank(serial) then "n/a" else serial;
    var named := IsWearable(rt.deviceClass(i));
    var name :=
      if named then GetDeviceName(rt, i)
      else if Contains(txName, "LHB-") then "Lighthouse"
      else device.deviceName;
    device.(conDongle := if IsBlank(dongle) then "n/a" else dongle,
            dongleType := if IsBlank(dongle) then "n/a" else DongleType(dongle),
            txName := txName,
            hasName := named || device.hasName,
            deviceName := name + RoleSuffix(rt.roleHint(i)))
  }

  /** By how much `GatherDeviceInfo` raises the count of dongles in use. */
  function DongleIncrement(rt: Runtime, device: DeviceInfo): (n: nat)
    ensures n <= 1
  {
    if IsBlank(Dongle(rt, device.index)) then 0 else 1
  }

  /**
   * An entry's dongle type is "n/a" exactly when the device reports no
   * dongle, and otherwise its dongle and that dongle's type are recorded;
   * the transmitter name is the serial or "n/a"; a headset, controller or
   * tracker is named by `getDeviceName`; a left or right hand adds " (L)"
   * or " (R)" at the end. The index is kept.
   */
  lemma GatheredInfoMeaning(rt: Runtime, device: DeviceInfo)
    ensures var d := GatheredInfo(rt, device); var i := device.index; var dongle := Dongle(rt, i);
      d.index == i &&
      (d.dongleType == "n/a" <==> IsBlank(dongle)) &&
      (!IsBlank(dongle) ==> d.conDongle == dongle && d.dongleType == DongleType(dongle)) &&
      (DongleIncrement(rt, device) == 1 <==> !IsBlank(dongle)) &&
      (d.txName == "n/a" || d.txName == rt.stringProperty(i, SerialNumberProp)) &&
      (IsWearable(rt.deviceClass(i)) ==> d.hasName && d.deviceName == GetDeviceName(rt, i) + RoleSuffix(rt.roleHint(i))) &&
      (rt.roleHint(i) == ROLE_LEFT_HAND ==> |d.deviceName| >= 4 && d.deviceName[|d.deviceName| - 4..] == " (L)") &&
      (rt.roleHint(i) == ROLE_RIGHT_HAND ==> |d.deviceName| >= 4 && d.deviceName[|d.deviceName| - 4..] == " (R)")
  {
  }

  /** Some entry already uses dongle sn. */
  predicate Paired(list: seq<DeviceInfo>, sn: string) {
    exists k :: 0 <= k < |list| && list[k].conDongle == sn
  }

  /** The inner loop of `searchRXTX`: whether an entry uses dSN. */
  method IsPaired(list: seq<DeviceInfo>, dSN: string) returns (isPaired: bool)
    ensures isPaired <==> Paired(list, dSN)
  {
    isPaired := false;
    for k := 0 to |list|
      invariant !isPaired
      invariant forall j :: 0 <= j < k ==> list[j].conDongle != dSN
    {
      if list[k].conDongle == dSN {
        isPaired := true;
        break;
      }
    }
  }

  /** The list after the unpaired dongles among ss have been added, one at a time. */
  function AddUnpaired(list: seq<DeviceInfo>, ss: seq<string>): seq<DeviceInfo>
    decreases |ss|
  {
    if ss == [] then list
    else
      var prev := AddUnpaired(list, ss[..|ss| - 1]);
      var sn := ss[|ss| - 1];
      if Paired(prev, sn) then prev else prev + [AddUnPairedDevice(DefaultDeviceInfo, sn)]
  }

  /** Adding unpaired dongles keeps the entries there were. */
  lemma {:induction false} AddUnpairedKeeps(list: seq<DeviceInfo>, ss: seq<string>)
    ensures var r := AddUnpaired(list, ss);
      |list| <= |r| && forall k :: 0 <= k < |list| ==> r[k] == list[k]
    decreases |ss|
  {
    if ss != [] {
      AddUnpairedKeeps(list, ss[..|ss| - 1]);
    }
  }

  /** Afterwards every serial of ss is used by some entry. */
  lemma {:induction false} AddUnpairedCovers(list: seq<DeviceInfo>, ss: seq<string>)
    ensures forall j :: 0 <= j < |ss| ==> Paired(AddUnpaired(list, ss), ss[j])
    decreases |ss|
  {
    if ss != [] {
      var init := ss[..|ss| - 1];
      var prev := AddUnpaired(list, init);
      var r := AddUnpaired(list, ss);
      AddUnpairedCovers(list, init);
      forall j | 0 <= j < |ss|
        ensures Paired(r, ss[j])
      {
        if j < |ss| - 1 {
          assert ss[j] == init[j];
          var k :| 0 <= k < |prev| && prev[k].conDongle == ss[j];
          assert r[k] == prev[k];
        } else if !Paired(prev, ss[j]) {
          assert r[|prev|].conDongle == ss[j];
        }
      }
    }
  }

  /**
   * Each new entry is the unpaired entry of a serial in ss that no earlier
   * entry used, and no two new entries share a dongle, so a serial listed
   * twice is added once.
   */
  lemma {:induction false} AddUnpairedNew(list: seq<DeviceInfo>, ss: seq<string>)
    ensures var r := AddUnpaired(list, ss);
      (forall k :: |list| <= k < |r| ==>
         r[k] == AddUnPairedDevice(DefaultDeviceInfo, r[k].conDongle) &&
         r[k].conDongle in ss && !Paired(list, r[k].conDongle)) &&
      (forall j, k :: |list| <= j < k < |r| ==> r[j].conDongle != r[k].conDongle)
    decreases |ss|
  {
    if ss != [] {
      var init := ss[..|ss| - 1];
      var prev := AddUnpaired(list, init);
      var sn := ss[|ss| - 1];
      var r := AddUnpaired(list, ss);
      AddUnpairedNew(list, init);
      AddUnpairedKeeps(list, init);
      if !Paired(prev, sn) {
        forall k | |list| <= k < |prev|
          ensures r[k] == prev[k] && prev[k].conDongle in ss
        {
          assert prev[k].conDongle in init;
        }
      }
    }
  }

  // Which devices become entries.

  /** The entries `searchRXTX` builds for the devices ds, with each entry's index set. */
  function PairedEntries(rt: Runtime, ds: seq<int>): seq<DeviceInfo>
    decreases |ds|
  {
    if ds == [] then []
    else
      var prev := PairedEntries(rt, ds[..|ds| - 1]);
      var device := ds[|ds| - 1];
      if rt.deviceClass(device) == HMD then prev
      else prev + [GatheredInfo(rt, DefaultDeviceInfo.(index := device))]
  }

  /** The same entries as the source builds them: the index is never set. */
  function PairedEntriesAsWritten(rt: Runtime, ds: seq<int>): seq<DeviceInfo>
    decreases |ds|
  {
    if ds == [] then []
    else
      var prev := PairedEntriesAsWritten(rt, ds[..|ds| - 1]);
      var device := ds[|ds| - 1];
      if rt.deviceClass(device) == HMD then prev
      else prev + [GatheredInfo(rt, DefaultDeviceInfo)]
  }

  function PairedDongleCount(rt: Runtime, ds: seq<int>): nat
    decreases |ds|
  {
    if ds == [] then 0
    else
      var prev := PairedDongleCount(rt, ds[..|ds| - 1]);
      var device := ds[|ds| - 1];
      if rt.deviceClass(device) == HMD then prev
      else prev + DongleIncrement(rt, DefaultDeviceInfo.(index := device))
  }

  /** The last headset among ds, or -1. */
  function LastHmd(rt: Runtime, ds: seq<int>): (h: int)
    ensures h == -1 || (h in ds && rt.deviceClass(h) == HMD)
    decreases |ds|
  {
    if ds == [] then -1
    else if rt.deviceClass(ds[|ds| - 1]) == HMD then ds[|ds| - 1]
    else LastHmd(rt, ds[..|ds| - 1])
  }

  /** The devices of ds that are not headsets, in order. */
  function NonHmd(rt: Runtime, ds: seq<int>): (r: seq<int>)
    ensures forall x :: x in r <==> x in ds && rt.deviceClass(x) != HMD
    decreases |ds|
  {
    if ds == [] then []
    else
      var prev := NonHmd(rt, ds[..|ds| - 1]);
      assert forall x :: x in ds <==> x in ds[..|ds| - 1] || x == ds[|ds| - 1];
      if rt.deviceClass(ds[|ds| - 1]) == HMD then prev else prev + [ds[|ds| - 1]]
  }

  /** One entry per device that is not a headset, gathered at that device's index. */
  lemma {:induction false} PairedEntriesFollowDevices(rt: Runtime, ds: seq<int>)
    ensures var e := PairedEntries(rt, ds); var n := NonHmd(rt, ds);
      |e| == |n| && forall k :: 0 <= k < |e| ==> e[k] == GatheredInfo(rt, DefaultDeviceInfo.(index := n[k]))
    decreases |ds|
  {
    if ds != [] {
      PairedEntriesFollowDevices(rt, ds[..|ds| - 1]);
    }
  }

  /** As written, every entry is gathered at index -1: all entries are the same. */
  lemma {:induction false} AsWrittenEntriesIgnoreDevices(rt: Runtime, ds: seq<int>)
    ensures var e := PairedEntriesAsWritten(rt, ds);
      |e| == |NonHmd(rt, ds)| && forall k :: 0 <= k < |e| ==> e[k] == GatheredInfo(rt, DefaultDeviceInfo) && e[k].index == -1
    decreases |ds|
  {
    if ds != [] {
      AsWrittenEntriesIgnoreDevices(rt, ds[..|ds| - 1]);
    }
  }

  /**
   * A controller at index 1 with serial "LHR-1": as written its entry shows
   * what the runtime says about index -1 ("n/a" here), with the index set
   * it shows the serial.
   */
  lemma AsWrittenLosesSerial(rt: Runtime)
    requires rt.deviceClass(1) == Controller
    requires rt.stringProperty(1, SerialNumberProp) == "LHR-1" && rt.stringProperty(-1, SerialNumberProp) == ""
    ensures PairedEntriesAsWritten(rt, [1])[0].txName == "n/a"
    ensures PairedEntries(rt, [1])[0].txName == "LHR-1"
  {
    assert [1][..0] == [];
  }

  // ---------------------------------------------------------------------
  // Cached toggles
  // ---------------------------------------------------------------------

  /** The runtime settings the tab caches. */
  datatype Toggle =
    | PerformanceGraph | SystemButton | MultipleDriver | DoNotDisturb | NoFadeToGrid
    | CameraActive | CameraBounds | CameraCont | ControllerPower | NoHmd

  /** The section each toggle lives in. */
  function SectionOf(t: Toggle): OSW.Section {
    match t
    case PerformanceGraph => OSW.OtherSection("k_pch_Perf_Section")
    case SystemButton => OSW.SteamVRSection
    case MultipleDriver => OSW.SteamVRSection
    case DoNotDisturb => OSW.NotificationsSection
    case NoFadeToGrid => OSW.SteamVRSection
    case CameraActive => OSW.CameraSection
    case CameraBounds => OSW.CameraSection
    case CameraCont => OSW.CameraSection
    case ControllerPower => OSW.OtherSection("k_pch_Power_Section")
    case NoHmd => OSW.SteamVRSection
  }

  /** The key of each toggle, named by its header constant. */
  function KeyOf(t: Toggle): string {
    match t
    case PerformanceGraph => "k_pch_Perf_PerfGraphInHMD_Bool"
    case SystemButton => "k_pch_SteamVR_SendSystemButtonToAllApps_Bool"
    case MultipleDriver => "k_pch_SteamVR_ActivateMultipleDrivers_Bool"
    case DoNotDisturb => "k_pch_Notifications_DoNotDisturb_Bool"
    case NoFadeToGrid => "k_pch_SteamVR_DoNotFadeToGrid"
    case CameraActive => "k_pch_Camera_EnableCamera_Bool"
    case CameraBounds => "k_pch_Camera_EnableCameraForCollisionBounds_Bool"
    case CameraCont => "k_pch_Camera_ShowOnController_Bool"
    case ControllerPower => "k_pch_Power_AutoLaunchSteamVROnButtonPress"
    case NoHmd => "k_pch_SteamVR_RequireHmd_String"
  }

  /** A `...Changed` signal. */
  datatype Signal = ToggleChanged(toggle: Toggle, value: bool)

  class SteamVRTabController {
    var toggles: map<Toggle, bool>
    var emitted: seq<Signal>
    var deviceList: seq<DeviceInfo>
    var dongleCountCur: int
    var dongleCountMax: int
    var unparsedDongleString: string

    /** Every toggle has a cached value. */
    ghost predicate Valid()
      reads this
    {
      forall t: Toggle :: t in toggles
    }

    /** The member initialisers: every toggle off, no devices, no dongles. */
    constructor()
      ensures Valid() && forall t: Toggle :: !toggles[t]
      ensures emitted == [] && deviceList == [] && dongleCountCur == 0 && dongleCountMax == 0
      ensures unparsedDongleString == ""
    {
      toggles := map[
        PerformanceGraph := false, SystemButton := false, MultipleDriver := false, DoNotDisturb := false,
        NoFadeToGrid := false, CameraActive := false, CameraBounds := false, CameraCont := false,
        ControllerPower := false, NoHmd := false];
      emitted := [];
      deviceList := [];
      dongleCountCur := 0;
      dongleCountMax := 0;
      unparsedDongleString := "";
      new;
      forall t: Toggle
        ensures t in toggles && !toggles[t]
      {
        match t
        case PerformanceGraph =>
        case SystemButton =>
        case MultipleDriver =>
        case DoNotDisturb =>
        case NoFadeToGrid =>
        case CameraActive =>
        case CameraBounds =>
        case CameraCont =>
        case ControllerPower =>
        case NoHmd =>
      }
    }

    /** The getters: the runtime's value when it reads without error, else the cached one. */
    method GetToggle(wrapper: OSW.SettingsWrapper, t: Toggle, answer: bool, error: OSW.VRSettingsError)
      returns (value: bool)
      requires Valid()
      modifies wrapper
      ensures value == if OSW.Handled(error) == OSW.NoError then answer else toggles[t]
      ensures wrapper.calls == old(wrapper.calls) + [OSW.GetCall(SectionOf(t), KeyOf(t))]
      ensures wrapper.log == old(wrapper.log) + OSW.LinesOf(old(wrapper.unsetSettingErrorEnabled), KeyOf(t), error, "")
      ensures wrapper.unsetSettingErrorEnabled == OSW.FlagAfter(old(wrapper.unsetSettingErrorEnabled), error)
    {
      var err, v := wrapper.GetBool(SectionOf(t), KeyOf(t), "", answer, error);
      if err == OSW.NoError {
        return v;
      }
      return toggles[t];
    }

    /**
     * The setters: when the value differs from the cached one, cache it,
     * write it to the runtime and, if asked, signal it; otherwise nothing
     * happens, so setting the same value again changes nothing.
     */
    method SetToggle(wrapper: OSW.SettingsWrapper, t: Toggle, value: bool, notify: bool, error: OSW.VRSettingsError)
      requires Valid()
      modifies this, wrapper
      ensures Valid()
      ensures toggles == old(toggles)[t := value]
      ensures old(toggles[t]) == value ==>
        emitted == old(emitted) && wrapper.calls == old(wrapper.calls) && wrapper.log == old(wrapper.log) &&
        wrapper.unsetSettingErrorEnabled == old(wrapper.unsetSettingErrorEnabled)
      ensures old(toggles[t]) != value ==>
        emitted == old(emitted) + (if notify then [ToggleChanged(t, value)] else []) &&
        wrapper.calls == old(wrapper.calls) + [OSW.SetCall(SectionOf(t), KeyOf(t), OSW.BoolValue(value))] &&
        wrapper.log == old(wrapper.log) + OSW.LinesOf(old(wrapper.unsetSettingErrorEnabled), KeyOf(t), error, "") &&
        wrapper.unsetSettingErrorEnabled == OSW.FlagAfter(old(wrapper.unsetSettingErrorEnabled), error)
      ensures deviceList == old(deviceList) && dongleCountCur == old(dongleCountCur)
      ensures dongleCountMax == old(dongleCountMax) && unparsedDongleString == old(unparsedDongleString)
    {
      if toggles[t] != value {
        toggles := toggles[t := value];
        var _ := wrapper.Set(SectionOf(t), KeyOf(t), OSW.BoolValue(value), "", error);
        if notify {
          emitted := emitted + [ToggleChanged(t, value)];
        }
      } else {
        assert toggles == toggles[t := value];
      }
    }

    /** `GatherDeviceInfo`: fills the entry and counts its dongle. */
    method GatherDeviceInfo(rt: Runtime, device: DeviceInfo) returns (d: DeviceInfo)
      modifies this
      ensures d == GatheredInfo(rt, device)
      ensures dongleCountCur == old(dongleCountCur) + DongleIncrement(rt, device)
      ensures toggles == old(toggles) && emitted == old(emitted) && deviceList == old(deviceList)
      ensures dongleCountMax == old(dongleCountMax) && unparsedDongleString == old(unparsedDongleString)
    {
      d := device;
      var condev := GetStringTrackedProperty(rt, d.index, ConnectedWirelessDongleProp).1;
      if condev == "" || condev == " " {
        condev := "n/a";
        d := d.(dongleType := "n/a");
      } else {
        dongleCountCur := dongleCountCur + 1;
        d := d.(dongleType := DongleType(condev));
      }
      d := d.(conDongle := condev);
      var devicenumber := GetStringTrackedProperty(rt, d.index, SerialNumberProp).1;
      if devicenumber == "" || devicenumber == " " {
        devicenumber := "n/a";
      }
      d := d.(txName := devicenumber);
      var devClass := rt.deviceClass(d.index);
      if devClass == HMD || devClass == Controller || devClass == GenericTracker {
        d := d.(hasName := true, deviceName := GetDeviceName(rt, d.index));
      } else if Contains(d.txName, "LHB-") {
        d := d.(deviceName := "Lighthouse");
      }
      var role := rt.roleHint(d.index);
      if role == 1 {
        d := d.(deviceName := d.deviceName + " (L)");
      } else if role == 2 {
        d := d.(deviceName := d.deviceName + " (R)");
      }
    }

    /** The device loop of `searchRXTX`, with each device's index set on its entry. */
    method GatherPaired(rt: Runtime, indexList: seq<int>) returns (hmdIndex: int)
      modifies this
      ensures deviceList == PairedEntries(rt, indexList)
      ensures dongleCountCur == PairedDongleCount(rt, indexList)
      ensures hmdIndex == LastHmd(rt, indexList)
      ensures toggles == old(toggles) && emitted == old(emitted)
      ensures dongleCountMax == old(dongleCountMax) && unparsedDongleString == old(unparsedDongleString)
    {
      deviceList := [];
      hmdIndex := -1;
      dongleCountCur := 0;
      for i := 0 to |indexList|
        invariant deviceList == PairedEntries(rt, indexList[..i])
        invariant dongleCountCur == PairedDongleCount(rt, indexList[..i])
        invariant hmdIndex == LastHmd(rt, indexList[..i])
        invariant toggles == old(toggles) && emitted == old(emitted)
        invariant dongleCountMax == old(dongleCountMax) && unparsedDongleString == old(unparsedDongleString)
      {
        var device := indexList[i];
        assert indexList[..i + 1][..i] == indexList[..i];
        if rt.deviceClass(device) == HMD {
          hmdIndex := device;
        } else {
          var d := GatherDeviceInfo(rt, DefaultDeviceInfo.(index := device));
          deviceList := deviceList + [d];
        }
      }
      assert indexList[..|indexList|] == indexList;
    }

    /** The dongle loop of `searchRXTX`: an unpaired entry per unused serial. */
    method AddUnpairedDongles(dsnFullList: seq<string>)
      modifies this
      ensures deviceList == AddUnpaired(old(deviceList), dsnFullList)
      ensures toggles == old(toggles) && emitted == old(emitted) && dongleCountCur == old(dongleCountCur)
      ensures dongleCountMax == old(dongleCountMax) && unparsedDongleString == old(unparsedDongleString)
    {
      for j := 0 to |dsnFullList|
        invariant deviceList == AddUnpaired(old(deviceList), dsnFullList[..j])
        invariant toggles == old(toggles) && emitted == old(emitted) && dongleCountCur == old(dongleCountCur)
        invariant dongleCountMax == old(dongleCountMax) && unparsedDongleString == old(unparsedDongleString)
      {
        var dSN := dsnFullList[j];
        assert dsnFullList[..j + 1][..j] == dsnFullList[..j];
        var isPaired := IsPaired(deviceList, dSN);
        if !isPaired {
          deviceList := deviceList + [AddUnPairedDevice(DefaultDeviceInfo, dSN)];
        }
      }
      assert dsnFullList[..|dsnFullList|] == dsnFullList;
    }

    /**
     * `searchRXTX`, with each device's index set on its entry: one entry per
     * connected device that is not a headset; then, when a headset reports
     * dongles and there are fewer entries than dongles, an unpaired entry
     * for every listed dongle no entry uses.
     */
    method SearchRXTX(rt: Runtime)
      requires Valid()
      modifies this
      ensures Valid() && toggles == old(toggles) && emitted == old(emitted)
      ensures var ds := ConnectedDevices(rt, true);
        var paired := PairedEntries(rt, ds);
        var hmd := LastHmd(rt, ds);
        dongleCountCur == PairedDongleCount(rt, ds) &&
        if hmd == -1 then
          deviceList == paired &&
          dongleCountMax == old(dongleCountMax) && unparsedDongleString == old(unparsedDongleString)
        else
          var dl := rt.stringProperty(hmd, AllWirelessDongleDescriptionsProp);
          unparsedDongleString == dl && dongleCountMax == MaxDongleCount(dl) &&
          deviceList == if |paired| < MaxDongleCount(dl) then AddUnpaired(paired, DongleSerials(dl)) else paired
    {
      var indexList := GetAllConnectedDevices(rt, true);
      var hmdIndex := GatherPaired(rt, indexList);
      if hmdIndex != -1 {
        var dongleList := GetStringTrackedProperty(rt, hmdIndex, AllWirelessDongleDescriptionsProp).1;
        unparsedDongleString := dongleList;
        var count := CountDongles(dongleList);
        dongleCountMax := count;
        if |deviceList| < dongleCountMax {
          var dsnFullList := GetDongleSerialList(dongleList);
          AddUnpairedDongles(dsnFullList);
        }
      }
    }
  }
}
