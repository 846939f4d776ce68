/** The selection and labelling rules behind the device and tracking-system
    pickers (src/overlay/UserInterface.cpp). Widget rendering is not modelled:
    what the user does in a frame (the index picked in a combo box, the list
    entry clicked) is a parameter, and the fields of the calibration context the
    rules read are passed in as values. */
module UserInterface {
  import opened Wrappers
  import opened VRState
  import C = Calibration

  // ---------------------------------------------------------------------------
  // Names and labels

  /** The display name for devices under Valve's own tracking. */
  const SteamVRTracking: string := "SteamVR Tracking"

  /** The name shown for a tracking system: "lighthouse" and "aapvr" are shown as
      "SteamVR Tracking", every other name as it is. */
  function GetPrettyTrackingSystemName(value: string): (r: string)
    ensures value == "lighthouse" || value == "aapvr" ==> r == SteamVRTracking
    ensures value != "lighthouse" && value != "aapvr" ==> r == value
  {
    if value == "lighthouse" || value == "aapvr" then SteamVRTracking else value
  }

  /** Renaming twice is renaming once. */
  lemma PrettyNameIdempotent(value: string)
    ensures GetPrettyTrackingSystemName(GetPrettyTrackingSystemName(value)) == GetPrettyTrackingSystemName(value)
  {
  }

  /** Two different systems share a display name only when that name is
      "SteamVR Tracking". */
  lemma PrettyNameMergesOnlySteamVR(a: string, b: string)
    requires a != b && GetPrettyTrackingSystemName(a) == GetPrettyTrackingSystemName(b)
    ensures GetPrettyTrackingSystemName(a) == SteamVRTracking
  {
  }

  /** The display names of a list of systems, in the same order. */
  function PrettyNames(systems: seq<string>): (r: seq<string>)
    ensures |r| == |systems|
  {
    if systems == [] then []
    else PrettyNames(systems[..|systems| - 1]) + [GetPrettyTrackingSystemName(systems[|systems| - 1])]
  }

  /** Each combo entry is the display name of the system at its position. */
  lemma {:induction false} PrettyNamesPointwise(systems: seq<string>)
    ensures forall i :: 0 <= i < |systems| ==> PrettyNames(systems)[i] == GetPrettyTrackingSystemName(systems[i])
    decreases |systems|
  {
    if systems != [] {
      var init := systems[..|systems| - 1];
      PrettyNamesPointwise(init);
      assert forall i :: 0 <= i < |init| ==> systems[i] == init[i];
    }
  }

  const Separator: string := " | "

  /** `buffer` with `suffix` added, joined by " | " unless `buffer` is empty. */
  function AppendSeparated(buffer: string, suffix: string): (r: string)
    ensures buffer == [] ==> r == suffix
    ensures buffer != [] ==> r == buffer + Separator + suffix
  {
    if buffer != [] then buffer + Separator + suffix else buffer + suffix
  }

  /** The buffer survives at the front and the suffix at the back. */
  lemma AppendSeparatedKeepsParts(buffer: string, suffix: string)
    ensures var r := AppendSeparated(buffer, suffix);
      && |r| == |buffer| + |suffix| + (if buffer == [] then 0 else |Separator|)
      && r[..|buffer|] == buffer
      && r[|r| - |suffix|..] == suffix
  {
    var r := AppendSeparated(buffer, suffix);
    if buffer != [] {
      assert r == buffer + (Separator + suffix);
    }
  }

  /** The label of a live device: model and serial joined by " | "; a device
      with an empty model is labelled by its serial alone. */
  function LabelString(device: VRDevice): (text: string)
    ensures device.model == [] ==> text == device.serial
    ensures device.model != [] ==> text == device.model + " | " + device.serial
  {
    AppendSeparated(AppendSeparated("", device.model), device.serial)
  }

  /** The label of a remembered device. The buffer already holds "< " when the
      serial is appended, so the separator is always there. */
  function StandbyLabelString(device: C.StandbyDevice): (text: string)
    ensures text == "< " + device.model + " | " + device.serial + " >"
  {
    AppendSeparated("< " + device.model, device.serial) + " >"
  }

  // ---------------------------------------------------------------------------
  // Searching lists

  /** The first position of `x` in `s` (`std::find`), or -1 when absent. */
  function FirstIndexOf(s: seq<string>, x: string): (k: int)
    ensures -1 <= k < |s|
    ensures k == -1 <==> x !in s
    ensures k >= 0 ==> s[k] == x && forall j :: 0 <= j < k ==> s[j] != x
  {
    if s == [] then -1
    else if s[0] == x then 0
    else
      var k := FirstIndexOf(s[1..], x);
      if k == -1 then -1 else k + 1
  }

  /** The last position of `x` in `s`, or -1 when absent: what a loop that
      records every match ends with. */
  function LastIndexOf(s: seq<string>, x: string): (k: int)
    ensures -1 <= k < |s|
    ensures k == -1 <==> x !in s
    ensures k >= 0 ==> s[k] == x && forall j :: k < j < |s| ==> s[j] != x
  {
    if s == [] then -1
    else if s[|s| - 1] == x then |s| - 1
    else LastIndexOf(s[..|s| - 1], x)
  }

  /** The first position holding neither `a` nor `b`, or -1 when there is none. */
  function FirstIndexOfNeither(s: seq<string>, a: string, b: string): (k: int)
    ensures -1 <= k < |s|
    ensures k >= 0 ==> s[k] != a && s[k] != b && forall j :: 0 <= j < k ==> s[j] == a || s[j] == b
    ensures k == -1 ==> forall j :: 0 <= j < |s| ==> s[j] == a || s[j] == b
  {
    if s == [] then -1
    else
      var k := FirstIndexOfNeither(s[..|s| - 1], a, b);
      if k != -1 then k
      else if s[|s| - 1] != a && s[|s| - 1] != b then |s| - 1
      else -1
  }

  /** `s` without the entries equal to `x`, the others in their order. */
  function Without(s: seq<string>, x: string): (r: seq<string>)
    ensures |r| <= |s|
    ensures x !in r
  {
    if s == [] then []
    else Without(s[..|s| - 1], x) + (if s[|s| - 1] == x then [] else [s[|s| - 1]])
  }

  /** Exactly the entries other than `x` remain, and nothing is removed when `x`
      is absent. */
  lemma {:induction false} WithoutMembers(s: seq<string>, x: string)
    ensures forall y :: y in Without(s, x) <==> y in s && y != x
    ensures x !in s ==> Without(s, x) == s
    decreases |s|
  {
    if s != [] {
      var init := s[..|s| - 1];
      WithoutMembers(init, x);
      assert s == init + [s[|s| - 1]];
    }
  }

  /** Dropping entries from a longer list extends the result for a prefix. */
  lemma {:induction false} WithoutOfPrefix(s: seq<string>, x: string, i: nat)
    requires i <= |s|
    ensures |Without(s[..i], x)| <= |Without(s, x)|
    ensures Without(s, x)[..|Without(s[..i], x)|] == Without(s[..i], x)
    decreases |s|
  {
    if i < |s| {
      var init := s[..|s| - 1];
      assert init[..i] == s[..i];
      WithoutOfPrefix(init, x, i);
    } else {
      assert s[..i] == s;
    }
  }

  /** `Without` drops exactly the occurrences of `x`. */
  lemma {:induction false} WithoutCount(s: seq<string>, x: string)
    ensures |Without(s, x)| == |s| - multiset(s)[x]
    decreases |s|
  {
    if s != [] {
      var init := s[..|s| - 1];
      WithoutCount(init, x);
      assert s == init + [s[|s| - 1]];
      assert multiset(s) == multiset(init) + multiset([s[|s| - 1]]);
    }
  }

  /** The candidates keep the enumeration order: an entry other than `x` sits
      at the position given by how many such entries precede it, and exactly
      the occurrences of `x` are dropped. */
  lemma WithoutKeepsOrder(s: seq<string>, x: string)
    ensures forall i :: 0 <= i < |s| && s[i] != x ==>
      |Without(s[..i], x)| < |Without(s, x)| && Without(s, x)[|Without(s[..i], x)|] == s[i]
    ensures |Without(s, x)| == |s| - multiset(s)[x]
  {
    forall i | 0 <= i < |s| && s[i] != x
      ensures |Without(s[..i], x)| < |Without(s, x)| && Without(s, x)[|Without(s[..i], x)|] == s[i]
    {
      WithoutOfPrefix(s, x, i + 1);
      assert s[..i + 1] == s[..i] + [s[i]];
      assert (s[..i] + [s[i]])[..i] == s[..i];
    }
    WithoutCount(s, x);
  }

  /** `std::find` over a list of names. */
  method Find(s: seq<string>, x: string) returns (k: int)
    ensures k == FirstIndexOf(s, x)
  {
    k := 0;
    while k < |s| && s[k] != x
      invariant 0 <= k <= |s|
      invariant forall j :: 0 <= j < k ==> s[j] != x
    {
      k := k + 1;
    }
    if k == |s| {
      k := -1;
    }
  }

  // ---------------------------------------------------------------------------
  // Device selection

  /** Whether `devices` holds a device of `system` with the given id. */
  predicate HasDevice(devices: seq<VRDevice>, system: string, id: int) {
    exists i :: 0 <= i < |devices| && devices[i].trackingSystem == system && devices[i].id == id
  }

  /** The three searches the device picker makes. */
  datatype Criterion = OfSystem(system: string) | LeftHandOf(system: string) | WithId(id: int)

  predicate Matches(device: VRDevice, c: Criterion) {
    match c
    case OfSystem(system) => device.trackingSystem == system
    case LeftHandOf(system) => device.trackingSystem == system && device.controllerRole == LeftHand
    case WithId(id) => device.id == id
  }

  /** The position of the first device meeting `c`, if any. */
  function FirstMatch(devices: seq<VRDevice>, c: Criterion): (r: Option<nat>)
    ensures r.Some? ==> r.value < |devices| && Matches(devices[r.value], c)
    ensures r.Some? ==> forall j :: 0 <= j < r.value ==> !Matches(devices[j], c)
    ensures r.None? ==> forall j :: 0 <= j < |devices| ==> !Matches(devices[j], c)
  {
    if devices == [] then None
    else if Matches(devices[0], c) then Some(0)
    else
      match FirstMatch(devices[1..], c)
      case None => None
      case Some(k) => Some(k + 1)
  }

  /** The id of the device at a found position, or -1. */
  function IdAt(devices: seq<VRDevice>, position: Option<nat>): int {
    if position.Some? && position.value < |devices| then devices[position.value].id else -1
  }

  /** A remembered selection that names no device of the system becomes -1. */
  function DropStale(devices: seq<VRDevice>, selected: int, system: string): int {
    if selected != -1 && !HasDevice(devices, system, selected) then -1 else selected
  }

  /** The default device of a system: its first left-hand controller, else its
      first device, else -1. */
  function DefaultDevice(devices: seq<VRDevice>, system: string): int {
    var left := IdAt(devices, FirstMatch(devices, LeftHandOf(system)));
    if left != -1 then left else IdAt(devices, FirstMatch(devices, OfSystem(system)))
  }

  /** The selection at the end of `BuildDeviceSelection`: stale ids are dropped,
      an empty selection gets the default device unless a continuous session is
      on standby, and a click on a device of the system selects it. */
  function FinalSelection(devices: seq<VRDevice>, initialSelected: int, system: string,
                          calState: C.CalibrationState, clicked: Option<nat>): int
  {
    var kept := DropStale(devices, initialSelected, system);
    var defaulted := if kept == -1 && calState != C.ContinuousStandby then DefaultDevice(devices, system) else kept;
    if clicked.Some? && clicked.value < |devices| && devices[clicked.value].trackingSystem == system
    then devices[clicked.value].id
    else defaulted
  }

  /** The remembered id and standby identity of one picker. */
  datatype Selection = Selection(selected: int, standbyDevice: C.StandbyDevice)

  /** A changed selection is written back, with the (system, model, serial) of
      the first device carrying that id, only if such a device exists. */
  function WrittenBack(devices: seq<VRDevice>, initialSelected: int, system: string,
                       standbyDevice: C.StandbyDevice, selected: int): Selection
  {
    if selected == initialSelected then Selection(initialSelected, standbyDevice)
    else
      match FirstMatch(devices, WithId(selected))
      case None => Selection(initialSelected, standbyDevice)
      case Some(k) => Selection(selected, C.StandbyDevice(system, devices[k].model, devices[k].serial))
  }

  /** The first loop of `BuildDeviceSelection`: a selection that names no
      device of the system is dropped to -1. */
  method DropStaleSelection(devices: seq<VRDevice>, initialSelected: int, system: string)
    returns (selected: int)
    ensures selected == DropStale(devices, initialSelected, system)
  {
    selected := initialSelected;
    if selected != -1 {
      var matched := false;
      var i := 0;
      while i < |devices|
        invariant 0 <= i <= |devices|
        invariant !matched
        invariant forall j :: 0 <= j < i ==> !(devices[j].trackingSystem == system && devices[j].id == selected)
      {
        if devices[i].trackingSystem == system && devices[i].id == selected {
          matched := true;
          break;
        }
        i := i + 1;
      }
      if !matched {
        // The device is no longer present.
        selected := -1;
      }
    }
  }

  /** The default-device loops of `BuildDeviceSelection`: the first left-hand
      controller of the system, else the first device of the system, else -1. */
  method ChooseDefaultDevice(devices: seq<VRDevice>, system: string) returns (selected: int)
    ensures selected == DefaultDevice(devices, system)
  {
    selected := -1;
    var i := 0;
    while i < |devices|
      invariant 0 <= i <= |devices|
      invariant selected == -1
      invariant forall j :: 0 <= j < i ==> !Matches(devices[j], LeftHandOf(system))
    {
      if devices[i].trackingSystem == system && devices[i].controllerRole == LeftHand {
        selected := devices[i].id;
        break;
      }
      i := i + 1;
    }
    assert selected == IdAt(devices, FirstMatch(devices, LeftHandOf(system)));

    if selected == -1 {
      i := 0;
      while i < |devices|
        invariant 0 <= i <= |devices|
        invariant selected == -1
        invariant forall j :: 0 <= j < i ==> !Matches(devices[j], OfSystem(system))
      {
        if devices[i].trackingSystem == system {
          selected := devices[i].id;
          break;
        }
        i := i + 1;
      }
      assert selected == IdAt(devices, FirstMatch(devices, OfSystem(system)));
    }
  }

  /** The write-back at the end of `BuildDeviceSelection` (`std::find_if` on the id). */
  method WriteBackSelection(devices: seq<VRDevice>, initialSelected: int, system: string,
                            standbyDevice: C.StandbyDevice, selected: int)
    returns (newSelected: int, newStandbyDevice: C.StandbyDevice)
    ensures Selection(newSelected, newStandbyDevice) == WrittenBack(devices, initialSelected, system, standbyDevice, selected)
  {
    newSelected, newStandbyDevice := initialSelected, standbyDevice;
    if selected != initialSelected {
      var k := 0;
      while k < |devices| && devices[k].id != selected
        invariant 0 <= k <= |devices|
        invariant forall j :: 0 <= j < k ==> !Matches(devices[j], WithId(selected))
      {
        k := k + 1;
      }
      if k == |devices| {
        return;
      }
      assert FirstMatch(devices, WithId(selected)) == Some(k) by {
        assert Matches(devices[k], WithId(selected));
      }
      newSelected := selected;
      newStandbyDevice := C.StandbyDevice(system, devices[k].model, devices[k].serial);
    }
  }

  /** Whether a device belongs to the system and reports the remembered model and serial. */
  predicate IsStandbyDevice(device: VRDevice, system: string, standbyDevice: C.StandbyDevice) {
    device.trackingSystem == system && device.model == standbyDevice.model && device.serial == standbyDevice.serial
  }

  /** Whether the remembered device is among the enumerated devices. */
  predicate StandbyDevicePresent(devices: seq<VRDevice>, system: string, standbyDevice: C.StandbyDevice) {
    exists i :: 0 <= i < |devices| && IsStandbyDevice(devices[i], system, standbyDevice)
  }

  /** The placeholder entry a picker on standby shows for its remembered device:
      its standby label, unless a device of the system with that model and
      serial is present. */
  method StandbyPlaceholder(devices: seq<VRDevice>, system: string, standbyDevice: C.StandbyDevice)
    returns (entry: Option<string>)
    ensures entry.None? <==> StandbyDevicePresent(devices, system, standbyDevice)
    ensures entry.Some? ==> entry.value == StandbyLabelString(standbyDevice)
  {
    var present := false;
    var i := 0;
    while i < |devices|
      invariant 0 <= i <= |devices|
      invariant !present
      invariant forall j :: 0 <= j < i ==> !IsStandbyDevice(devices[j], system, standbyDevice)
    {
      if IsStandbyDevice(devices[i], system, standbyDevice) {
        present := true;
        break;
      }
      i := i + 1;
    }
    entry := if present then None else Some(StandbyLabelString(standbyDevice));
  }

  /** The labels of the devices of a system, in enumeration order. */
  function DeviceLabels(devices: seq<VRDevice>, system: string): (labels: seq<string>)
    ensures |labels| <= |devices|
  {
    if devices == [] then []
    else
      var last := devices[|devices| - 1];
      DeviceLabels(devices[..|devices| - 1], system) + (if last.trackingSystem == system then [LabelString(last)] else [])
  }

  /** The positions of the devices of a system among the first `n` devices. */
  ghost function SystemPositions(devices: seq<VRDevice>, system: string, n: nat): set<nat>
    requires n <= |devices|
  {
    set i: nat | i < n && devices[i].trackingSystem == system
  }

  /** Extending the prefix by one device adds its position exactly when it belongs to the system. */
  lemma SystemPositionsStep(devices: seq<VRDevice>, system: string, n: nat)
    requires n < |devices|
    ensures SystemPositions(devices, system, n + 1)
         == SystemPositions(devices, system, n) + (if devices[n].trackingSystem == system then {n} else {})
  {
  }

  /** Positions depend only on the prefix they range over. */
  lemma SystemPositionsOfPrefix(devices: seq<VRDevice>, system: string, n: nat)
    requires n <= |devices|
    ensures SystemPositions(devices[..n], system, n) == SystemPositions(devices, system, n)
  {
  }

  /** Every device of the system gets exactly one entry, and no other device does. */
  lemma {:induction false} DeviceLabelsCountSystemDevices(devices: seq<VRDevice>, system: string)
    ensures |DeviceLabels(devices, system)| == |SystemPositions(devices, system, |devices|)|
    decreases |devices|
  {
    if devices != [] {
      var n := |devices| - 1;
      DeviceLabelsCountSystemDevices(devices[..n], system);
      SystemPositionsOfPrefix(devices, system, n);
      SystemPositionsStep(devices, system, n);
      assert n !in SystemPositions(devices, system, n);
    }
  }

  /** The selectable entries of the device list (`LabelString` of each device of the system). */
  method ListDeviceLabels(devices: seq<VRDevice>, system: string) returns (labels: seq<string>)
    ensures labels == DeviceLabels(devices, system)
  {
    labels := [];
    for i := 0 to |devices|
      invariant labels == DeviceLabels(devices[..i], system)
    {
      assert devices[..i + 1][..i] == devices[..i];
      if devices[i].trackingSystem == system {
        labels := labels + [LabelString(devices[i])];
      }
    }
    assert devices[..|devices|] == devices;
  }

  /** The entries a picker shows: on standby with nothing selected, the
      placeholder for a remembered device that is absent, then one entry per
      device of the system. */
  function PickerEntries(devices: seq<VRDevice>, initialSelected: int, system: string,
                         standbyDevice: C.StandbyDevice, calState: C.CalibrationState): seq<string>
  {
    var kept := DropStale(devices, initialSelected, system);
    var placeholder := if kept == -1 && calState == C.ContinuousStandby && !StandbyDevicePresent(devices, system, standbyDevice)
                       then [StandbyLabelString(standbyDevice)] else [];
    placeholder + DeviceLabels(devices, system)
  }

  /** One device picker: resolves the selection for `system` and returns the
      remembered id and standby identity after the frame. */
  method BuildDeviceSelection(state: VRState, initialSelected: int, system: string,
                              standbyDevice: C.StandbyDevice, calState: C.CalibrationState,
                              clicked: Option<nat>)
    returns (newSelected: int, newStandbyDevice: C.StandbyDevice, entries: seq<string>)
    ensures Selection(newSelected, newStandbyDevice)
         == WrittenBack(state.devices, initialSelected, system, standbyDevice,
                        FinalSelection(state.devices, initialSelected, system, calState, clicked))
    ensures entries == PickerEntries(state.devices, initialSelected, system, standbyDevice, calState)
  {
    var devices := state.devices;
    var selected := DropStaleSelection(devices, initialSelected, system);

    var standby := calState == C.ContinuousStandby;
    if selected == -1 && !standby {
      selected := ChooseDefaultDevice(devices, system);
    }

    entries := [];
    if selected == -1 && standby {
      var placeholder := StandbyPlaceholder(devices, system, standbyDevice);
      if placeholder.Some? {
        entries := [placeholder.value];
      }
    }
    var labels := ListDeviceLabels(devices, system);
    entries := entries + labels;

    if clicked.Some? && clicked.value < |devices| && devices[clicked.value].trackingSystem == system {
      selected := devices[clicked.value].id;
    }

    newSelected, newStandbyDevice := WriteBackSelection(devices, initialSelected, system, standbyDevice, selected);
  }

  /** A resolved selection names a device of the system, or is -1. */
  lemma FinalSelectionBelongsToSystem(devices: seq<VRDevice>, initialSelected: int, system: string,
                                      calState: C.CalibrationState, clicked: Option<nat>)
    ensures var s := FinalSelection(devices, initialSelected, system, calState, clicked);
      s == -1 || HasDevice(devices, system, s)
  {
    var left := FirstMatch(devices, LeftHandOf(system));
    var first := FirstMatch(devices, OfSystem(system));
    if left.Some? {
      assert devices[left.value].trackingSystem == system;
    }
    if first.Some? {
      assert devices[first.value].trackingSystem == system;
    }
  }

  /** Without a click, a selection that still names a device of the system is kept. */
  lemma PresentSelectionKept(devices: seq<VRDevice>, initialSelected: int, system: string,
                             calState: C.CalibrationState)
    requires initialSelected != -1 && HasDevice(devices, system, initialSelected)
    ensures FinalSelection(devices, initialSelected, system, calState, None) == initialSelected
  {
  }

  /** On standby no default is chosen: without a click, a stale selection ends as -1. */
  lemma StandbyChoosesNoDefault(devices: seq<VRDevice>, initialSelected: int, system: string)
    requires !HasDevice(devices, system, initialSelected)
    ensures FinalSelection(devices, initialSelected, system, C.ContinuousStandby, None) == -1
  {
  }

  /** Outside standby an empty or stale selection falls to the first left-hand
      controller of the system when there is one with a real id. */
  lemma DefaultPrefersLeftHand(devices: seq<VRDevice>, initialSelected: int, system: string,
                               calState: C.CalibrationState, i: nat)
    requires calState != C.ContinuousStandby
    requires !HasDevice(devices, system, initialSelected)
    requires i < |devices| && devices[i].trackingSystem == system && devices[i].controllerRole == LeftHand
    requires devices[i].id != -1
    requires forall j :: 0 <= j < i ==> !(devices[j].trackingSystem == system && devices[j].controllerRole == LeftHand)
    ensures FinalSelection(devices, initialSelected, system, calState, None) == devices[i].id
  {
    var left := FirstMatch(devices, LeftHandOf(system));
    assert Matches(devices[i], LeftHandOf(system));
    assert left == Some(i);
  }

  /** With no left-hand controller in the system the default is its first device. */
  lemma DefaultFallsBackToFirstDevice(devices: seq<VRDevice>, initialSelected: int, system: string,
                                      calState: C.CalibrationState, i: nat)
    requires calState != C.ContinuousStandby
    requires !HasDevice(devices, system, initialSelected)
    requires forall j :: 0 <= j < |devices| ==> !(devices[j].trackingSystem == system && devices[j].controllerRole == LeftHand)
    requires i < |devices| && devices[i].trackingSystem == system
    requires forall j :: 0 <= j < i ==> devices[j].trackingSystem != system
    ensures FinalSelection(devices, initialSelected, system, calState, None) == devices[i].id
  {
    assert FirstMatch(devices, LeftHandOf(system)).None?;
    assert Matches(devices[i], OfSystem(system));
    assert FirstMatch(devices, OfSystem(system)) == Some(i);
  }

  /** What is written back: an unchanged selection, or a new id together with
      the identity of a device that carries it. The standby identity changes only
      together with the id. */
  lemma WrittenBackRecordsDevice(devices: seq<VRDevice>, initialSelected: int, system: string,
                                 standbyDevice: C.StandbyDevice, selected: int)
    ensures var w := WrittenBack(devices, initialSelected, system, standbyDevice, selected);
      && (w.selected == initialSelected ==> w.standbyDevice == standbyDevice)
      && (w.selected != initialSelected ==>
            w.selected == selected
            && exists k :: 0 <= k < |devices| && devices[k].id == selected
                 && w.standbyDevice == C.StandbyDevice(system, devices[k].model, devices[k].serial))
      && (selected != initialSelected && (exists k :: 0 <= k < |devices| && devices[k].id == selected) ==>
            w.selected == selected)
  {
    var found := FirstMatch(devices, WithId(selected));
    if selected != initialSelected && found.None? {
      assert forall k :: 0 <= k < |devices| ==> !Matches(devices[k], WithId(selected));
    }
  }

  /** Both pickers of the main window, writing back into the context's
      reference and target fields. */
  method BuildDeviceSelections(state: VRState, ctx: C.CalibrationContext,
                               referenceClick: Option<nat>, targetClick: Option<nat>)
    returns (referenceEntries: seq<string>, targetEntries: seq<string>)
    modifies ctx`referenceID, ctx`referenceStandby, ctx`targetID, ctx`targetStandby
    ensures Selection(ctx.referenceID, ctx.referenceStandby)
         == WrittenBack(state.devices, old(ctx.referenceID), ctx.referenceTrackingSystem, old(ctx.referenceStandby),
                        FinalSelection(state.devices, old(ctx.referenceID), ctx.referenceTrackingSystem, ctx.state, referenceClick))
    ensures Selection(ctx.targetID, ctx.targetStandby)
         == WrittenBack(state.devices, old(ctx.targetID), ctx.targetTrackingSystem, old(ctx.targetStandby),
                        FinalSelection(state.devices, old(ctx.targetID), ctx.targetTrackingSystem, ctx.state, targetClick))
    ensures referenceEntries == PickerEntries(state.devices, old(ctx.referenceID), ctx.referenceTrackingSystem,
                                              old(ctx.referenceStandby), ctx.state)
    ensures targetEntries == PickerEntries(state.devices, old(ctx.targetID), ctx.targetTrackingSystem,
                                           old(ctx.targetStandby), ctx.state)
  {
    ctx.referenceID, ctx.referenceStandby, referenceEntries :=
      BuildDeviceSelection(state, ctx.referenceID, ctx.referenceTrackingSystem, ctx.referenceStandby, ctx.state, referenceClick);
    ctx.targetID, ctx.targetStandby, targetEntries :=
      BuildDeviceSelection(state, ctx.targetID, ctx.targetTrackingSystem, ctx.targetStandby, ctx.state, targetClick);
  }

  // ---------------------------------------------------------------------------
  // Tracking-system selection

  /** The reference and target tracking-system names of the context. */
  datatype TrackingSystems = TrackingSystems(reference: string, target: string)

  /** The target is unset or differs from the reference. */
  predicate Distinct(t: TrackingSystems) {
    t.target == "" || t.target != t.reference
  }

  /** The reference combo's index before the user acts: the configured system's
      (last) position; with no system configured, the remembered standby system
      on standby, otherwise the first system that is neither reference nor target. */
  function InitialReferenceIndex(systems: seq<string>, calState: C.CalibrationState,
                                 current: TrackingSystems, referenceStandbySystem: string): (k: int)
    ensures -1 <= k < |systems|
  {
    var k := LastIndexOf(systems, current.reference);
    if k == -1 && current.reference == "" then
      if calState == C.ContinuousStandby then FirstIndexOf(systems, referenceStandbySystem)
      else FirstIndexOfNeither(systems, current.reference, current.target)
    else k
  }

  /** The reference after its combo: the entry at the chosen index when that is a
      valid position, clearing a target equal to it. */
  function ChooseReference(systems: seq<string>, current: TrackingSystems, index: int): TrackingSystems {
    if index != -1 && 0 <= index < |systems| then
      TrackingSystems(systems[index], if systems[index] == current.target then "" else current.target)
    else current
  }

  /** The target combo's index before the user acts. With no target, the
      remembered standby system's position in the full list on standby, else 0;
      otherwise the target's (last) position among the candidates. */
  function InitialTargetIndex(systems: seq<string>, calState: C.CalibrationState,
                              current: TrackingSystems, targetStandbySystem: string): int
  {
    if current.target == "" then
      if calState == C.ContinuousStandby then FirstIndexOf(systems, targetStandbySystem) else 0
    else LastIndexOf(Without(systems, current.reference), current.target)
  }

  /** The target after its combo: the candidate at the chosen index when valid. */
  function ChooseTarget(candidates: seq<string>, current: TrackingSystems, index: int): TrackingSystems {
    if index != -1 && 0 <= index < |candidates| then current.(target := candidates[index]) else current
  }

  /** The reference combo's index after the user acts. */
  function ReferenceIndex(systems: seq<string>, calState: C.CalibrationState, current: TrackingSystems,
                          referenceStandbySystem: string, referencePick: Option<nat>): int
  {
    if referencePick.Some? then referencePick.value
    else InitialReferenceIndex(systems, calState, current, referenceStandbySystem)
  }

  /** The target combo's index after the user acts. */
  function TargetIndex(systems: seq<string>, calState: C.CalibrationState, afterReference: TrackingSystems,
                       targetStandbySystem: string, targetPick: Option<nat>): int
  {
    if targetPick.Some? then targetPick.value
    else InitialTargetIndex(systems, calState, afterReference, targetStandbySystem)
  }

  /** The context's tracking systems after `BuildSystemSelection`. */
  function SystemSelection(systems: seq<string>, calState: C.CalibrationState, current: TrackingSystems,
                           referenceStandbySystem: string, targetStandbySystem: string,
                           referencePick: Option<nat>, targetPick: Option<nat>): TrackingSystems
  {
    if systems == [] then current
    else
      var afterReference := ChooseReference(systems, current,
                              ReferenceIndex(systems, calState, current, referenceStandbySystem, referencePick));
      ChooseTarget(Without(systems, afterReference.reference), afterReference,
                   TargetIndex(systems, calState, afterReference, targetStandbySystem, targetPick))
  }

  // One-entry extensions of the list functions, for the loops that build lists.

  lemma PrettyNamesAppend(s: seq<string>, x: string)
    ensures PrettyNames(s + [x]) == PrettyNames(s) + [GetPrettyTrackingSystemName(x)]
  {
    assert (s + [x])[..|s|] == s;
  }

  lemma LastIndexOfAppend(s: seq<string>, x: string, y: string)
    ensures LastIndexOf(s + [x], y) == if x == y then |s| else LastIndexOf(s, y)
  {
    assert (s + [x])[..|s|] == s;
  }

  lemma FirstIndexOfNeitherAppend(s: seq<string>, x: string, a: string, b: string)
    ensures FirstIndexOfNeither(s + [x], a, b)
         == if FirstIndexOfNeither(s, a, b) != -1 then FirstIndexOfNeither(s, a, b)
            else if x != a && x != b then |s| else -1
  {
    assert (s + [x])[..|s|] == s;
  }

  lemma WithoutAppend(s: seq<string>, x: string, r: string)
    ensures Without(s + [x], r) == Without(s, r) + (if x == r then [] else [x])
  {
    assert (s + [x])[..|s|] == s;
  }

  /** The first loop of `BuildSystemSelection`: the reference combo's entries
      and display names, the (last) position of the configured reference, and the
      first position holding neither the reference nor the target. */
  method ScanReferenceSystems(systems: seq<string>, current: TrackingSystems)
    returns (referenceSystems: seq<string>, referenceLabels: seq<string>,
             currentReferenceSystem: int, firstReferenceSystemNotTargetSystem: int)
    ensures referenceSystems == systems
    ensures referenceLabels == PrettyNames(systems)
    ensures currentReferenceSystem == LastIndexOf(systems, current.reference)
    ensures firstReferenceSystemNotTargetSystem == FirstIndexOfNeither(systems, current.reference, current.target)
  {
    currentReferenceSystem, firstReferenceSystemNotTargetSystem := -1, -1;
    referenceSystems, referenceLabels := [], [];
    for i := 0 to |systems|
      invariant referenceSystems == systems[..i]
      invariant referenceLabels == PrettyNames(systems[..i])
      invariant currentReferenceSystem == LastIndexOf(systems[..i], current.reference)
      invariant firstReferenceSystemNotTargetSystem == FirstIndexOfNeither(systems[..i], current.reference, current.target)
    {
      var str := systems[i];
      assert systems[..i + 1] == systems[..i] + [str];
      PrettyNamesAppend(systems[..i], str);
      LastIndexOfAppend(systems[..i], str, current.reference);
      FirstIndexOfNeitherAppend(systems[..i], str, current.reference, current.target);
      assert |referenceSystems| == i;
      if str == current.reference {
        currentReferenceSystem := |referenceSystems|;
      } else if firstReferenceSystemNotTargetSystem == -1 && str != current.target {
        firstReferenceSystemNotTargetSystem := |referenceSystems|;
      }
      referenceSystems := referenceSystems + [str];
      referenceLabels := referenceLabels + [GetPrettyTrackingSystemName(str)];
    }
    assert systems[..|systems|] == systems;
  }

  /** The second loop of `BuildSystemSelection`: the target combo's entries (every
      system but the reference) and display names; the index moves to the
      target's (last) position among them when a target is set. */
  method CollectTargetSystems(systems: seq<string>, reference: string, target: string, preset: int)
    returns (targetSystems: seq<string>, targetLabels: seq<string>, currentTargetSystem: int)
    ensures targetSystems == Without(systems, reference)
    ensures targetLabels == PrettyNames(targetSystems)
    ensures currentTargetSystem == if target != "" && LastIndexOf(targetSystems, target) != -1
                                   then LastIndexOf(targetSystems, target) else preset
    ensures target != "" && preset == -1 ==> currentTargetSystem == LastIndexOf(targetSystems, target)
  {
    currentTargetSystem := preset;
    targetSystems, targetLabels := [], [];
    for i := 0 to |systems|
      invariant targetSystems == Without(systems[..i], reference)
      invariant targetLabels == PrettyNames(targetSystems)
      invariant currentTargetSystem == if target != "" && LastIndexOf(targetSystems, target) != -1
                                       then LastIndexOf(targetSystems, target) else preset
    {
      var str := systems[i];
      assert systems[..i + 1] == systems[..i] + [str];
      WithoutAppend(systems[..i], str, reference);
      PrettyNamesAppend(targetSystems, str);
      LastIndexOfAppend(targetSystems, str, target);
      if str != reference {
        if str != "" && str == target {
          currentTargetSystem := |targetSystems|;
        }
        targetSystems := targetSystems + [str];
        targetLabels := targetLabels + [GetPrettyTrackingSystemName(str)];
      }
    }
    assert systems[..|systems|] == systems;
  }

  /** The reference half of `BuildSystemSelection`: scans the list, picks the
      combo's index and stores the chosen reference, clearing an equal target. */
  method ResolveReference(systems: seq<string>, calState: C.CalibrationState, current: TrackingSystems,
                          referenceStandbySystem: string, referencePick: Option<nat>)
    returns (afterReference: TrackingSystems, referenceLabels: seq<string>)
    ensures afterReference == ChooseReference(systems, current,
                                ReferenceIndex(systems, calState, current, referenceStandbySystem, referencePick))
    ensures referenceLabels == PrettyNames(systems)
  {
    var reference, target := current.reference, current.target;
    var referenceSystems, currentReferenceSystem, firstReferenceSystemNotTargetSystem;
    referenceSystems, referenceLabels, currentReferenceSystem, firstReferenceSystemNotTargetSystem :=
      ScanReferenceSystems(systems, current);

    if currentReferenceSystem == -1 && reference == "" {
      if calState == C.ContinuousStandby {
        var iter := Find(systems, referenceStandbySystem);
        if iter != -1 {
          currentReferenceSystem := iter;
        }
      } else {
        currentReferenceSystem := firstReferenceSystemNotTargetSystem;
      }
    }
    assert currentReferenceSystem == InitialReferenceIndex(systems, calState, current, referenceStandbySystem);

    if referencePick.Some? {
      currentReferenceSystem := referencePick.value;
    }

    if currentReferenceSystem != -1 && currentReferenceSystem < |referenceSystems| {
      reference := referenceSystems[currentReferenceSystem];
      if reference == target {
        target := "";
      }
    }
    afterReference := TrackingSystems(reference, target);
  }

  /** The target half of `BuildSystemSelection`: presets the combo's index,
      builds the candidate list and stores the chosen target. */
  method ResolveTarget(systems: seq<string>, calState: C.CalibrationState, afterReference: TrackingSystems,
                       targetStandbySystem: string, targetPick: Option<nat>)
    returns (result: TrackingSystems, targetLabels: seq<string>)
    ensures result == ChooseTarget(Without(systems, afterReference.reference), afterReference,
                                   TargetIndex(systems, calState, afterReference, targetStandbySystem, targetPick))
    ensures targetLabels == PrettyNames(Without(systems, afterReference.reference))
  {
    var target := afterReference.target;
    var currentTargetSystem := -1;
    if target == "" {
      if calState == C.ContinuousStandby {
        var iter := Find(systems, targetStandbySystem);
        if iter != -1 {
          currentTargetSystem := iter;
        }
      } else {
        currentTargetSystem := 0;
      }
    }

    var targetSystems;
    targetSystems, targetLabels, currentTargetSystem :=
      CollectTargetSystems(systems, afterReference.reference, target, currentTargetSystem);
    assert currentTargetSystem == InitialTargetIndex(systems, calState, afterReference, targetStandbySystem);

    if targetPick.Some? {
      currentTargetSystem := targetPick.value;
    }

    if currentTargetSystem != -1 && currentTargetSystem < |targetSystems| {
      target := targetSystems[currentTargetSystem];
    }
    result := afterReference.(target := target);
  }

  /** The system pickers: resolves the reference and the target tracking system
      and returns the display lists of both combo boxes. */
  method SelectTrackingSystems(systems: seq<string>, calState: C.CalibrationState, current: TrackingSystems,
                               referenceStandbySystem: string, targetStandbySystem: string,
                               referencePick: Option<nat>, targetPick: Option<nat>)
    returns (result: TrackingSystems, referenceLabels: seq<string>, targetLabels: seq<string>)
    ensures result == SystemSelection(systems, calState, current, referenceStandbySystem, targetStandbySystem,
                                      referencePick, targetPick)
    ensures systems != [] ==> referenceLabels == PrettyNames(systems)
    ensures systems != [] ==> targetLabels == PrettyNames(Without(systems, result.reference))
    ensures systems == [] ==> referenceLabels == [] && targetLabels == []
  {
    if |systems| == 0 {
      // "No tracked devices are present"
      return current, [], [];
    }
    var afterReference;
    afterReference, referenceLabels := ResolveReference(systems, calState, current, referenceStandbySystem, referencePick);
    result, targetLabels := ResolveTarget(systems, calState, afterReference, targetStandbySystem, targetPick);
  }

  /** The target candidates are the enumerated systems other than the
      reference, and a target taken from them differs from the reference. */
  lemma TargetCandidatesExcludeReference(systems: seq<string>, reference: string, index: int)
    requires 0 <= index < |Without(systems, reference)|
    ensures Without(systems, reference)[index] != reference
    ensures Without(systems, reference)[index] in systems
  {
    WithoutMembers(systems, reference);
    assert Without(systems, reference)[index] in Without(systems, reference);
  }

  /** Reference and target stay distinct: a reference chosen from the list clears
      an equal target, and a target chosen is never the reference. Once the list
      sets the reference, distinctness holds whatever it was before. */
  lemma SystemSelectionKeepsDistinct(systems: seq<string>, calState: C.CalibrationState, current: TrackingSystems,
                                     referenceStandbySystem: string, targetStandbySystem: string,
                                     referencePick: Option<nat>, targetPick: Option<nat>)
    ensures var r := SystemSelection(systems, calState, current, referenceStandbySystem, targetStandbySystem,
                                     referencePick, targetPick);
      && (Distinct(current) ==> Distinct(r))
      && (systems != [] && referencePick.Some? && referencePick.value < |systems| ==>
            r.reference == systems[referencePick.value] && Distinct(r))
  {
    if systems != [] {
      var afterReference := ChooseReference(systems, current,
                              ReferenceIndex(systems, calState, current, referenceStandbySystem, referencePick));
      var targetIndex := TargetIndex(systems, calState, afterReference, targetStandbySystem, targetPick);
      var candidates := Without(systems, afterReference.reference);
      if targetIndex != -1 && 0 <= targetIndex < |candidates| {
        TargetCandidatesExcludeReference(systems, afterReference.reference, targetIndex);
      }
    }
  }

  /** Choosing the current target as reference clears the target before the
      target combo runs. */
  lemma ReferenceEqualToTargetClearsTarget(systems: seq<string>, current: TrackingSystems, index: int)
    requires 0 <= index < |systems| && systems[index] == current.target
    ensures ChooseReference(systems, current, index) == TrackingSystems(current.target, "")
  {
  }

  /** `BuildSystemSelection` on the context: the resolved systems are stored back. */
  method BuildSystemSelection(state: VRState, ctx: C.CalibrationContext,
                              referencePick: Option<nat>, targetPick: Option<nat>)
    returns (referenceLabels: seq<string>, targetLabels: seq<string>)
    modifies ctx`referenceTrackingSystem, ctx`targetTrackingSystem
    ensures TrackingSystems(ctx.referenceTrackingSystem, ctx.targetTrackingSystem)
         == SystemSelection(state.trackingSystems, ctx.state,
                            TrackingSystems(old(ctx.referenceTrackingSystem), old(ctx.targetTrackingSystem)),
                            ctx.referenceStandby.trackingSystem, ctx.targetStandby.trackingSystem,
                            referencePick, targetPick)
  {
    var result;
    result, referenceLabels, targetLabels :=
      SelectTrackingSystems(state.trackingSystems, ctx.state,
                            TrackingSystems(ctx.referenceTrackingSystem, ctx.targetTrackingSystem),
                            ctx.referenceStandby.trackingSystem, ctx.targetStandby.trackingSystem,
                            referencePick, targetPick);
    ctx.referenceTrackingSystem := result.reference;
    ctx.targetTrackingSystem := result.target;
  }

  // ---------------------------------------------------------------------------
  // Standby injection

  /** `s` with `x` added at the end unless it is already there. */
  function AddIfAbsent(s: seq<string>, x: string): seq<string> {
    if x in s then s else s + [x]
  }

  /** The tracking-system list `LoadVRState` returns. */
  function InjectedSystems(systems: seq<string>, calState: C.CalibrationState,
                           referenceSystem: string, targetSystem: string): seq<string>
  {
    if calState == C.ContinuousStandby then AddIfAbsent(AddIfAbsent(systems, referenceSystem), targetSystem)
    else systems
  }

  predicate NoDuplicates(s: seq<string>) {
    forall i, j :: 0 <= i < j < |s| ==> s[i] != s[j]
  }

  /** `LoadVRState`, given what the runtime enumerated: on standby, the
      configured reference and target systems are added when absent, so that
      their pickers can show the remembered devices. */
  method LoadVRState(loaded: VRState, calState: C.CalibrationState,
                     referenceTrackingSystem: string, targetTrackingSystem: string)
    returns (state: VRState)
    ensures state.devices == loaded.devices
    ensures state.trackingSystems == InjectedSystems(loaded.trackingSystems, calState,
                                                     referenceTrackingSystem, targetTrackingSystem)
  {
    state := loaded;
    var trackingSystems := state.trackingSystems;

    if calState == C.ContinuousStandby {
      var existing := Find(trackingSystems, referenceTrackingSystem);
      if existing == -1 {
        trackingSystems := trackingSystems + [referenceTrackingSystem];
      }

      existing := Find(trackingSystems, targetTrackingSystem);
      if existing == -1 {
        trackingSystems := trackingSystems + [targetTrackingSystem];
      }
    }

    state := state.(trackingSystems := trackingSystems);
  }

  /** The injection keeps the enumerated list as a prefix, adds at most the two
      configured names, adds nothing outside standby, and never duplicates. */
  lemma InjectionPreservesList(systems: seq<string>, calState: C.CalibrationState,
                               referenceSystem: string, targetSystem: string)
    ensures var r := InjectedSystems(systems, calState, referenceSystem, targetSystem);
      && |systems| <= |r| <= |systems| + 2
      && r[..|systems|] == systems
      && (forall x :: x in r <==> x in systems || (calState == C.ContinuousStandby && (x == referenceSystem || x == targetSystem)))
      && (calState != C.ContinuousStandby ==> r == systems)
      && (NoDuplicates(systems) ==> NoDuplicates(r))
  {
    var once := AddIfAbsent(systems, referenceSystem);
    assert once[..|systems|] == systems;
    var twice := AddIfAbsent(once, targetSystem);
    assert twice[..|once|] == once;
  }
}
