# OpenVR Space Calibrator: calibration context and picker rules

This project models two parts of the OpenVR Space Calibrator overlay:

- **The calibration context** (`src/overlay/Calibration.h`). This is the process-wide `CalibrationContext` object, `CalCtx`. It is a Dafny class with the source's fields. Its methods change those fields in place.
  - `Log` and `Progress` keep a message log bounded to 15 entries. `Log` merges text into the last text entry and honours the one-shot `ClearLogOnMessage` latch. `Progress` overwrites the last progress entry.
  - `ResetConfig` restores the drift-correction tuning. `Clear` returns the calibration to an unconfigured state.
  - `SampleCount` maps the speed tier to 100, 250 or 500 samples.
  - The two `*PoseIsValidSimple` checks test one pose slot each.

  The log is specified by value-level functions (`Logged`, `Progressed`). Lemmas about those functions cover any sequence of log calls (`Replay`).

- **The selection rules of the overlay's pickers** (`src/overlay/UserInterface.cpp`):
  - how a tracking system is named on screen and how device labels are built;
  - which device a device picker selects: a stale id is dropped, the default prefers the left-hand controller, a click wins, and a change is written back as the standby identity;
  - the entries a device picker lists, including the placeholder for a remembered device that is absent while a continuous session is on standby;
  - how the reference and target tracking systems are chosen so that they stay distinct;
  - how `LoadVRState` adds the configured systems to the enumerated list on standby.

  Each loop of the source is a method proved against a specification function. The properties the overlay relies on are lemmas about those functions. What the user does in a frame is a parameter: the combo-box index picked, or the list entry clicked. The thin `BuildDeviceSelections` and `BuildSystemSelection` methods apply the result to the context's fields.

Modules:
- `Wrappers` holds `Option`.
- `VRState` holds the enumerated devices and tracking systems as values.
- `Calibration` holds the context.
- `UserInterface` holds the picker rules.

Where the model departs from the code as written, the difference is listed under "## Findings".

## Model

| member | source | states |
|---|---|---|
| Calibration.DefaultAlignmentSpeedParams | src/overlay/Calibration.h:87-98 | the default thresholds increase strictly from tiny to large, for rotations and for translations; the speed multipliers are 1, 1 and 2 |
| Calibration.SampleCountFor | src/overlay/Calibration.h:144-156 | the sample count is one of 100, 250 and 500; each speed tier has its own count, in both directions |
| Calibration.SlowerSpeedCollectsMore | src/overlay/Calibration.h:71-77 | a slower speed tier collects strictly more samples |
| Calibration.PoseIsValidSimpleAsWritten | src/overlay/Calibration.h:201-209 | the guard as written reaches a read past the end exactly when the id is in 0..64 but not below the table size; a true answer means a valid, in-bounds slot |
| Calibration.AsWrittenGuardReadsPastEnd | src/overlay/Calibration.h:202 | with the 64-slot table, the id 64 passes the guard and reads past the end |
| Calibration.PoseIsValidSimple | src/overlay/Calibration.h:201-209 | corrected check: true exactly when the id indexes a slot whose pose is valid; the unset id -1 is never valid |
| Calibration.PoseCheckAgreesWithAsWritten | src/overlay/Calibration.h:201-209 | the corrected check agrees with the written one wherever the written one reads in bounds; they differ only at id 64 |
| Calibration.Trimmed | src/overlay/Calibration.h:189 | trimming keeps the newest min(n, 15) entries, as a suffix of the log |
| Calibration.AppendText | src/overlay/Calibration.h:181-186 | the push-or-merge step yields `Appended`: a new text entry on an empty log or after progress, otherwise the text added to the last entry |
| Calibration.TrimOldest | src/overlay/Calibration.h:189 | the pop-front loop leaves exactly `Trimmed` of the log, its newest 15 entries |
| Calibration.AppendedEndsWithText | src/overlay/Calibration.h:181-186 | after the append the last entry is text and ends with the message |
| Calibration.LogMergesIntoText | src/overlay/Calibration.h:181-186 | text logged after a text entry is concatenated onto that entry; the length and the earlier entries are unchanged |
| Calibration.LogOpensTextEntry | src/overlay/Calibration.h:181-189 | text logged on an empty log, or after a progress entry, opens a new entry holding exactly the text; the log grows by one, or stays at 15 when full |
| Calibration.TrimmedKeepsLast | src/overlay/Calibration.h:189 | trimming from the front never drops the newest entry |
| Calibration.LogKeepsNewestFifteen | src/overlay/Calibration.h:174-190 | after `Log` the log holds 1 to 15 entries; it is the newest part of the appended log; its last entry is text ending with the message |
| Calibration.LogHonoursClearLatch | src/overlay/Calibration.h:176-179 | with the latch set, `Log` leaves exactly one entry, the message |
| Calibration.ProgressOverwritesProgress | src/overlay/Calibration.h:192-199 | `Progress` after a progress entry replaces that entry with the new pair and changes nothing else |
| Calibration.ProgressOpensEntry | src/overlay/Calibration.h:194-198 | `Progress` on an empty log or after text appends one progress entry |
| Calibration.LogOperationsKeepBound | src/overlay/Calibration.h:174-199 | `Log` leaves at most 15 entries; `Progress` keeps the bound of 15 entries, or 16 with a trailing progress entry |
| Calibration.StepKeepsBound | src/overlay/Calibration.h:122-199 | each of `Log`, `Progress` and `ClearLogOnMessage` keeps the log bounded, and `Log` restores the 15-entry cap |
| Calibration.ReplayKeepsLogBounded | src/overlay/Calibration.h:174-199 | over any sequence of `Log`, `Progress` and `ClearLogOnMessage` calls, the log never exceeds 16 entries, and never exceeds 15 right after a `Log` |
| Calibration.LatchSurvivesProgress | src/overlay/Calibration.h:122-199 | the clear latch survives any number of `Progress` calls; the next `Log` consumes it and starts from an empty log |
| Calibration.CalibrationContext.constructor | src/overlay/Calibration.h:28-85 | a new context has no state, no devices chosen, scale 1, every pose slot invalid, an empty log, the default chaperone and the default tuning; the timers are 0, the update interval is 1, and the quash, trigger-wait and applied flags are off |
| Calibration.CalibrationContext.ResetConfig | src/overlay/Calibration.h:87-107 | the tuning fields hold their defaults: speed parameters, thresholds 1.5, 0.005 and 3, zero offset, static recalibration off |
| Calibration.CalibrationContext.ClearLogOnMessage | src/overlay/Calibration.h:122-124 | sets the clear latch and nothing else |
| Calibration.CalibrationContext.Clear | src/overlay/Calibration.h:126-142 | chaperone invalid and emptied (its auto-apply flag kept), scale 1, both systems unset, not enabled, no valid profile, identity relative pose, relative position marked calibrated; nothing else changes |
| Calibration.CalibrationContext.SampleCount | src/overlay/Calibration.h:144-156 | the count for the current speed tier: 100 exactly when fast, 500 exactly when very slow |
| Calibration.CalibrationContext.Log | src/overlay/Calibration.h:174-190 | the new log is `Logged` of the old log and latch; the latch is cleared; the log bound is kept |
| Calibration.CalibrationContext.Progress | src/overlay/Calibration.h:192-199 | the new log is `Progressed` of the old log; the latch is untouched; the log bound is kept |
| Calibration.CalibrationContext.TargetPoseIsValidSimple | src/overlay/Calibration.h:201-204 | true exactly when the target id indexes one of the 64 slots and that pose is valid |
| Calibration.CalibrationContext.ReferencePoseIsValidSimple | src/overlay/Calibration.h:206-209 | true exactly when the reference id indexes one of the 64 slots and that pose is valid |
| UserInterface.GetPrettyTrackingSystemName | src/overlay/UserInterface.cpp:386-392 | "lighthouse" and "aapvr" are shown as "SteamVR Tracking"; every other name is shown unchanged |
| UserInterface.PrettyNameIdempotent | src/overlay/UserInterface.cpp:386-392 | renaming a displayed name again changes nothing |
| UserInterface.PrettyNameMergesOnlySteamVR | src/overlay/UserInterface.cpp:386-392 | two different systems share a display name only when it is "SteamVR Tracking" |
| UserInterface.PrettyNames | src/overlay/UserInterface.cpp:676 | the combo's display list has one name per system |
| UserInterface.PrettyNamesPointwise | src/overlay/UserInterface.cpp:676 | each combo entry is the display name of the system at the same position |
| UserInterface.AppendSeparated | src/overlay/UserInterface.cpp:738-743 | an empty buffer becomes the suffix; otherwise buffer, " \| " and suffix are joined |
| UserInterface.AppendSeparatedKeepsParts | src/overlay/UserInterface.cpp:738-743 | the buffer stays at the front and the suffix ends the result; the length adds up, with the separator only after a non-empty buffer |
| UserInterface.LabelString | src/overlay/UserInterface.cpp:745-763 | a live device is labelled "model \| serial", or by the serial alone when the model is empty |
| UserInterface.StandbyLabelString | src/overlay/UserInterface.cpp:765-773 | a remembered device is labelled "< model \| serial >", with the separator always present |
| UserInterface.FirstIndexOf | src/overlay/UserInterface.cpp:682-684 | `std::find`: the first position of the name, or -1 exactly when the name is absent |
| UserInterface.LastIndexOf | src/overlay/UserInterface.cpp:665-670 | a loop that records every match ends at the last position of the name, or -1 exactly when absent |
| UserInterface.FirstIndexOfNeither | src/overlay/UserInterface.cpp:671-674 | the first position holding neither the reference nor the target; -1 when every entry is one of them |
| UserInterface.Without | src/overlay/UserInterface.cpp:716-724 | the target candidates never contain the reference and are no longer than the list |
| UserInterface.WithoutMembers | src/overlay/UserInterface.cpp:716-724 | the candidates are exactly the listed systems other than the reference; nothing is removed when the reference is not listed |
| UserInterface.WithoutOfPrefix | src/overlay/UserInterface.cpp:716-724 | the candidates built from a prefix of the list are a prefix of the full candidate list |
| UserInterface.WithoutCount | src/overlay/UserInterface.cpp:716-724 | exactly the occurrences of the reference are dropped: the candidate list is that many entries shorter |
| UserInterface.WithoutKeepsOrder | src/overlay/UserInterface.cpp:716-724 | the candidates keep the enumeration order: each system other than the reference sits at the position given by the number of non-reference systems before it |
| UserInterface.Find | src/overlay/UserInterface.cpp:915 | the search loop returns the first position of the name, or -1 |
| UserInterface.FirstMatch | src/overlay/UserInterface.cpp:872 | the first device meeting a criterion: it meets the criterion and no earlier device does; none is found only when no device does |
| UserInterface.DropStaleSelection | src/overlay/UserInterface.cpp:780-800 | a selection naming no device of the system becomes -1; any other selection, and -1 itself, is kept |
| UserInterface.ChooseDefaultDevice | src/overlay/UserInterface.cpp:806-827 | the default is the system's first left-hand controller, else its first device, else -1 |
| UserInterface.WriteBackSelection | src/overlay/UserInterface.cpp:871-879 | a changed selection is stored with the system, model and serial of the first device having that id; nothing is stored when no device has the id |
| UserInterface.StandbyPlaceholder | src/overlay/UserInterface.cpp:831-853 | the placeholder is shown exactly when no device of the system has the remembered model and serial, and it carries the standby label |
| UserInterface.DeviceLabels | src/overlay/UserInterface.cpp:857-870 | the device list has at most one entry per device |
| UserInterface.DeviceLabelsCountSystemDevices | src/overlay/UserInterface.cpp:857-870 | the device list has exactly as many entries as the system has devices |
| UserInterface.ListDeviceLabels | src/overlay/UserInterface.cpp:857-870 | the rendering loop lists the label of each device of the system, in enumeration order |
| UserInterface.BuildDeviceSelection | src/overlay/UserInterface.cpp:775-880 | the stored selection and standby identity are the write-back of the final selection (stale dropped, defaulted unless on standby, click applied); the entries are the standby placeholder, if any, then the device labels |
| UserInterface.FinalSelectionBelongsToSystem | src/overlay/UserInterface.cpp:775-870 | a picker's final selection is -1 or the id of a device of its own system |
| UserInterface.PresentSelectionKept | src/overlay/UserInterface.cpp:780-800 | with no click, a selection whose device is still present stays unchanged |
| UserInterface.StandbyChoosesNoDefault | src/overlay/UserInterface.cpp:802-804 | on standby, with no click, a stale selection stays -1 instead of falling back to a default |
| UserInterface.DefaultPrefersLeftHand | src/overlay/UserInterface.cpp:806-816 | when a left-hand controller of the system exists, the default is the first such controller |
| UserInterface.DefaultFallsBackToFirstDevice | src/overlay/UserInterface.cpp:818-827 | with no left-hand controller, the default is the system's first device, or -1 when it has none |
| UserInterface.WrittenBackRecordsDevice | src/overlay/UserInterface.cpp:871-879 | a written-back selection records the system and the model and serial of the device with that id |
| UserInterface.BuildDeviceSelections | src/overlay/UserInterface.cpp:882-895 | the reference and target pickers are resolved against the context's systems, their results are stored in its ids and standby identities, and both entry lists are returned |
| UserInterface.InitialReferenceIndex | src/overlay/UserInterface.cpp:679-690 | the reference combo's starting index is -1 or a valid position in the list |
| UserInterface.ScanReferenceSystems | src/overlay/UserInterface.cpp:663-677 | the first loop lists every system and its display name; it finds the reference's last position and the first position holding neither system |
| UserInterface.CollectTargetSystems | src/overlay/UserInterface.cpp:714-725 | the second loop lists every system but the reference, with display names; a set target found there moves the index to its last position, otherwise the preset index stays |
| UserInterface.ResolveReference | src/overlay/UserInterface.cpp:659-700 | the reference becomes the system at the starting or picked index, when that index is valid; a target equal to it is cleared |
| UserInterface.ResolveTarget | src/overlay/UserInterface.cpp:702-733 | the target becomes the candidate at the preset, found or picked index, when that index is valid |
| UserInterface.SelectTrackingSystems | src/overlay/UserInterface.cpp:644-736 | the systems chosen are `SystemSelection` of the list, the state, the current systems and the picks; an empty list changes nothing and shows no combos |
| UserInterface.TargetCandidatesExcludeReference | src/overlay/UserInterface.cpp:716-724 | every target candidate is a listed system and differs from the reference |
| UserInterface.SystemSelectionKeepsDistinct | src/overlay/UserInterface.cpp:695-733 | when reference and target differ, or the target is unset, before the picker runs, that still holds after it; a valid reference pick sets the reference and makes the pair distinct, whatever the pair was before |
| UserInterface.ReferenceEqualToTargetClearsTarget | src/overlay/UserInterface.cpp:697-699 | picking the current target as reference clears the target |
| UserInterface.BuildSystemSelection | src/overlay/UserInterface.cpp:644-736 | the context's reference and target systems become the result of `SystemSelection` |
| UserInterface.LoadVRState | src/overlay/UserInterface.cpp:908-927 | the devices are kept; on standby, the configured reference and then target system are appended when absent |
| UserInterface.InjectionPreservesList | src/overlay/UserInterface.cpp:912-924 | the enumerated list is kept as a prefix, and at most the two configured names are added; nothing is added outside standby; a list without duplicates stays without duplicates |

## Left out

- The calibration engine and everything declared at `src/overlay/Calibration.h:214-224`: sampling, the rotation and translation estimates, continuous drift correction, and loading and applying the chaperone. `Calibration.cpp` is not part of this model. Only the bookkeeping that `Calibration.h` defines inline is modelled.
- The fields `controllerIDs`, `xprev`, `yprev` and `zprev` are absent. No modelled method reads them, and the source leaves them uninitialised (`src/overlay/Calibration.h:34`, `:58`). The other engine fields (`quashTargetInContinuous`, the three timers, `wantedUpdateInterval`, `wasWaitingForTriggers`, `hasAppliedCalibrationResult`) are in the class only for their constructor defaults.
- Of a device pose only `poseIsValid` is modelled.
- Floating-point values (`float`, `double`, Eigen vectors and transforms) are modelled as reals, so rounding is not captured. `EIGEN_PI` is a decimal literal, and matrices are plain rows of reals. Only the defaults and their ordering are stated about them.
- `Clear` and the constructor leave `calibratedRotation` and `calibratedTranslation` unspecified, as Eigen's default constructor does.
- The side channels of `Log` are left out: `OutputDebugStringA` and `std::cerr`.
- `int32_t` ids and the `int` progress fields are modelled as unbounded integers. No arithmetic is done on them, so wrap-around cannot arise.
- Calibration.CalibrationContext.SampleCount: the fallback `return 100` after the switch is not modelled. The speed is a three-value datatype here, so no other value can reach it.
- Message: a text entry carries only its text, and a progress entry only its pair. The source's entries also carry the unused fields of the other kind.
- Widget rendering is left out: ImGui windows, combo boxes, selectables, push-ids and colours, and the `const char*` vectors that feed the combos. What the user does in a frame is a parameter: the combo index after `ImGui::Combo`, or the list entry clicked. At most one click per picker per frame is modelled.
- The "Identify selected devices" haptic loop (`src/overlay/UserInterface.cpp:897-905`) is left out. It calls the OpenVR runtime and sleeps.
- `VRState::Load` (the OpenVR device enumeration) is left out. `LoadVRState` takes its result as a parameter.
- The standby branches of the pickers can be reached only from a caller that builds them in the `ContinuousStandby` state. The main window shows the continuous-calibration display in that state instead. The branches are modelled anyway, with the state as a parameter.
- UserInterface.ResolveTarget: on standby with no target, the preset index is the remembered system's position in the full list. The combo is then indexed into the candidate list, which excludes the reference. The model reproduces this as written and proves nothing about which system the preset denotes.
- The rest of `UserInterface.cpp` is not part of this model: the profile editor, the continuous-calibration display and the settings widgets.

## Findings

| source | as written | input that shows it | evidently intended | confidence | as-written member | corrected member |
|---|---|---|---|---|---|---|
| src/overlay/Calibration.h:201-209 | the guard `id >= 0 && id <= k_unMaxTrackedDeviceCount` admits id 64, one past the last slot of `devicePoses[64]` | `targetID == 64` (or `referenceID == 64`) with the 64-slot pose table: the guard passes and `devicePoses[64]` is read out of bounds | `id < k_unMaxTrackedDeviceCount`, so that only ids of existing slots are read | not executed | Calibration.PoseIsValidSimpleAsWritten, Calibration.AsWrittenGuardReadsPastEnd | Calibration.PoseIsValidSimple |
