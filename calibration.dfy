/** The bookkeeping half of the calibration context (src/overlay/Calibration.h):
    the process-wide `CalibrationContext` with its bounded message log, its reset
    operations, the sample-count table and the pose-validity checks. The
    calibration engine that drives it (sampling, estimation, drift correction,
    chaperone application) is not part of this model. */
module Calibration {
  import Wrappers

  /** `vr::k_unMaxTrackedDeviceCount`: the number of device slots OpenVR reports. */
  const MaxTrackedDeviceCount: nat := 64

  /** The log keeps at most this many entries after every text message. */
  const MaxLogEntries: nat := 15

  /** `EIGEN_PI`, to the precision of a double. */
  const EigenPi: real := 3.141592653589793

  datatype CalibrationState = None | Begin | Rotation | Translation | Editing | Continuous | ContinuousStandby

  /** A remembered device identity, used to find a device again after it reconnects. */
  datatype StandbyDevice = StandbyDevice(trackingSystem: string, model: string, serial: string)

  /** The calibration speed tier (`FAST = 0`, `SLOW = 1`, `VERY_SLOW = 2`). */
  datatype Speed = Fast | Slow | VerySlow

  datatype Vec2 = Vec2(x: real, y: real)
  datatype Vec3 = Vec3(x: real, y: real, z: real)

  /** A 3x4 row-major matrix: `vr::HmdMatrix34_t`, and the layout of an
      `Eigen::AffineCompact3d` (linear part and translation column). */
  datatype Matrix34 = Matrix34(rows: seq<seq<real>>)

  const IdentityMatrix34 := Matrix34([[1.0, 0.0, 0.0, 0.0], [0.0, 1.0, 0.0, 0.0], [0.0, 0.0, 1.0, 0.0]])
  const ZeroMatrix34 := Matrix34([[0.0, 0.0, 0.0, 0.0], [0.0, 0.0, 0.0, 0.0], [0.0, 0.0, 0.0, 0.0]])

  /** One floor quadrilateral of the play-area boundary (`vr::HmdQuad_t`). */
  datatype Quad = Quad(corners: seq<Vec3>)

  /** The cached play-area boundary. */
  datatype Chaperone = Chaperone(
    valid: bool,
    autoApply: bool,
    geometry: seq<Quad>,
    standingCenter: Matrix34,
    playSpaceSize: Vec2)

  /** The boundary as the context is created with it: invalid, auto-applied,
      no geometry, identity standing centre, zero size. */
  const DefaultChaperone := Chaperone(false, true, [], IdentityMatrix34, Vec2(0.0, 0.0))

  /** Of a device's pose only its validity flag is read by the modelled code. */
  datatype DriverPose = DriverPose(poseIsValid: bool)

  /** The drift corrector's thresholds (radians, metres) and speed multipliers. */
  datatype AlignmentSpeedParams = AlignmentSpeedParams(
    thrRotTiny: real, thrRotSmall: real, thrRotLarge: real,
    thrTransTiny: real, thrTransSmall: real, thrTransLarge: real,
    alignSpeedTiny: real, alignSpeedSmall: real, alignSpeedLarge: real)

  /** Thresholds increase strictly from tiny to large on each axis. */
  predicate ThresholdsOrdered(p: AlignmentSpeedParams) {
    && 0.0 < p.thrRotTiny < p.thrRotSmall < p.thrRotLarge
    && 0.0 < p.thrTransTiny < p.thrTransSmall < p.thrTransLarge
  }

  /** The parameters `ResetConfig` installs: 0.49, 0.5 and 5 degrees; 0.98, 1 and
      20 millimetres; speeds 1, 1 and 2. */
  function DefaultAlignmentSpeedParams(): (p: AlignmentSpeedParams)
    ensures ThresholdsOrdered(p)
    ensures p.alignSpeedTiny == 1.0 && p.alignSpeedSmall == 1.0 && p.alignSpeedLarge == 2.0
  {
    AlignmentSpeedParams(
      0.49 * (EigenPi / 180.0), 0.5 * (EigenPi / 180.0), 5.0 * (EigenPi / 180.0),
      0.98 / 1000.0, 1.0 / 1000.0, 20.0 / 1000.0,
      1.0, 1.0, 2.0)
  }

  /** The number of paired samples one calibration phase collects at a speed. */
  function SampleCountFor(speed: Speed): (n: nat)
    ensures n in {100, 250, 500}
    ensures speed == Fast <==> n == 100
    ensures speed == Slow <==> n == 250
    ensures speed == VerySlow <==> n == 500
  {
    match speed
    case Fast => 100
    case Slow => 250
    case VerySlow => 500
  }

  /** Slower speed tiers collect strictly more samples. */
  function SpeedRank(speed: Speed): nat {
    match speed
    case Fast => 0
    case Slow => 1
    case VerySlow => 2
  }

  lemma SlowerSpeedCollectsMore(a: Speed, b: Speed)
    requires SpeedRank(a) < SpeedRank(b)
    ensures SampleCountFor(a) < SampleCountFor(b)
  {
  }

  // ---------------------------------------------------------------------------
  // Pose validity

  /** `*PoseIsValidSimple` as written: the bounds check admits
      `id == MaxTrackedDeviceCount`, one past the last slot. `None` stands for
      the out-of-bounds read that then follows. */
  function PoseIsValidSimpleAsWritten(poses: seq<DriverPose>, id: int): (r: Wrappers.Option<bool>)
    ensures r.None? <==> 0 <= id <= MaxTrackedDeviceCount && |poses| <= id
    ensures r.Some? && r.value ==> 0 <= id < |poses| && poses[id].poseIsValid
  {
    if id >= 0 && id <= MaxTrackedDeviceCount then
      if id < |poses| then Wrappers.Some(poses[id].poseIsValid) else Wrappers.None
    else
      Wrappers.Some(false)
  }

  /** With the pose table at its real size, the guard as written lets the id
      `MaxTrackedDeviceCount` through to a read past the end of the table. */
  lemma AsWrittenGuardReadsPastEnd(poses: seq<DriverPose>)
    requires |poses| == MaxTrackedDeviceCount
    ensures PoseIsValidSimpleAsWritten(poses, MaxTrackedDeviceCount) == Wrappers.None
  {
  }

  /** The corrected check: `id` must index a slot of the table, and that slot's
      pose must be valid. The unset id -1 is never valid. */
  function PoseIsValidSimple(poses: seq<DriverPose>, id: int): (r: bool)
    ensures r <==> 0 <= id < |poses| && poses[id].poseIsValid
  {
    0 <= id < |poses| && poses[id].poseIsValid
  }

  /** The corrected check agrees with the one as written wherever the latter
      does not read out of bounds, and they differ only at the id one past the end. */
  lemma PoseCheckAgreesWithAsWritten(poses: seq<DriverPose>, id: int)
    requires |poses| == MaxTrackedDeviceCount
    ensures PoseIsValidSimpleAsWritten(poses, id).Some? ==>
              PoseIsValidSimpleAsWritten(poses, id).value == PoseIsValidSimple(poses, id)
    ensures PoseIsValidSimpleAsWritten(poses, id).None? <==> id == MaxTrackedDeviceCount
  {
  }

  // ---------------------------------------------------------------------------
  // The message log

  /** One log entry: a block of text, or a (current, target) progress pair. */
  datatype Message = StringMessage(str: string) | ProgressMessage(progress: int, target: int)

  /** What `Log` keeps invariant: at most 15 entries, except that one `Progress`
      after a full log may add a 16th. */
  predicate LogBounded(log: seq<Message>) {
    |log| <= MaxLogEntries || (|log| == MaxLogEntries + 1 && log[MaxLogEntries].ProgressMessage?)
  }

  /** `msg` added to the log: merged into the last entry when that is text,
      otherwise as a new text entry. */
  function Appended(log: seq<Message>, msg: string): seq<Message> {
    if log == [] || log[|log| - 1].ProgressMessage? then
      log + [StringMessage(msg)]
    else
      log[..|log| - 1] + [StringMessage(log[|log| - 1].str + msg)]
  }

  /** The newest entry of a non-empty log (`messages.back()`). */
  function LastEntry(log: seq<Message>): Message
    requires log != []
  {
    log[|log| - 1]
  }

  /** The newest `MaxLogEntries` entries of `log`. */
  function Trimmed(log: seq<Message>): (r: seq<Message>)
    ensures |r| == if |log| <= MaxLogEntries then |log| else MaxLogEntries
    ensures r == log[|log| - |r|..]
  {
    if |log| <= MaxLogEntries then log else log[|log| - MaxLogEntries..]
  }

  /** The log after `Log(msg)`, given the log and the clear latch before it. */
  function Logged(log: seq<Message>, clearOnLog: bool, msg: string): seq<Message> {
    Trimmed(Appended(if clearOnLog then [] else log, msg))
  }

  /** The log after `Progress(current, target)`. */
  function Progressed(log: seq<Message>, current: int, target: int): seq<Message> {
    if log == [] || log[|log| - 1].StringMessage? then
      log + [ProgressMessage(current, target)]
    else
      log[|log| - 1 := ProgressMessage(current, target)]
  }

  /** Text after text is merged into the last entry; nothing else changes. */
  lemma LogMergesIntoText(log: seq<Message>, msg: string)
    requires log != [] && log[|log| - 1].StringMessage? && |log| <= MaxLogEntries
    ensures Logged(log, false, msg) == log[..|log| - 1] + [StringMessage(log[|log| - 1].str + msg)]
    ensures |Logged(log, false, msg)| == |log|
  {
  }

  /** Text on an empty log or after a progress entry opens a new text entry
      holding exactly `msg`, dropping the oldest entry if the log is full. */
  lemma LogOpensTextEntry(log: seq<Message>, msg: string)
    requires log == [] || log[|log| - 1].ProgressMessage?
    ensures Logged(log, false, msg) == Trimmed(log + [StringMessage(msg)])
    ensures |Logged(log, false, msg)| == if |log| < MaxLogEntries then |log| + 1 else MaxLogEntries
  {
    assert Appended(log, msg) == log + [StringMessage(msg)];
  }

  /** Trimming never drops the newest entry. */
  lemma TrimmedKeepsLast(log: seq<Message>)
    requires log != []
    ensures Trimmed(log) != [] && LastEntry(Trimmed(log)) == LastEntry(log)
  {
  }

  /** Appending text leaves a text entry last, and that entry ends in `msg`. */
  lemma AppendedEndsWithText(log: seq<Message>, msg: string)
    ensures var a := Appended(log, msg);
      && a != [] && a[|a| - 1].StringMessage?
      && |msg| <= |a[|a| - 1].str|
      && a[|a| - 1].str[|a[|a| - 1].str| - |msg|..] == msg
  {
    if log != [] && log[|log| - 1].StringMessage? {
      var s := log[|log| - 1].str + msg;
      assert s[|s| - |msg|..] == msg;
    }
  }

  /** After any `Log` the log holds between 1 and 15 entries, these are the
      newest entries of the appended log (the oldest are dropped first), and the
      newest entry is text ending in `msg`. */
  lemma LogKeepsNewestFifteen(log: seq<Message>, clearOnLog: bool, msg: string)
    ensures var r := Logged(log, clearOnLog, msg);
      && 0 < |r| <= MaxLogEntries
      && (var a := Appended(if clearOnLog then [] else log, msg); r == a[|a| - |r|..])
      && r[|r| - 1].StringMessage?
      && |msg| <= |r[|r| - 1].str|
      && r[|r| - 1].str[|r[|r| - 1].str| - |msg|..] == msg
  {
    var a := Appended(if clearOnLog then [] else log, msg);
    AppendedEndsWithText(if clearOnLog then [] else log, msg);
    TrimmedKeepsLast(a);
    var r := Trimmed(a);
    assert r == Logged(log, clearOnLog, msg);
    assert r[|r| - 1] == a[|a| - 1];
  }

  /** A set latch makes the next `Log` start from an empty history. */
  lemma LogHonoursClearLatch(log: seq<Message>, msg: string)
    ensures Logged(log, true, msg) == [StringMessage(msg)]
  {
  }

  /** `Progress` after a progress entry overwrites that entry in place. */
  lemma ProgressOverwritesProgress(log: seq<Message>, current: int, target: int)
    requires log != [] && log[|log| - 1].ProgressMessage?
    ensures |Progressed(log, current, target)| == |log|
    ensures Progressed(log, current, target)[..|log| - 1] == log[..|log| - 1]
    ensures Progressed(log, current, target)[|log| - 1] == ProgressMessage(current, target)
  {
  }

  /** `Progress` on an empty log or after text pushes one progress entry. */
  lemma ProgressOpensEntry(log: seq<Message>, current: int, target: int)
    requires log == [] || log[|log| - 1].StringMessage?
    ensures Progressed(log, current, target) == log + [ProgressMessage(current, target)]
  {
  }

  /** Both log operations keep the log bounded; `Log` restores the 15-entry cap. */
  lemma LogOperationsKeepBound(log: seq<Message>, clearOnLog: bool, msg: string, current: int, target: int)
    requires LogBounded(log)
    ensures |Logged(log, clearOnLog, msg)| <= MaxLogEntries
    ensures LogBounded(Progressed(log, current, target))
  {
  }

  /** The push-or-merge step of `Log`: a new empty text entry is pushed when
      the log is empty or ends in progress, then `msg` is added to the last entry. */
  method AppendText(log: seq<Message>, msg: string) returns (r: seq<Message>)
    ensures r == Appended(log, msg)
  {
    r := log;
    if |r| == 0 || r[|r| - 1].ProgressMessage? {
      r := r + [StringMessage("")];
      assert r[..|r| - 1] == log;
      assert r[|r| - 1].str + msg == msg;
    }
    var last := |r| - 1;
    r := r[..last] + [StringMessage(r[last].str + msg)];
  }

  /** The trimming loop of `Log`: the oldest entries are popped until at most
      15 remain. */
  method TrimOldest(log: seq<Message>) returns (r: seq<Message>)
    ensures r == Trimmed(log)
  {
    r := log;
    while |r| > MaxLogEntries
      invariant |r| <= |log|
      invariant r == log[|log| - |r|..]
      invariant |r| >= MaxLogEntries || r == log
      decreases |r|
    {
      r := r[1..];
    }
  }

  /** A call that touches the log: `Log`, `Progress` or `ClearLogOnMessage`. */
  datatype LogCall = LogCall(msg: string) | ProgressCall(current: int, target: int) | ClearLogOnMessageCall

  /** The log and its clear latch. */
  datatype LogState = LogState(messages: seq<Message>, clearOnLog: bool)

  function Step(s: LogState, call: LogCall): LogState {
    match call
    case LogCall(msg) => LogState(Logged(s.messages, s.clearOnLog, msg), false)
    case ProgressCall(c, t) => LogState(Progressed(s.messages, c, t), s.clearOnLog)
    case ClearLogOnMessageCall => LogState(s.messages, true)
  }

  /** The state after a sequence of calls, in order. */
  function Replay(s: LogState, calls: seq<LogCall>): LogState
    decreases |calls|
  {
    if calls == [] then s else Replay(Step(s, calls[0]), calls[1..])
  }

  /** One call keeps the log bounded, and a `Log` call restores the 15-entry cap. */
  lemma StepKeepsBound(s: LogState, call: LogCall)
    requires LogBounded(s.messages)
    ensures LogBounded(Step(s, call).messages)
    ensures call.LogCall? ==> |Step(s, call).messages| <= MaxLogEntries
  {
    match call {
      case LogCall(msg) => LogOperationsKeepBound(s.messages, s.clearOnLog, msg, 0, 0);
      case ProgressCall(c, t) => LogOperationsKeepBound(s.messages, s.clearOnLog, "", c, t);
      case ClearLogOnMessageCall =>
    }
  }

  /** Whatever sequence of calls is made, the log never holds more than 16
      entries, and never more than 15 right after a `Log`. */
  lemma {:induction false} ReplayKeepsLogBounded(s: LogState, calls: seq<LogCall>)
    requires LogBounded(s.messages)
    ensures LogBounded(Replay(s, calls).messages)
    ensures |Replay(s, calls).messages| <= MaxLogEntries + 1
    ensures calls != [] && calls[|calls| - 1].LogCall? ==> |Replay(s, calls).messages| <= MaxLogEntries
    decreases |calls|
  {
    if calls != [] {
      var next := Step(s, calls[0]);
      StepKeepsBound(s, calls[0]);
      ReplayKeepsLogBounded(next, calls[1..]);
      assert Replay(s, calls) == Replay(next, calls[1..]);
      if |calls| == 1 {
        assert Replay(next, calls[1..]) == next;
      } else {
        assert calls[1..][|calls[1..]| - 1] == calls[|calls| - 1];
      }
    }
  }

  /** A latch set by `ClearLogOnMessage` survives any number of `Progress`
      calls and is consumed by the next `Log`, which then starts from an empty log. */
  lemma {:induction false} LatchSurvivesProgress(s: LogState, progress: seq<LogCall>, msg: string)
    requires forall i :: 0 <= i < |progress| ==> progress[i].ProgressCall?
    ensures Replay(s, progress).clearOnLog == s.clearOnLog
    ensures s.clearOnLog ==> Replay(s, progress + [LogCall(msg)]) == LogState([StringMessage(msg)], false)
    decreases |progress|
  {
    if progress != [] {
      LatchSurvivesProgress(Step(s, progress[0]), progress[1..], msg);
      assert (progress + [LogCall(msg)])[1..] == progress[1..] + [LogCall(msg)];
    } else {
      assert Replay(s, [LogCall(msg)]) == Step(s, LogCall(msg));
    }
  }

  // ---------------------------------------------------------------------------
  // The context

  /** The process-wide calibration context (`CalCtx`). */
  class CalibrationContext {
    var state: CalibrationState
    var referenceID: int
    var targetID: int
    var targetStandby: StandbyDevice
    var referenceStandby: StandbyDevice

    var calibratedRotation: Vec3
    var calibratedTranslation: Vec3
    var calibratedScale: real

    var referenceTrackingSystem: string
    var targetTrackingSystem: string

    var enabled: bool
    var validProfile: bool
    var clearOnLog: bool
    var quashTargetInContinuous: bool
    var timeLastTick: real
    var timeLastScan: real
    var timeLastAssign: real
    var ignoreOutliers: bool
    var wantedUpdateInterval: real
    var jitterThreshold: real
    var requireTriggerPressToApply: bool
    var wasWaitingForTriggers: bool
    var hasAppliedCalibrationResult: bool

    var continuousCalibrationThreshold: real
    var maxRelativeErrorThreshold: real
    var continuousCalibrationOffset: Vec3

    var alignmentSpeedParams: AlignmentSpeedParams
    var enableStaticRecalibration: bool
    var lockRelativePosition: bool

    var refToTargetPose: Matrix34
    var relativePosCalibrated: bool

    var calibrationSpeed: Speed

    /** One pose slot per tracked-device id. */
    const devicePoses: array<DriverPose>

    var chaperone: Chaperone
    var messages: seq<Message>

    ghost predicate Valid()
      reads this
    {
      devicePoses.Length == MaxTrackedDeviceCount && LogBounded(messages)
    }

    /** The fields `ResetConfig` governs hold their defaults. */
    ghost predicate ConfigIsDefault()
      reads this
    {
      && alignmentSpeedParams == DefaultAlignmentSpeedParams()
      && continuousCalibrationThreshold == 1.5
      && maxRelativeErrorThreshold == 0.005
      && jitterThreshold == 3.0
      && continuousCalibrationOffset == Vec3(0.0, 0.0, 0.0)
      && !enableStaticRecalibration
    }

    /** The fields outside the tuning hold the values the context starts with:
        no state, no devices chosen, scale 1, all flags off, timers at 0, an
        update interval of 1, the default chaperone and an empty log. */
    ghost predicate StateIsInitial()
      reads this`state, this`referenceID, this`targetID, this`targetStandby, this`referenceStandby,
            this`calibratedScale, this`referenceTrackingSystem, this`targetTrackingSystem,
            this`enabled, this`validProfile, this`clearOnLog, this`ignoreOutliers,
            this`requireTriggerPressToApply, this`quashTargetInContinuous, this`wasWaitingForTriggers,
            this`hasAppliedCalibrationResult, this`timeLastTick, this`timeLastScan, this`timeLastAssign,
            this`wantedUpdateInterval, this`lockRelativePosition, this`relativePosCalibrated,
            this`refToTargetPose, this`calibrationSpeed, this`chaperone, this`messages
    {
      && state == None && referenceID == -1 && targetID == -1
      && targetStandby == StandbyDevice("", "", "") && referenceStandby == StandbyDevice("", "", "")
      && calibratedScale == 1.0
      && referenceTrackingSystem == "" && targetTrackingSystem == ""
      && !enabled && !validProfile && !clearOnLog && !ignoreOutliers && !requireTriggerPressToApply
      && !quashTargetInContinuous && !wasWaitingForTriggers && !hasAppliedCalibrationResult
      && timeLastTick == 0.0 && timeLastScan == 0.0 && timeLastAssign == 0.0
      && wantedUpdateInterval == 1.0
      && !lockRelativePosition && !relativePosCalibrated
      && refToTargetPose == IdentityMatrix34
      && calibrationSpeed == Fast
      && chaperone == DefaultChaperone
      && messages == []
    }

    /** The context as the program starts with it: no devices chosen, scale 1,
        every pose slot invalid, empty log, default configuration. */
    constructor ()
      ensures Valid() && fresh(devicePoses)
      ensures StateIsInitial()
      ensures forall i :: 0 <= i < devicePoses.Length ==> !devicePoses[i].poseIsValid
      ensures ConfigIsDefault()
    {
      state := None;
      referenceID, targetID := -1, -1;
      targetStandby, referenceStandby := StandbyDevice("", "", ""), StandbyDevice("", "", "");
      calibratedRotation := *;
      calibratedTranslation := *;
      calibratedScale := 1.0;
      referenceTrackingSystem, targetTrackingSystem := "", "";
      enabled, validProfile, clearOnLog := false, false, false;
      quashTargetInContinuous := false;
      timeLastTick, timeLastScan, timeLastAssign := 0.0, 0.0, 0.0;
      ignoreOutliers := false;
      wantedUpdateInterval := 1.0;
      jitterThreshold := 3.0;
      requireTriggerPressToApply := false;
      wasWaitingForTriggers, hasAppliedCalibrationResult := false, false;
      continuousCalibrationThreshold := *;
      maxRelativeErrorThreshold := 0.005;
      continuousCalibrationOffset := *;
      alignmentSpeedParams := *;
      enableStaticRecalibration := *;
      lockRelativePosition := false;
      refToTargetPose := IdentityMatrix34;
      relativePosCalibrated := false;
      calibrationSpeed := Fast;
      devicePoses := new DriverPose[MaxTrackedDeviceCount](_ => DriverPose(false));
      chaperone := DefaultChaperone;
      messages := [];
      new;
      assert StateIsInitial();
      ResetConfig();
    }

    /** Restores the drift-correction tuning to its defaults. */
    method ResetConfig()
      modifies this`alignmentSpeedParams, this`continuousCalibrationThreshold,
               this`maxRelativeErrorThreshold, this`jitterThreshold,
               this`continuousCalibrationOffset, this`enableStaticRecalibration
      ensures ConfigIsDefault()
    {
      alignmentSpeedParams := DefaultAlignmentSpeedParams();
      continuousCalibrationThreshold := 1.5;
      maxRelativeErrorThreshold := 0.005;
      jitterThreshold := 3.0;
      continuousCalibrationOffset := Vec3(0.0, 0.0, 0.0);
      enableStaticRecalibration := false;
    }

    /** Arms the latch: the next `Log` wipes the history first. */
    method ClearLogOnMessage()
      modifies this`clearOnLog
      ensures clearOnLog
    {
      clearOnLog := true;
    }

    /** Returns the calibration to the unconfigured state. The rotation and
        translation become unspecified values; the state, the log, the device
        ids and the tuning are left as they were. */
    method Clear()
      modifies this`chaperone, this`calibratedRotation, this`calibratedTranslation,
               this`calibratedScale, this`referenceTrackingSystem, this`targetTrackingSystem,
               this`enabled, this`validProfile, this`refToTargetPose, this`relativePosCalibrated
      ensures chaperone == old(chaperone).(valid := false, geometry := [],
                                           standingCenter := ZeroMatrix34, playSpaceSize := Vec2(0.0, 0.0))
      ensures calibratedScale == 1.0
      ensures referenceTrackingSystem == "" && targetTrackingSystem == ""
      ensures !enabled && !validProfile
      ensures refToTargetPose == IdentityMatrix34
      ensures relativePosCalibrated
    {
      chaperone := chaperone.(geometry := []);
      chaperone := chaperone.(standingCenter := ZeroMatrix34);
      chaperone := chaperone.(playSpaceSize := Vec2(0.0, 0.0));
      chaperone := chaperone.(valid := false);

      calibratedRotation := *;
      calibratedTranslation := *;
      calibratedScale := 1.0;
      referenceTrackingSystem := "";
      targetTrackingSystem := "";
      enabled := false;
      validProfile := false;
      refToTargetPose := IdentityMatrix34;
      relativePosCalibrated := true;
    }

    /** The number of samples a calibration phase collects at the current speed. */
    function SampleCount(): (n: nat)
      reads this
      ensures n in {100, 250, 500}
      ensures calibrationSpeed == Fast <==> n == 100
      ensures calibrationSpeed == VerySlow <==> n == 500
    {
      SampleCountFor(calibrationSpeed)
    }

    /** Adds a line of text to the log (see `Logged`), consuming the clear latch. */
    method Log(msg: string)
      requires Valid()
      modifies this`messages, this`clearOnLog
      ensures Valid()
      ensures messages == Logged(old(messages), old(clearOnLog), msg)
      ensures !clearOnLog
    {
      if clearOnLog {
        messages := [];
        clearOnLog := false;
      }
      var appended := AppendText(messages, msg);
      messages := TrimOldest(appended);
      LogOperationsKeepBound(old(messages), old(clearOnLog), msg, 0, 0);
    }

    /** Reports progress (see `Progressed`); the clear latch is neither read nor reset. */
    method Progress(current: int, target: int)
      requires Valid()
      modifies this`messages
      ensures Valid()
      ensures messages == Progressed(old(messages), current, target)
    {
      if |messages| == 0 || messages[|messages| - 1].StringMessage? {
        messages := messages + [ProgressMessage(0, 0)];
      }
      var last := |messages| - 1;
      messages := messages[last := messages[last].(progress := current, target := target)];
    }

    /** Whether the target device's pose is currently valid (corrected bounds check). */
    function TargetPoseIsValidSimple(): (r: bool)
      requires Valid()
      reads this, devicePoses
      ensures r <==> 0 <= targetID < MaxTrackedDeviceCount && devicePoses[targetID].poseIsValid
    {
      PoseIsValidSimple(devicePoses[..], targetID)
    }

    /** Whether the reference device's pose is currently valid (corrected bounds check). */
    function ReferencePoseIsValidSimple(): (r: bool)
      requires Valid()
      reads this, devicePoses
      ensures r <==> 0 <= referenceID < MaxTrackedDeviceCount && devicePoses[referenceID].poseIsValid
    {
      PoseIsValidSimple(devicePoses[..], referenceID)
    }
  }
}
