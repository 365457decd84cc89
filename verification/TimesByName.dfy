/** The times and counts the service must answer and save after a run, written out by event type. */
module TimesByName {
  import opened StatsTypes
  import opened CoreSpec
  import opened TraceSpec
  import opened Refinement
  import opened TimeLaws
  import opened Power
  import opened EndToEnd
  import opened SavedTimes
  import opened ByName
  import opened Sums

  // ---- Times ----

  /** The answer to GetTotalTimeMs(uid, statsType). */
  function UidExpected(tr: Trace, uid: int, kind: StatsType, cpuTimeMs: int): int {
    match kind
    case CpuTime => cpuTimeMs
    case CameraOn => HeldMs(tr, uid)
    case _ =>
      if uid < 0 then 0
      else match kind
        case FlashlightOn => FlashMs(tr, uid)
        case GnssOn => ActiveMs(tr, OfUid(GnssOn, uid))
        case SensorGravityOn => ActiveMs(tr, OfUid(SensorGravityOn, uid))
        case SensorProximityOn => ActiveMs(tr, OfUid(SensorProximityOn, uid))
        case AudioOn => ActiveMs(tr, OfUid(AudioOn, uid))
        case WakelockHold => ActiveMs(tr, OfUid(WakelockHold, uid))
        case BluetoothBrScan => ActiveMs(tr, OfUid(BluetoothBrScan, uid))
        case BluetoothBleScan => ActiveMs(tr, OfUid(BluetoothBleScan, uid))
        case _ => 0
  }

  /** All six signal levels that have a timer. */
  function SixLevels(tr: Trace, kind: StatsType): int {
    ActiveMs(tr, OfLevel(kind, 0)) + ActiveMs(tr, OfLevel(kind, 1)) + ActiveMs(tr, OfLevel(kind, 2))
    + ActiveMs(tr, OfLevel(kind, 3)) + ActiveMs(tr, OfLevel(kind, 4)) + ActiveMs(tr, OfLevel(kind, 5))
  }

  /** Milliseconds on battery, since the last Reset, during which this level was lit. */
  function LitAtMs(tr: Trace, level: int): nat {
    if tr.Boot? || tr.last.ResetAll? then 0
    else LitAtMs(tr.before, level)
         + if tr.last.Tick? && OnBattery(tr.before) && Lit(tr.before) == level then tr.last.boot else 0
  }

  /** The answer to GetTotalTimeMs(statsType, level); -1 stands for no level. */
  function LevelExpected(tr: Trace, kind: StatsType, level: int): int {
    match kind
    case ScreenOn => ActiveMs(tr, OfKind(ScreenOn))
    case BluetoothBrOn => ActiveMs(tr, OfKind(BluetoothBrOn))
    case BluetoothBleOn => ActiveMs(tr, OfKind(BluetoothBleOn))
    case WifiOn => ActiveMs(tr, OfKind(WifiOn))
    case ScreenBrightness => if level == -1 then LitMs(tr) else if 0 <= level <= 255 then LitAtMs(tr, level) else 0
    case PhoneActive =>
      if level == -1 then SixLevels(tr, kind) else if 0 <= level <= 5 then ActiveMs(tr, OfLevel(kind, level)) else 0
    case PhoneData =>
      if level == -1 then SixLevels(tr, kind) else if 0 <= level <= 5 then ActiveMs(tr, OfLevel(kind, level)) else 0
    case PhoneIdle => OnBatteryUpMs(tr)
    case CpuSuspend => OnBatteryBootMs(tr)
    case _ => 0
  }

  lemma TotalOne(s: State, k: TimerKey, ms: int)
    requires Reading(s, k) == ms
    ensures TotalMs(s, {k}) == ms
  {
    SumPick({k}, j => Reading(s, j), k);
    assert {k} - {k} == {};
  }

  lemma TotalNone(s: State)
    ensures TotalMs(s, {}) == 0
  {}

  lemma OneTimer(env: Env, tr: Trace, k: TimerKey)
    ensures TotalMs(Run(env, tr), {k}) == Charge(tr, k)
  {
    ReadingIsCharge(env, tr, k);
    TotalOne(Run(env, tr), k, Charge(tr, k));
  }

  lemma OneUidTimer(env: Env, tr: Trace, part: UidPart, uid: int)
    ensures TotalMs(Run(env, tr), {UidTimer(part, uid)}) == if uid < 0 then 0 else Charge(tr, UidTimer(part, uid))
  {
    OneTimer(env, tr, UidTimer(part, uid));
    if uid < 0 { NeverCharged(tr, UidTimer(part, uid)); }
  }

  /** Every answer about a uid is the one its events give. */
  lemma {:induction false} UidByName(env: Env, tr: Trace, uid: int, kind: StatsType)
    requires kind != CpuTime
    ensures TotalMs(Run(env, tr), UidKeys(Run(env, tr), uid, kind)) == UidExpected(tr, uid, kind, 0)
  {
    if uid >= 0 {
      UidCharges(tr, uid);
      FlashCharge(tr, uid);
    }
    match kind
    case CameraOn => CameraTimeIsHeld(env, tr, uid);
    case FlashlightOn => OneUidTimer(env, tr, Flashlight, uid);
    case GnssOn => OneUidTimer(env, tr, Gnss, uid);
    case SensorGravityOn => OneUidTimer(env, tr, Gravity, uid);
    case SensorProximityOn => OneUidTimer(env, tr, Proximity, uid);
    case AudioOn => OneUidTimer(env, tr, Audio, uid);
    case WakelockHold => OneUidTimer(env, tr, Wakelock, uid);
    case BluetoothBrScan => OneUidTimer(env, tr, BrScan, uid);
    case BluetoothBleScan => OneUidTimer(env, tr, BleScan, uid);
    case _ => TotalNone(Run(env, tr));
  }

  lemma {:induction false} LitAtIsCharge(tr: Trace, level: int)
    requires level >= 0
    ensures Charge(tr, BrightnessTimer(level)) == LitAtMs(tr, level)
  {
    if tr.Then? { LitAtIsCharge(tr.before, level); }
  }

  lemma OneBrightness(env: Env, tr: Trace, level: int)
    requires level != -1
    ensures TotalMs(Run(env, tr), {BrightnessTimer(level)}) == LevelExpected(tr, ScreenBrightness, level)
  {
    OneTimer(env, tr, BrightnessTimer(level));
    if 0 <= level <= 255 { LitAtIsCharge(tr, level); } else { NeverCharged(tr, BrightnessTimer(level)); }
  }

  lemma OneSignal(env: Env, tr: Trace, level: int)
    requires level != -1
    ensures TotalMs(Run(env, tr), {PhoneOnTimer(level)}) == LevelExpected(tr, PhoneActive, level)
    ensures TotalMs(Run(env, tr), {PhoneDataTimer(level)}) == LevelExpected(tr, PhoneData, level)
  {
    OneTimer(env, tr, PhoneOnTimer(level));
    OneTimer(env, tr, PhoneDataTimer(level));
    if 0 <= level <= 5 {
      PhoneCharges(tr, level);
    } else {
      NeverCharged(tr, PhoneOnTimer(level));
      NeverCharged(tr, PhoneDataTimer(level));
    }
  }

  /** The timers of levels 0..n-1. */
  ghost function Levels(key: int -> TimerKey, n: nat): set<TimerKey> { set l | 0 <= l < n :: key(l) }

  ghost predicate OneToOne(key: int -> TimerKey) { forall i, j :: key(i) == key(j) ==> i == j }

  ghost function SumBelow(s: State, key: int -> TimerKey, n: nat): int {
    if n == 0 then 0 else SumBelow(s, key, n - 1) + Reading(s, key(n - 1))
  }

  lemma {:induction false} LevelsTotal(s: State, key: int -> TimerKey, n: nat)
    requires OneToOne(key)
    ensures TotalMs(s, Levels(key, n)) == SumBelow(s, key, n)
  {
    if n == 0 {
      assert Levels(key, 0) == {};
    } else {
      LevelsTotal(s, key, n - 1);
      SumPick(Levels(key, n), k => Reading(s, k), key(n - 1));
      assert Levels(key, n) - {key(n - 1)} == Levels(key, n - 1);
    }
  }

  /** Of the six timers only those that exist contribute. */
  lemma ExistingTimers(s: State, ks: set<TimerKey>, all: set<TimerKey>)
    requires ks <= all && forall k :: k in all && k in s.timers ==> k in ks
    ensures TotalMs(s, ks) == TotalMs(s, all)
  {
    SumWiden(ks, all, k => Reading(s, k));
  }

  lemma PhoneKeysInRange(env: Env, tr: Trace)
    ensures var s := Run(env, tr);
            && (forall k :: k in LevelKeys(s, PhoneActive, -1) ==> k in Levels(PhoneOnKey, 6))
            && (forall k :: k in LevelKeys(s, PhoneData, -1) ==> k in Levels(PhoneDataKey, 6))
  {
    RunAgrees(env, tr);
    var s := Run(env, tr);
    forall k | k in LevelKeys(s, PhoneActive, -1) ensures k in Levels(PhoneOnKey, 6) {
      assert KeyKnown(k, s.uidPower.Keys) && PhoneOnKey(k.level) == k;
    }
    forall k | k in LevelKeys(s, PhoneData, -1) ensures k in Levels(PhoneDataKey, 6) {
      assert KeyKnown(k, s.uidPower.Keys) && PhoneDataKey(k.level) == k;
    }
  }

  lemma SixCharges(env: Env, tr: Trace, s: State, kind: StatsType, key: int -> TimerKey)
    requires s == Run(env, tr) && OneToOne(key)
    requires forall l :: 0 <= l <= 5 ==> Charge(tr, key(l)) == ActiveMs(tr, OfLevel(kind, l))
    ensures TotalMs(s, Levels(key, 6)) == SixLevels(tr, kind)
  {
    LevelsTotal(s, key, 6);
    forall l | 0 <= l <= 5 ensures Reading(s, key(l)) == ActiveMs(tr, OfLevel(kind, l)) {
      ReadingIsCharge(env, tr, key(l));
    }
    SixSum(s, tr, kind, key);
  }

  lemma SixSum(s: State, tr: Trace, kind: StatsType, key: int -> TimerKey)
    requires forall l :: 0 <= l <= 5 ==> Reading(s, key(l)) == ActiveMs(tr, OfLevel(kind, l))
    ensures SumBelow(s, key, 6) == SixLevels(tr, kind)
  {
    var f := n requires n >= 0 => SumBelow(s, key, n);
    assert f(6) == f(5) + Reading(s, key(5)) && f(5) == f(4) + Reading(s, key(4));
    assert f(4) == f(3) + Reading(s, key(3)) && f(3) == f(2) + Reading(s, key(2));
    assert f(2) == f(1) + Reading(s, key(1)) && f(1) == f(0) + Reading(s, key(0));
  }

  lemma AllSignals(env: Env, tr: Trace)
    ensures var s := Run(env, tr);
            && TotalMs(s, LevelKeys(s, PhoneActive, -1)) == SixLevels(tr, PhoneActive)
            && TotalMs(s, LevelKeys(s, PhoneData, -1)) == SixLevels(tr, PhoneData)
  {
    var s := Run(env, tr);
    PhoneKeysInRange(env, tr);
    ExistingTimers(s, LevelKeys(s, PhoneActive, -1), Levels(PhoneOnKey, 6));
    ExistingTimers(s, LevelKeys(s, PhoneData, -1), Levels(PhoneDataKey, 6));
    forall l | 0 <= l <= 5
      ensures Charge(tr, PhoneOnKey(l)) == ActiveMs(tr, OfLevel(PhoneActive, l))
      ensures Charge(tr, PhoneDataKey(l)) == ActiveMs(tr, OfLevel(PhoneData, l))
    {
      PhoneCharges(tr, l);
    }
    SixCharges(env, tr, s, PhoneActive, PhoneOnKey);
    SixCharges(env, tr, s, PhoneData, PhoneDataKey);
  }

  /** Every answer about a level or a whole component is the one its events give. */
  lemma {:induction false} LevelByName(env: Env, tr: Trace, kind: StatsType, level: int)
    ensures LevelMs(Run(env, tr), kind, level) == LevelExpected(tr, kind, level)
  {
    KindCharges(tr);
    match kind
    case ScreenOn =>
      ScreenCharge(tr);
      OneTimer(env, tr, ScreenTimer);
    case BluetoothBrOn => OneTimer(env, tr, BrTimer);
    case BluetoothBleOn => OneTimer(env, tr, BleTimer);
    case WifiOn => OneTimer(env, tr, WifiTimer);
    case ScreenBrightness =>
      if level == -1 { BrightnessIsIntegral(env, tr); } else { OneBrightness(env, tr, level); }
    case PhoneActive => if level == -1 { AllSignals(env, tr); } else { OneSignal(env, tr, level); }
    case PhoneData => if level == -1 { AllSignals(env, tr); } else { OneSignal(env, tr, level); }
    case PhoneIdle => RunFacts(env, tr);
    case CpuSuspend => RunFacts(env, tr);
    case _ => TotalNone(Run(env, tr));
  }

  // ---- The saved sections ----

  ghost predicate LevelsExpected(tr: Trace, kind: StatsType, times: seq<int>, n: nat) {
    |times| == n && forall l :: 0 <= l < n ==> times[l] == LevelExpected(tr, kind, l)
  }

  ghost predicate HardwareExpected(tr: Trace, h: Hardware) {
    && h.radios.brOn == ActiveMs(tr, OfKind(BluetoothBrOn)) && h.radios.bleOn == ActiveMs(tr, OfKind(BluetoothBleOn))
    && h.screen.on == ActiveMs(tr, OfKind(ScreenOn)) && LevelsExpected(tr, ScreenBrightness, h.screen.brightness, 256)
    && h.wifi.on == ActiveMs(tr, OfKind(WifiOn)) && h.wifi.scans == Amount(tr, OfKind(WifiScan))
    && h.phone.cpuIdle == OnBatteryUpMs(tr)
    && LevelsExpected(tr, PhoneActive, h.phone.radioOn, 5) && LevelsExpected(tr, PhoneData, h.phone.radioData, 5)
  }

  ghost predicate LensExpected(tr: Trace, uid: int, t: LensTimes) {
    t.camera == HeldMs(tr, uid) && t.flashlight == FlashMs(tr, uid)
  }

  ghost predicate HoldExpected(tr: Trace, uid: int, t: HoldTimes) {
    && t.gnss == ActiveMs(tr, OfUid(GnssOn, uid)) && t.audio == ActiveMs(tr, OfUid(AudioOn, uid))
    && t.wakelock == ActiveMs(tr, OfUid(WakelockHold, uid))
  }

  ghost predicate SensorsExpected(tr: Trace, uid: int, t: SensorTimes) {
    && t.gravity == ActiveMs(tr, OfUid(SensorGravityOn, uid))
    && t.proximity == ActiveMs(tr, OfUid(SensorProximityOn, uid))
  }

  ghost predicate ScansExpected(tr: Trace, uid: int, t: ScanTimes) {
    t.br == ActiveMs(tr, OfUid(BluetoothBrScan, uid)) && t.ble == ActiveMs(tr, OfUid(BluetoothBleScan, uid))
  }

  ghost predicate SoftwareExpected(tr: Trace, w: Software) {
    && LensExpected(tr, w.uid, w.common.lens) && HoldExpected(tr, w.uid, w.common.hold)
    && SensorsExpected(tr, w.uid, w.common.sensors) && ScansExpected(tr, w.uid, w.scans)
    && w.common.alarms == Amount(tr, OfUid(Alarm, w.uid))
  }

  lemma LevelsByName(env: Env, tr: Trace, s: State, kind: StatsType, times: seq<int>, n: nat)
    requires s == Run(env, tr) && AreLevels(s, kind, times, n)
    ensures LevelsExpected(tr, kind, times, n)
  {
    forall l | 0 <= l < n ensures times[l] == LevelExpected(tr, kind, l) { LevelByName(env, tr, kind, l); }
  }

  lemma HardwareByName(env: Env, tr: Trace, s: State, h: Hardware)
    requires s == Run(env, tr) && IsHardware(s, h)
    ensures HardwareExpected(tr, h)
  {
    LevelByName(env, tr, BluetoothBrOn, -1);
    LevelByName(env, tr, BluetoothBleOn, -1);
    LevelByName(env, tr, ScreenOn, -1);
    LevelByName(env, tr, WifiOn, -1);
    LevelByName(env, tr, PhoneIdle, -1);
    LevelsByName(env, tr, s, ScreenBrightness, h.screen.brightness, 256);
    LevelsByName(env, tr, s, PhoneActive, h.phone.radioOn, 5);
    LevelsByName(env, tr, s, PhoneData, h.phone.radioData, 5);
    CountIsCounted(env, tr, WifiScans);
    AmountIsCounted(tr, 0);
  }

  lemma UidMsByName(env: Env, tr: Trace, s: State, uid: int, kind: StatsType)
    requires s == Run(env, tr) && kind != CpuTime
    ensures UidMs(s, uid, kind) == UidExpected(tr, uid, kind, 0)
  {
    UidByName(env, tr, uid, kind);
  }

  lemma LensHoldByName(env: Env, tr: Trace, s: State, uid: int, lens: LensTimes, hold: HoldTimes)
    requires s == Run(env, tr) && IsLens(s, uid, lens) && IsHold(s, uid, hold) && uid >= 0
    ensures LensExpected(tr, uid, lens) && HoldExpected(tr, uid, hold)
  {
    UidMsByName(env, tr, s, uid, CameraOn);
    UidMsByName(env, tr, s, uid, FlashlightOn);
    UidMsByName(env, tr, s, uid, GnssOn);
    UidMsByName(env, tr, s, uid, AudioOn);
    UidMsByName(env, tr, s, uid, WakelockHold);
  }

  lemma SensorsScansByName(env: Env, tr: Trace, s: State, uid: int, sensors: SensorTimes, scans: ScanTimes)
    requires s == Run(env, tr) && AreSensors(s, uid, sensors) && AreScans(s, uid, scans) && uid >= 0
    ensures SensorsExpected(tr, uid, sensors) && ScansExpected(tr, uid, scans)
  {
    UidMsByName(env, tr, s, uid, SensorGravityOn);
    UidMsByName(env, tr, s, uid, SensorProximityOn);
    UidMsByName(env, tr, s, uid, BluetoothBrScan);
    UidMsByName(env, tr, s, uid, BluetoothBleScan);
  }

  lemma SoftwareByName(env: Env, tr: Trace, s: State, w: Software)
    requires s == Run(env, tr) && IsSoftware(s, w) && w.uid >= 0
    ensures SoftwareExpected(tr, w)
  {
    LensHoldByName(env, tr, s, w.uid, w.common.lens, w.common.hold);
    SensorsScansByName(env, tr, s, w.uid, w.common.sensors, w.scans);
    CountIsCounted(env, tr, Alarms(w.uid));
    AmountIsCounted(tr, w.uid);
  }

  ghost predicate AllSoftwareExpected(tr: Trace, software: seq<Software>) {
    var uids := Sorted(Known(tr));
    && |software| == |uids|
    && (forall i :: 0 <= i < |uids| ==> software[i].uid == uids[i] && SoftwareExpected(tr, software[i]))
  }

  lemma AllSoftwareByName(env: Env, tr: Trace, s: State, software: seq<Software>)
    requires s == Run(env, tr) && AreSoftware(s, Sorted(s.uidPower.Keys), software)
    ensures AllSoftwareExpected(tr, software)
  {
    RunFacts(env, tr);
    TraceShape(tr);
    var uids := Sorted(Known(tr));
    forall i | 0 <= i < |uids| ensures SoftwareExpected(tr, software[i]) {
      assert uids[i] in uids;
      SoftwareByName(env, tr, s, software[i]);
    }
  }

  /** A roll-up itself takes no time and switches nothing. */
  lemma LevelAfterRollUp(tr: Trace, cpu: map<int, real>, kind: StatsType, level: int)
    ensures LevelExpected(Then(tr, Compute(cpu)), kind, level) == LevelExpected(tr, kind, level)
  {}

  lemma LevelsAfterRollUp(tr: Trace, cpu: map<int, real>, kind: StatsType, times: seq<int>, n: nat)
    requires LevelsExpected(Then(tr, Compute(cpu)), kind, times, n)
    ensures LevelsExpected(tr, kind, times, n)
  {
    forall l | 0 <= l < n ensures times[l] == LevelExpected(tr, kind, l) { LevelAfterRollUp(tr, cpu, kind, l); }
  }

  lemma HardwareAfterRollUp(tr: Trace, cpu: map<int, real>, h: Hardware)
    requires HardwareExpected(Then(tr, Compute(cpu)), h)
    ensures HardwareExpected(tr, h)
  {
    LevelsAfterRollUp(tr, cpu, ScreenBrightness, h.screen.brightness, 256);
    LevelsAfterRollUp(tr, cpu, PhoneActive, h.phone.radioOn, 5);
    LevelsAfterRollUp(tr, cpu, PhoneData, h.phone.radioData, 5);
  }

  lemma SoftwareAfterRollUp(tr: Trace, cpu: map<int, real>, software: seq<Software>)
    requires AllSoftwareExpected(Then(tr, Compute(cpu)), software)
    ensures AllSoftwareExpected(tr, software)
  {
    var uids := Sorted(Known(tr));
    assert Known(Then(tr, Compute(cpu))) == Known(tr);
    forall i | 0 <= i < |uids| ensures SoftwareExpected(tr, software[i]) { OneAfterRollUp(tr, cpu, software[i]); }
  }

  lemma OneAfterRollUp(tr: Trace, cpu: map<int, real>, w: Software)
    ensures SoftwareExpected(Then(tr, Compute(cpu)), w) == SoftwareExpected(tr, w)
  {}

  lemma RunRollUp(env: Env, tr: Trace, cpu: map<int, real>)
    ensures Run(env, Then(tr, Compute(cpu))) == ComputePower(env, Run(env, tr), cpu)
  {}

  /** The sections of a state reached by tr and a roll-up record what tr's events give. */
  lemma SectionsByName(
    env: Env, tr: Trace, cpu: map<int, real>, s: State, hardware: Hardware, software: seq<Software>)
    requires s == Run(env, Then(tr, Compute(cpu)))
    requires IsHardware(s, hardware) && AreSoftware(s, Sorted(s.uidPower.Keys), software)
    ensures HardwareExpected(tr, hardware) && AllSoftwareExpected(tr, software)
  {
    HardwareByName(env, Then(tr, Compute(cpu)), s, hardware);
    AllSoftwareByName(env, Then(tr, Compute(cpu)), s, software);
    HardwareAfterRollUp(tr, cpu, hardware);
    SoftwareAfterRollUp(tr, cpu, software);
  }
}
