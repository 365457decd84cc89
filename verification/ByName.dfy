/**
 * What the service must answer after a run, written out component by component from the run's
 * events: which event type, which current, which level. No table of the service is used here.
 */
module ByName {
  import opened StatsTypes
  import opened CoreSpec
  import opened TraceSpec
  import opened Refinement
  import opened TimeLaws
  import opened Power
  import opened Rollup
  import opened EndToEnd
  import opened Transparency
  import opened PowerStore
  import opened SavedRuns
  import opened Sums

  // ---- Events by type ----

  /** The events of a type: all of them, those of one level, or those of one uid. */
  datatype Source = OfKind(kind: StatsType) | OfLevel(kind: StatsType, level: int) | OfUid(kind: StatsType, uid: int)

  predicate Names(e: Event, src: Source) {
    match e
    case StateEvent(kind, _, level, uid, _) =>
      kind == src.kind && (src.OfLevel? ==> level == src.level) && (src.OfUid? ==> uid == src.uid)
    case DataEvent(kind, _, uid) => kind == src.kind && !src.OfLevel? && (src.OfUid? ==> uid == src.uid)
    case _ => false
  }

  /** The last event of the source since the last Reset that switched anything switched it on. */
  predicate Active(tr: Trace, src: Source) {
    tr.Then? && !tr.last.ResetAll? &&
    if tr.last.StateEvent? && Names(tr.last, src) && tr.last.state != OtherState then tr.last.state == Activated
    else Active(tr.before, src)
  }

  /** Milliseconds on battery during which it was, since the last Reset. */
  function ActiveMs(tr: Trace, src: Source): nat {
    if tr.Boot? || tr.last.ResetAll? then 0
    else ActiveMs(tr.before, src)
         + if tr.last.Tick? && OnBattery(tr.before) && Active(tr.before, src) then tr.last.boot else 0
  }

  /** Counts reported by the source on battery since the last Reset. */
  function Amount(tr: Trace, src: Source): nat {
    if tr.Boot? || tr.last.ResetAll? then 0
    else Amount(tr.before, src)
         + if tr.last.DataEvent? && Names(tr.last, src) && tr.last.data > 0 && OnBattery(tr.before)
           then tr.last.data else 0
  }

  /** uid is on record as the camera's holder. */
  predicate Holds(tr: Trace, uid: int) { !Camera(tr).Closed? && Camera(tr).uid == uid }

  /** A uid's flashlight: its own torch events, the camera's flash while it holds it, off with its camera. */
  predicate FlashOn(tr: Trace, uid: int) {
    tr.Then? && !tr.last.ResetAll? &&
    var p, e := tr.before, tr.last;
    if e.StateEvent? && e.state != OtherState
       && ((e.kind == FlashlightOn && e.uid == uid) || (e.kind == CameraFlashlightOn && Holds(p, uid)))
    then e.state == Activated
    else !(Holds(p, uid) && Camera(tr).Closed?) && FlashOn(p, uid)
  }

  function FlashMs(tr: Trace, uid: int): nat {
    if tr.Boot? || tr.last.ResetAll? then 0
    else FlashMs(tr.before, uid)
         + if tr.last.Tick? && OnBattery(tr.before) && FlashOn(tr.before, uid) then tr.last.boot else 0
  }

  // ---- The timers follow them ----

  ghost predicate Follows(k: TimerKey, src: Source) {
    && (k.UidTimer? ==> k.part != Flashlight)
    && !k.CameraTimer? && !k.ScreenTimer? && !k.BrightnessTimer?
    && forall e :: Addresses(e, k) <==> e.StateEvent? && Names(e, src)
  }

  lemma {:induction false} ActiveIsOn(tr: Trace, k: TimerKey, src: Source)
    requires Follows(k, src)
    ensures On(tr, k) == Active(tr, src)
  {
    if tr.Then? {
      ActiveIsOn(tr.before, k, src);
      assert Addresses(tr.last, k) <==> tr.last.StateEvent? && Names(tr.last, src);
    }
  }

  lemma {:induction false} ChargeIsActive(tr: Trace, k: TimerKey, src: Source)
    requires Follows(k, src)
    ensures Charge(tr, k) == ActiveMs(tr, src)
  {
    if tr.Then? {
      ChargeIsActive(tr.before, k, src);
      ActiveIsOn(tr.before, k, src);
    }
  }

  lemma UidCharge(tr: Trace, part: UidPart, kind: StatsType, uid: int)
    requires uid >= 0 && part != Flashlight && PartType(part) == kind
    ensures Charge(tr, UidTimer(part, uid)) == ActiveMs(tr, OfUid(kind, uid))
  {
    ChargeIsActive(tr, UidTimer(part, uid), OfUid(kind, uid));
  }

  lemma UidCharges(tr: Trace, uid: int)
    requires uid >= 0
    ensures Charge(tr, UidTimer(Gnss, uid)) == ActiveMs(tr, OfUid(GnssOn, uid))
    ensures Charge(tr, UidTimer(Gravity, uid)) == ActiveMs(tr, OfUid(SensorGravityOn, uid))
    ensures Charge(tr, UidTimer(Proximity, uid)) == ActiveMs(tr, OfUid(SensorProximityOn, uid))
    ensures Charge(tr, UidTimer(Audio, uid)) == ActiveMs(tr, OfUid(AudioOn, uid))
    ensures Charge(tr, UidTimer(Wakelock, uid)) == ActiveMs(tr, OfUid(WakelockHold, uid))
    ensures Charge(tr, UidTimer(BrScan, uid)) == ActiveMs(tr, OfUid(BluetoothBrScan, uid))
    ensures Charge(tr, UidTimer(BleScan, uid)) == ActiveMs(tr, OfUid(BluetoothBleScan, uid))
  {
    UidCharge(tr, Gnss, GnssOn, uid);
    UidCharge(tr, Gravity, SensorGravityOn, uid);
    UidCharge(tr, Proximity, SensorProximityOn, uid);
    UidCharge(tr, Audio, AudioOn, uid);
    UidCharge(tr, Wakelock, WakelockHold, uid);
    UidCharge(tr, BrScan, BluetoothBrScan, uid);
    UidCharge(tr, BleScan, BluetoothBleScan, uid);
  }

  lemma KindCharges(tr: Trace)
    ensures Charge(tr, BrTimer) == ActiveMs(tr, OfKind(BluetoothBrOn))
    ensures Charge(tr, BleTimer) == ActiveMs(tr, OfKind(BluetoothBleOn))
    ensures Charge(tr, WifiTimer) == ActiveMs(tr, OfKind(WifiOn))
  {
    ChargeIsActive(tr, BrTimer, OfKind(BluetoothBrOn));
    ChargeIsActive(tr, BleTimer, OfKind(BluetoothBleOn));
    ChargeIsActive(tr, WifiTimer, OfKind(WifiOn));
  }

  lemma PhoneCharges(tr: Trace, level: int)
    requires 0 <= level <= 5
    ensures Charge(tr, PhoneOnTimer(level)) == ActiveMs(tr, OfLevel(PhoneActive, level))
    ensures Charge(tr, PhoneDataTimer(level)) == ActiveMs(tr, OfLevel(PhoneData, level))
  {
    ChargeIsActive(tr, PhoneOnTimer(level), OfLevel(PhoneActive, level));
    ChargeIsActive(tr, PhoneDataTimer(level), OfLevel(PhoneData, level));
  }

  lemma {:induction false} FlashIsOn(tr: Trace, uid: int)
    requires uid >= 0
    ensures On(tr, UidTimer(Flashlight, uid)) == FlashOn(tr, uid)
  {
    if tr.Then? { FlashIsOn(tr.before, uid); }
  }

  lemma {:induction false} FlashCharge(tr: Trace, uid: int)
    requires uid >= 0
    ensures Charge(tr, UidTimer(Flashlight, uid)) == FlashMs(tr, uid)
  {
    if tr.Then? {
      FlashCharge(tr.before, uid);
      FlashIsOn(tr.before, uid);
    }
  }

  /** No event switches a timer of a negative uid or of a level out of range. */
  lemma {:induction false} NeverCharged(tr: Trace, k: TimerKey)
    requires (k.UidTimer? && k.uid < 0) || ((k.PhoneOnTimer? || k.PhoneDataTimer?) && !(0 <= k.level <= 5))
             || (k.BrightnessTimer? && !(0 <= k.level <= 255))
    ensures !On(tr, k) && Charge(tr, k) == 0
  {
    TraceShape(tr);
    if tr.Then? { NeverCharged(tr.before, k); }
  }

  lemma {:induction false} AmountIsCounted(tr: Trace, uid: int)
    requires uid >= 0
    ensures Counted(tr, WifiScans) == Amount(tr, OfKind(WifiScan))
    ensures Counted(tr, Alarms(uid)) == Amount(tr, OfUid(Alarm, uid))
  {
    if tr.Then? { AmountIsCounted(tr.before, uid); }
  }

  // ---- Powers ----

  function Amps(p: Profile, c: Current): real {
    if c in p.average then p.average[c] else 0.0
  }

  function AmpsAt(p: Profile, c: Current, level: nat): real {
    if c in p.averageVec && level < |p.averageVec[c]| then p.averageVec[c][level] else 0.0
  }

  /** Milliampere hours of a current over some milliseconds. */
  function MaH(ma: real, ms: nat): real { ma * (ms as real) / 3600000.0 }

  /** A uid's power: its nine timed components, its cpu power and its alarms. */
  function AppExpected(env: Env, tr: Trace, cpu: map<int, real>, uid: int): real {
    var p := env.profile;
    MaH(Amps(p, CameraMa), HeldMs(tr, uid))
    + MaH(Amps(p, FlashlightMa), FlashMs(tr, uid))
    + MaH(Amps(p, AudioMa), ActiveMs(tr, OfUid(AudioOn, uid)))
    + MaH(Amps(p, GravityMa), ActiveMs(tr, OfUid(SensorGravityOn, uid)))
    + MaH(Amps(p, ProximityMa), ActiveMs(tr, OfUid(SensorProximityOn, uid)))
    + MaH(Amps(p, GnssMa), ActiveMs(tr, OfUid(GnssOn, uid)))
    + MaH(Amps(p, WakelockMa), ActiveMs(tr, OfUid(WakelockHold, uid)))
    + MaH(Amps(p, BrScanMa), ActiveMs(tr, OfUid(BluetoothBrScan, uid)))
    + MaH(Amps(p, BleScanMa), ActiveMs(tr, OfUid(BluetoothBleScan, uid)))
    + (if uid in cpu then cpu[uid] else 0.0)
    + Amps(p, AlarmMa) * (Amount(tr, OfUid(Alarm, uid)) as real)
  }

  function BluetoothExpected(env: Env, tr: Trace, cpu: map<int, real>): real {
    MaH(Amps(env.profile, BrOnMa), ActiveMs(tr, OfKind(BluetoothBrOn)))
    + MaH(Amps(env.profile, BleOnMa), ActiveMs(tr, OfKind(BluetoothBleOn)))
    + if env.bluetoothUid.Some? && env.bluetoothUid.value in Known(tr)
      then AppExpected(env, tr, cpu, env.bluetoothUid.value) else 0.0
  }

  function IdleExpected(env: Env, tr: Trace): real {
    MaH(Amps(env.profile, CpuSuspendMa), OnBatteryBootMs(tr)) + MaH(Amps(env.profile, CpuIdleMa), OnBatteryUpMs(tr))
  }

  /** Signal level l, on and carrying data. */
  function SignalExpected(env: Env, tr: Trace, l: nat): real {
    MaH(AmpsAt(env.profile, RadioOnMa, l), ActiveMs(tr, OfLevel(PhoneActive, l)))
    + MaH(AmpsAt(env.profile, RadioDataMa, l), ActiveMs(tr, OfLevel(PhoneData, l)))
  }

  function PhoneExpected(env: Env, tr: Trace): real {
    SignalExpected(env, tr, 0) + SignalExpected(env, tr, 1) + SignalExpected(env, tr, 2)
    + SignalExpected(env, tr, 3) + SignalExpected(env, tr, 4)
  }

  function WifiExpected(env: Env, tr: Trace): real {
    MaH(Amps(env.profile, WifiOnMa), ActiveMs(tr, OfKind(WifiOn)))
    + Amps(env.profile, WifiScanMa) * (Amount(tr, OfKind(WifiScan)) as real)
  }

  lemma HoursByName(ma: real, ms: nat)
    ensures Draw(ma, ms) / 3600000.0 == MaH(ma, ms) && Draw(ma, ms) == ma * (ms as real)
  {
    DrawIsProduct(ma, ms);
  }

  lemma PartByName(env: Env, tr: Trace, part: UidPart, uid: int, c: Current, ms: nat)
    requires PartMa(part) == c && Charge(tr, UidTimer(part, uid)) == ms
    ensures PartDraw(env, tr, part, uid) / 3600000.0 == MaH(Amps(env.profile, c), ms)
  {
    HoursByName(env.profile.Ma(c), ms);
  }

  lemma PartsListed(env: Env, tr: Trace, uid: int)
    ensures PartsDraw(env, tr, uid, 8) ==
            PartDraw(env, tr, Flashlight, uid) + PartDraw(env, tr, Audio, uid) + PartDraw(env, tr, Gravity, uid)
            + PartDraw(env, tr, Proximity, uid) + PartDraw(env, tr, Gnss, uid) + PartDraw(env, tr, Wakelock, uid)
            + PartDraw(env, tr, BrScan, uid) + PartDraw(env, tr, BleScan, uid)
  {
    var f := n requires 0 <= n <= |PARTS| => PartsDraw(env, tr, uid, n);
    assert f(8) == f(7) + PartDraw(env, tr, BleScan, uid);
    assert f(7) == f(6) + PartDraw(env, tr, BrScan, uid);
    assert f(6) == f(5) + PartDraw(env, tr, Wakelock, uid);
    assert f(5) == f(4) + PartDraw(env, tr, Gnss, uid);
    assert f(4) == f(3) + PartDraw(env, tr, Proximity, uid);
    assert f(3) == f(2) + PartDraw(env, tr, Gravity, uid);
    assert f(2) == f(1) + PartDraw(env, tr, Audio, uid);
    assert f(1) == f(0) + PartDraw(env, tr, Flashlight, uid);
  }

  /** Division by the milliseconds of an hour, term by term. */
  lemma NineTerms(a: real, b: real, c: real, d: real, e: real, f: real, g: real, h: real, i: real)
    ensures (a + (b + c + d + e + f + g + h + i)) / 3600000.0 ==
            a / 3600000.0 + b / 3600000.0 + c / 3600000.0 + d / 3600000.0 + e / 3600000.0
            + f / 3600000.0 + g / 3600000.0 + h / 3600000.0 + i / 3600000.0
  {}

  lemma TimedByName(env: Env, tr: Trace, uid: int)
    requires uid >= 0
    ensures var p := env.profile;
            AppEnergy(env, tr, uid) / 3600000.0 ==
            MaH(Amps(p, CameraMa), HeldMs(tr, uid))
            + MaH(Amps(p, FlashlightMa), FlashMs(tr, uid))
            + MaH(Amps(p, AudioMa), ActiveMs(tr, OfUid(AudioOn, uid)))
            + MaH(Amps(p, GravityMa), ActiveMs(tr, OfUid(SensorGravityOn, uid)))
            + MaH(Amps(p, ProximityMa), ActiveMs(tr, OfUid(SensorProximityOn, uid)))
            + MaH(Amps(p, GnssMa), ActiveMs(tr, OfUid(GnssOn, uid)))
            + MaH(Amps(p, WakelockMa), ActiveMs(tr, OfUid(WakelockHold, uid)))
            + MaH(Amps(p, BrScanMa), ActiveMs(tr, OfUid(BluetoothBrScan, uid)))
            + MaH(Amps(p, BleScanMa), ActiveMs(tr, OfUid(BluetoothBleScan, uid)))
  {
    AppEnergySplits(env, tr, uid);
    PartsListed(env, tr, uid);
    NineTerms(Draw(env.profile.Ma(CameraMa), HeldMs(tr, uid)), PartDraw(env, tr, Flashlight, uid),
              PartDraw(env, tr, Audio, uid), PartDraw(env, tr, Gravity, uid), PartDraw(env, tr, Proximity, uid),
              PartDraw(env, tr, Gnss, uid), PartDraw(env, tr, Wakelock, uid), PartDraw(env, tr, BrScan, uid),
              PartDraw(env, tr, BleScan, uid));
    HoursByName(env.profile.Ma(CameraMa), HeldMs(tr, uid));
    FlashCharge(tr, uid);
    UidCharges(tr, uid);
    PartByName(env, tr, Flashlight, uid, FlashlightMa, FlashMs(tr, uid));
    PartByName(env, tr, Audio, uid, AudioMa, ActiveMs(tr, OfUid(AudioOn, uid)));
    PartByName(env, tr, Gravity, uid, GravityMa, ActiveMs(tr, OfUid(SensorGravityOn, uid)));
    PartByName(env, tr, Proximity, uid, ProximityMa, ActiveMs(tr, OfUid(SensorProximityOn, uid)));
    PartByName(env, tr, Gnss, uid, GnssMa, ActiveMs(tr, OfUid(GnssOn, uid)));
    PartByName(env, tr, Wakelock, uid, WakelockMa, ActiveMs(tr, OfUid(WakelockHold, uid)));
    PartByName(env, tr, BrScan, uid, BrScanMa, ActiveMs(tr, OfUid(BluetoothBrScan, uid)));
    PartByName(env, tr, BleScan, uid, BleScanMa, ActiveMs(tr, OfUid(BluetoothBleScan, uid)));
  }

  /** An app's power is its components' by name, each with its own current and its own events. */
  lemma {:induction false} AppByName(env: Env, tr: Trace, cpu: map<int, real>, uid: int)
    requires uid >= 0
    ensures AppTraceMah(env, tr, cpu, uid) == AppExpected(env, tr, cpu, uid)
  {
    TimedByName(env, tr, uid);
    AmountIsCounted(tr, uid);
    HoursByName(env.profile.Ma(AlarmMa), Amount(tr, OfUid(Alarm, uid)));
  }

  lemma SignalByName(env: Env, tr: Trace, n: nat)
    requires n < 5
    ensures RadioOnTrace(env, tr, n + 1) + RadioDataTrace(env, tr, n + 1) ==
            RadioOnTrace(env, tr, n) + RadioDataTrace(env, tr, n) + SignalExpected(env, tr, n)
  {
    PhoneCharges(tr, n);
    HoursByName(env.profile.LevelMa(RadioOnMa, n), Charge(tr, PhoneOnTimer(n)));
    HoursByName(env.profile.LevelMa(RadioDataMa, n), Charge(tr, PhoneDataTimer(n)));
  }

  lemma PhoneByName(env: Env, tr: Trace)
    ensures PhoneTrace(env, tr) == PhoneExpected(env, tr)
  {
    var f := n requires n >= 0 => RadioOnTrace(env, tr, n) + RadioDataTrace(env, tr, n);
    assert f(0) == 0.0;
    SignalByName(env, tr, 0);
    SignalByName(env, tr, 1);
    SignalByName(env, tr, 2);
    SignalByName(env, tr, 3);
    SignalByName(env, tr, 4);
    assert f(5) == f(4) + SignalExpected(env, tr, 4);
    assert f(4) == f(3) + SignalExpected(env, tr, 3);
    assert f(3) == f(2) + SignalExpected(env, tr, 2);
    assert f(2) == f(1) + SignalExpected(env, tr, 1);
    assert f(1) == f(0) + SignalExpected(env, tr, 0);
  }

  lemma HoursOfKind(tr: Trace, ma: real, k: TimerKey, kind: StatsType)
    requires Charge(tr, k) == ActiveMs(tr, OfKind(kind))
    ensures Hours(ma, Charge(tr, k)) == MaH(ma, ActiveMs(tr, OfKind(kind)))
  {
    HoursByName(ma, Charge(tr, k));
  }

  lemma WifiByName(env: Env, tr: Trace)
    ensures WifiTrace(env, tr) == WifiExpected(env, tr)
  {
    KindCharges(tr);
    HoursOfKind(tr, env.profile.Ma(WifiOnMa), WifiTimer, WifiOn);
    AmountIsCounted(tr, 0);
    HoursByName(env.profile.Ma(WifiScanMa), Amount(tr, OfKind(WifiScan)));
  }

  lemma BluetoothByName(env: Env, tr: Trace, cpu: map<int, real>)
    ensures BluetoothTrace(env, tr, cpu) == BluetoothExpected(env, tr, cpu)
  {
    KindCharges(tr);
    HoursOfKind(tr, env.profile.Ma(BrOnMa), BrTimer, BluetoothBrOn);
    HoursOfKind(tr, env.profile.Ma(BleOnMa), BleTimer, BluetoothBleOn);
    if env.bluetoothUid.Some? && env.bluetoothUid.value in Known(tr) {
      TraceShape(tr);
      AppByName(env, tr, cpu, env.bluetoothUid.value);
    }
  }

  lemma IdleByName(env: Env, tr: Trace)
    ensures IdleTrace(env, tr) == IdleExpected(env, tr)
  {
    HoursByName(env.profile.Ma(CpuSuspendMa), OnBatteryBootMs(tr));
    HoursByName(env.profile.Ma(CpuIdleMa), OnBatteryUpMs(tr));
  }

  /** The screen's on-current while it is on, and its brightness current for each level lit. */
  function ScreenExpected(env: Env, tr: Trace): real {
    MaH(Amps(env.profile, ScreenOnMa), ActiveMs(tr, OfKind(ScreenOn)))
    + Amps(env.profile, ScreenBrightnessMa) * (LitUnits(tr) as real) / 3600000.0
  }

  lemma {:induction false} ScreenIsActive(tr: Trace)
    ensures ScreenCharging(tr) == Active(tr, OfKind(ScreenOn))
  {
    if tr.Then? { ScreenIsActive(tr.before); }
  }

  lemma {:induction false} ScreenCharge(tr: Trace)
    ensures Charge(tr, ScreenTimer) == ActiveMs(tr, OfKind(ScreenOn))
  {
    if tr.Then? {
      ScreenCharge(tr.before);
      ScreenIsActive(tr.before);
    }
  }

  lemma ScreenByName(env: Env, tr: Trace)
    ensures ScreenEnergy(env, tr) / 3600000.0 == ScreenExpected(env, tr)
  {
    ScreenEnergySplits(env, tr);
    ScreenCharge(tr);
    HoursByName(env.profile.Ma(ScreenOnMa), Charge(tr, ScreenTimer));
    HoursByName(env.profile.Ma(ScreenBrightnessMa), LitUnits(tr));
  }

  // ---- The published powers ----

  ghost predicate AppsExpected(env: Env, tr: Trace, cpu: map<int, real>, list: seq<Info>) {
    forall uid :: AppStatsMah(list, uid) == if uid in Known(tr) then AppExpected(env, tr, cpu, uid) else 0.0
  }

  /** The getters' answers after a roll-up, by the numbers of the entry types. */
  ghost predicate AnswersExpected(env: Env, tr: Trace, cpu: map<int, real>, list: seq<Info>) {
    && AppsExpected(env, tr, cpu, list)
    && PartStatsMah(list, -15) == BluetoothExpected(env, tr, cpu)
    && PartStatsMah(list, -14) == IdleExpected(env, tr)
    && PartStatsMah(list, -13) == PhoneExpected(env, tr)
    && PartStatsMah(list, -11) == ScreenExpected(env, tr)
    && PartStatsMah(list, -9) == WifiExpected(env, tr)
  }

  lemma AppsByName(env: Env, tr: Trace, cpu: map<int, real>, list: seq<Info>)
    requires forall uid :: AppStatsMah(list, uid) == if uid in Known(tr) then AppTraceMah(env, tr, cpu, uid) else 0.0
    ensures AppsExpected(env, tr, cpu, list)
  {
    TraceShape(tr);
    forall uid ensures AppStatsMah(list, uid) == if uid in Known(tr) then AppExpected(env, tr, cpu, uid) else 0.0 {
      if uid in Known(tr) { AppByName(env, tr, cpu, uid); }
    }
  }

  lemma PartsByName(env: Env, tr: Trace, cpu: map<int, real>)
    ensures PartsTrace(env, tr, cpu) ==
            Parts(BluetoothExpected(env, tr, cpu), IdleExpected(env, tr), PhoneExpected(env, tr),
                  ScreenExpected(env, tr), WifiExpected(env, tr))
  {
    BluetoothByName(env, tr, cpu);
    WifiByName(env, tr);
    IdleByName(env, tr);
    PhoneByName(env, tr);
    ScreenByName(env, tr);
  }

  lemma ListByName(env: Env, tr: Trace, cpu: map<int, real>, list: seq<Info>, total: real)
    requires Faithful(env, tr, cpu, list, total)
    ensures AnswersExpected(env, tr, cpu, list)
  {
    AppsByName(env, tr, cpu, list);
    PartsByName(env, tr, cpu);
    assert IsPart(-15) && IsPart(-14) && IsPart(-13) && IsPart(-11) && IsPart(-9);
  }

  /** After any run and a roll-up every app and every part has the power its events drew, by name. */
  lemma {:induction false} PublishedByName(env: Env, tr: Trace, cpu: map<int, real>)
    ensures AnswersExpected(env, tr, cpu, Run(env, Then(tr, Compute(cpu))).list)
  {
    PublishedFromTrace(env, tr, cpu);
    ListByName(env, tr, cpu, Run(env, Then(tr, Compute(cpu))).list, Run(env, Then(tr, Compute(cpu))).total);
  }

  // ---- The published list ----

  ghost predicate PartIs(e: Info, kind: int, power: real) { e == Info(-1, -1, kind, power) }

  /** An APP entry for each uid ever named, in ascending order. */
  ghost predicate AppsListed(env: Env, tr: Trace, cpu: map<int, real>, apps: seq<Info>) {
    var uids := Sorted(Known(tr));
    && |apps| == |uids|
    && forall i :: 0 <= i < |uids| ==> apps[i] == Info(uids[i], -1, -16, AppExpected(env, tr, cpu, uids[i]))
  }

  /** Then the parts, bluetooth first. */
  ghost predicate FiveListed(env: Env, tr: Trace, cpu: map<int, real>, parts: seq<Info>) {
    && |parts| == 5
    && PartIs(parts[0], -15, BluetoothExpected(env, tr, cpu)) && PartIs(parts[1], -14, IdleExpected(env, tr))
    && PartIs(parts[2], -13, PhoneExpected(env, tr)) && PartIs(parts[3], -11, ScreenExpected(env, tr))
    && PartIs(parts[4], -9, WifiExpected(env, tr))
  }

  /** Then a USER entry for each account of such a uid, in ascending order, with all it was ever billed. */
  ghost predicate UsersListed(env: Env, tr: Trace, cpu: map<int, real>, accounts: seq<int>, users: seq<Info>) {
    && Ascending(accounts) && (forall a :: a in accounts <==> exists u :: u in Known(tr) && env.account(u) == a)
    && |users| == |accounts|
    && forall i :: 0 <= i < |users| ==>
         users[i] == Info(-1, if accounts[i] > -1 then accounts[i] else -1, -10,
                          AccountLedger(env, Then(tr, Compute(cpu)), accounts[i]))
  }

  lemma ListedApps(env: Env, tr: Trace, cpu: map<int, real>)
    ensures var uids := Sorted(Known(tr)); AppsListed(env, tr, cpu, AppEntries(uids, UidTrace(env, tr, cpu), |uids|))
  {
    TraceShape(tr);
    var uids, power := Sorted(Known(tr)), UidTrace(env, tr, cpu);
    forall i | 0 <= i < |uids| ensures uids[i] in power && uids[i] >= 0 { assert uids[i] in uids; }
    AppEntriesShape(uids, power, |uids|);
    forall i | 0 <= i < |uids| ensures power[uids[i]] == AppExpected(env, tr, cpu, uids[i]) {
      AppByName(env, tr, cpu, uids[i]);
    }
  }

  lemma AccountsOfKnown(env: Env, tr: Trace, cpu: map<int, real>, base: State, a: int)
    requires base.userPower == Run(env, tr).userPower
    ensures a in Publish(base, env.account, UidTrace(env, tr, cpu), PartsTrace(env, tr, cpu)).userPower <==>
            exists u :: u in Known(tr) && env.account(u) == a
  {
    AccountsKnown(env, tr);
    assert UidTrace(env, tr, cpu).Keys == Known(tr);
    FreshAt(base.userPower, env.account, UidTrace(env, tr, cpu), a);
  }

  lemma ListedUsers(env: Env, tr: Trace, cpu: map<int, real>, m: map<int, real>)
    requires m == Run(env, Then(tr, Compute(cpu))).userPower
    requires forall a :: a in m <==> exists u :: u in Known(tr) && env.account(u) == a
    ensures var accounts := Sorted(m.Keys); UsersListed(env, tr, cpu, accounts, UserEntries(accounts, m, |accounts|))
  {
    var accounts := Sorted(m.Keys);
    UserEntriesShape(accounts, m, |accounts|);
    forall i | 0 <= i < |accounts| ensures m[accounts[i]] == AccountLedger(env, Then(tr, Compute(cpu)), accounts[i]) {
      assert accounts[i] in accounts;
      UserPowerIsLedger(env, Then(tr, Compute(cpu)), accounts[i]);
    }
  }

  lemma PartsOfTrace(env: Env, tr: Trace, cpu: map<int, real>)
    ensures FiveListed(env, tr, cpu, PartsTrace(env, tr, cpu).Entries())
  {
    PartsByName(env, tr, cpu);
  }

  lemma AccountsAfter(env: Env, tr: Trace, cpu: map<int, real>, a: int)
    ensures a in Run(env, Then(tr, Compute(cpu))).userPower <==> exists u :: u in Known(tr) && env.account(u) == a
  {
    var base := ComputeIsPublish(env, tr, cpu);
    AccountsOfKnown(env, tr, cpu, base, a);
  }

  lemma AccountsListed(env: Env, tr: Trace, cpu: map<int, real>, m: map<int, real>)
    requires m == Run(env, Then(tr, Compute(cpu))).userPower
    ensures var accounts := Sorted(m.Keys); UsersListed(env, tr, cpu, accounts, UserEntries(accounts, m, |accounts|))
  {
    forall a ensures a in m <==> exists u :: u in Known(tr) && env.account(u) == a { AccountsAfter(env, tr, cpu, a); }
    ListedUsers(env, tr, cpu, m);
  }

  lemma FrontOfList(env: Env, tr: Trace, cpu: map<int, real>, list: seq<Info>, total: real)
    returns (apps: seq<Info>, parts: seq<Info>)
    requires Faithful(env, tr, cpu, list, total)
    ensures NonUser(list) == apps + parts
    ensures AppsListed(env, tr, cpu, apps) && FiveListed(env, tr, cpu, parts)
  {
    var uids := Sorted(Known(tr));
    ListedApps(env, tr, cpu);
    PartsOfTrace(env, tr, cpu);
    apps, parts := AppEntries(uids, UidTrace(env, tr, cpu), |uids|), PartsTrace(env, tr, cpu).Entries();
  }

  lemma BackOfList(env: Env, tr: Trace, cpu: map<int, real>, list: seq<Info>)
    returns (accounts: seq<int>, users: seq<Info>)
    requires list == Run(env, Then(tr, Compute(cpu))).list
    ensures list == NonUser(list) + users && UsersListed(env, tr, cpu, accounts, users)
  {
    var m := Run(env, Then(tr, Compute(cpu))).userPower;
    var base := ComputeIsPublish(env, tr, cpu);
    UidsAreTraced(env, tr, cpu);
    RollUpUsers(base, env.account, UidTrace(env, tr, cpu), PartsTrace(env, tr, cpu));
    AccountsListed(env, tr, cpu, m);
    accounts := Sorted(m.Keys);
    users := UserEntries(accounts, m, |accounts|);
  }

  /** The whole list a roll-up publishes after any run, entry by entry. */
  lemma {:induction false} ListFromTrace(env: Env, tr: Trace, cpu: map<int, real>)
    returns (apps: seq<Info>, parts: seq<Info>, accounts: seq<int>, users: seq<Info>)
    ensures Run(env, Then(tr, Compute(cpu))).list == apps + parts + users
    ensures AppsListed(env, tr, cpu, apps) && FiveListed(env, tr, cpu, parts)
    ensures UsersListed(env, tr, cpu, accounts, users)
  {
    var list := Run(env, Then(tr, Compute(cpu))).list;
    PublishedFromTrace(env, tr, cpu);
    apps, parts := FrontOfList(env, tr, cpu, list, Run(env, Then(tr, Compute(cpu))).total);
    accounts, users := BackOfList(env, tr, cpu, list);
  }
}
