/** BatteryStatsCore as a state and one function per public operation. */
module CoreSpec {
  import opened StatsTypes
  import opened StatsHelperSpec
  import opened Sums

  datatype State = State(
    clock: Clock,
    timers: map<TimerKey, Timer>,
    counters: map<CounterKey, int>,
    cameraOn: bool, cameraUid: int,
    screenOn: bool, level: int,
    uidPower: map<int, real>, userPower: map<int, real>,
    brMah: real, bleMah: real,
    total: real, list: seq<Info>)

  ghost predicate Running(s: State, k: TimerKey) {
    k in s.timers && s.timers[k].running
  }

  /** What GetRunningTimeMs answers for the timer of k; a timer never created reads as 0. */
  ghost function Reading(s: State, k: TimerKey): int {
    if k in s.timers then s.timers[k].Elapsed(s.clock.BootMs()) else 0
  }

  ghost function CountOf(s: State, c: CounterKey): int {
    if c in s.counters then s.counters[c] else 0
  }

  // ---- Timers ----

  function Fetch(timers: map<TimerKey, Timer>, k: TimerKey): Timer {
    if k in timers then timers[k] else NEW_TIMER
  }

  function Switched(t: Timer, st: StatsState, now: int): Timer {
    match st
    case Activated => t.Start(now)
    case Deactivated => t.Stop(now)
    case OtherState => t
  }

  /** GetOrCreateTimer on k, then StartRunning, StopRunning or nothing. */
  function Switch(s: State, k: TimerKey, st: StatsState): State {
    s.(timers := s.timers[k := Switched(Fetch(s.timers, k), st, s.clock.BootMs())])
  }

  /** The timer UpdateTimer and UpdatePhoneStats find for an event, None where GetOrCreateTimer gives nullptr. */
  function TimerFor(kind: StatsType, level: int, uid: int): Option<TimerKey> {
    var perUid := part => if uid > INVALID_VALUE then Some(UidTimer(part, uid)) else None;
    var inRange := INVALID_VALUE < level <= RADIO_SIGNAL_BIN;
    match kind
    case BluetoothBrOn => Some(BrTimer)
    case BluetoothBleOn => Some(BleTimer)
    case WifiOn => Some(WifiTimer)
    case BluetoothBrScan => perUid(BrScan)
    case BluetoothBleScan => perUid(BleScan)
    case FlashlightOn => perUid(Flashlight)
    case GnssOn => perUid(Gnss)
    case SensorGravityOn => perUid(Gravity)
    case SensorProximityOn => perUid(Proximity)
    case AudioOn => perUid(Audio)
    case WakelockHold => perUid(Wakelock)
    case PhoneActive => if inRange then Some(PhoneOnTimer(level)) else None
    case PhoneData => if inRange then Some(PhoneDataTimer(level)) else None
    case _ => None
  }

  function UpdateTimer(s: State, kind: StatsType, st: StatsState, level: int, uid: int): State {
    match TimerFor(kind, level, uid)
    case Some(k) => Switch(s, k, st)
    case None => s
  }

  // ---- Camera ----

  function UpdateCameraTimer(s: State, st: StatsState, uid: int, device: string): State {
    if uid <= INVALID_VALUE || device == "" then s else
    var k := CameraTimer(device, uid);
    var was := Fetch(s.timers, k).running;
    var s1 := Switch(s, k, st);
    if st == Activated && !was then s1.(cameraOn := true, cameraUid := uid)
    else if st == Deactivated && was then
      UpdateTimer(s1, FlashlightOn, Deactivated, INVALID_VALUE, s.cameraUid)
        .(cameraOn := false, cameraUid := INVALID_VALUE)
    else s1
  }

  function UpdateCamera(s: State, kind: StatsType, st: StatsState, uid: int, device: string): State {
    if kind == CameraOn then
      if st == Activated then
        if s.cameraOn then s else UpdateCameraTimer(s, st, uid, device)
      else if st == Deactivated then
        if !s.cameraOn then s else UpdateCameraTimer(s, st, s.cameraUid, device)
      else s
    else if kind == CameraFlashlightOn then
      if !s.cameraOn then s else UpdateTimer(s, FlashlightOn, st, INVALID_VALUE, s.cameraUid)
    else s
  }

  // ---- Screen ----

  predicate ValidLevel(level: int) { INVALID_VALUE < level <= SCREEN_BRIGHTNESS_BIN }

  function SwitchBrightness(s: State, level: int, st: StatsState): State {
    if ValidLevel(level) then Switch(s, BrightnessTimer(level), st) else s
  }

  function UpdateScreenTimer(s: State, st: StatsState): State {
    var s1 := SwitchBrightness(Switch(s, ScreenTimer, st), s.level, st);
    match st
    case Activated => s1.(screenOn := true)
    case Deactivated => s1.(screenOn := false)
    case OtherState => s1
  }

  function UpdateBrightnessTimer(s: State, level: int): State {
    if level <= INVALID_VALUE || level > SCREEN_BRIGHTNESS_BIN then s
    else if s.level <= INVALID_VALUE || level == s.level then
      SwitchBrightness(s, level, Activated).(level := level)
    else
      SwitchBrightness(SwitchBrightness(s, s.level, Deactivated), level, Activated).(level := level)
  }

  function UpdateScreen(s: State, kind: StatsType, st: StatsState, level: int): State {
    if kind == ScreenOn then UpdateScreenTimer(s, st)
    else if kind == ScreenBrightness then
      if !s.screenOn then s else UpdateBrightnessTimer(s, level)
    else s
  }

  // ---- UpdateStats ----

  function UpdateUidMap(s: State, uid: int): State {
    if uid > INVALID_VALUE && uid !in s.uidPower then s.(uidPower := s.uidPower[uid := 0.0]) else s
  }

  /** The switch of UpdateStats. */
  function Dispatch(s: State, kind: StatsType, st: StatsState, level: int, uid: int, device: string): State {
    match kind
    case ScreenOn => UpdateScreen(s, kind, st, level)
    case ScreenBrightness => UpdateScreen(s, kind, st, level)
    case CameraOn => UpdateCamera(s, kind, st, uid, device)
    case CameraFlashlightOn => UpdateCamera(s, kind, st, uid, device)
    case _ => UpdateTimer(s, kind, st, level, uid)
  }

  function UpdateState(s: State, kind: StatsType, st: StatsState, level: int, uid: int, device: string): State {
    Dispatch(UpdateUidMap(s, uid), kind, st, level, uid, device)
  }

  /** The counter UpdateCounter finds; an alarm without a uid is counted under -1. */
  function CounterFor(kind: StatsType, uid: int): Option<CounterKey> {
    match kind
    case WifiScan => Some(WifiScans)
    case Alarm => Some(Alarms(if uid > INVALID_VALUE then uid else INVALID_VALUE))
    case _ => None
  }

  function UpdateData(s: State, kind: StatsType, data: int, uid: int): State {
    var s1 := UpdateUidMap(s, uid);
    match CounterFor(kind, uid)
    case Some(c) =>
      var before := if c in s1.counters then s1.counters[c] else 0;
      s1.(counters := s1.counters[c := AddCount(before, data, s1.clock.onBattery)])
    case None => s1
  }

  // ---- Queries ----

  /** GetRunningTimeMs on every existing timer whose key is in ks. */
  function Refresh(s: State, ks: set<TimerKey>): State {
    var now := s.clock.BootMs();
    s.(timers := map k | k in s.timers :: if k in ks then s.timers[k].Rebase(now) else s.timers[k])
  }

  function BrightnessKeys(s: State): set<TimerKey> {
    set k | k in s.timers && k.BrightnessTimer? :: k
  }

  function CameraKeys(s: State, uid: int): set<TimerKey> {
    set k | k in s.timers && k.CameraTimer? && k.uid == uid :: k
  }

  ghost function TotalMs(s: State, ks: set<TimerKey>): int {
    Sum(ks, k => Reading(s, k))
  }

  /** The timers that GetTotalTimeMs(statsType, level) reads. */
  function LevelKeys(s: State, kind: StatsType, level: int): set<TimerKey> {
    match kind
    case ScreenBrightness => if level != INVALID_VALUE then {BrightnessTimer(level)} else BrightnessKeys(s)
    case ScreenOn => {ScreenTimer}
    case BluetoothBrOn => {BrTimer}
    case BluetoothBleOn => {BleTimer}
    case WifiOn => {WifiTimer}
    case PhoneActive => if level != INVALID_VALUE then {PhoneOnTimer(level)}
                        else set k | k in s.timers && k.PhoneOnTimer? :: k
    case PhoneData => if level != INVALID_VALUE then {PhoneDataTimer(level)}
                      else set k | k in s.timers && k.PhoneDataTimer? :: k
    case _ => {}
  }

  ghost function LevelMs(s: State, kind: StatsType, level: int): int {
    if kind == PhoneIdle then s.clock.UpMs()
    else if kind == CpuSuspend then s.clock.BootMs()
    else TotalMs(s, LevelKeys(s, kind, level))
  }

  /** The timers that GetTotalTimeMs(uid, statsType) reads. */
  function UidKeys(s: State, uid: int, kind: StatsType): set<TimerKey> {
    match kind
    case CameraOn => CameraKeys(s, uid)
    case BluetoothBrScan => {UidTimer(BrScan, uid)}
    case BluetoothBleScan => {UidTimer(BleScan, uid)}
    case FlashlightOn => {UidTimer(Flashlight, uid)}
    case GnssOn => {UidTimer(Gnss, uid)}
    case SensorGravityOn => {UidTimer(Gravity, uid)}
    case SensorProximityOn => {UidTimer(Proximity, uid)}
    case AudioOn => {UidTimer(Audio, uid)}
    case WakelockHold => {UidTimer(Wakelock, uid)}
    case _ => {}
  }

  // ---- Power ----

  function Mah(ma: real, ms: int): real {
    ma * (ms as real) / 3600000.0
  }

  function PartMa(part: UidPart): Current {
    match part
    case Flashlight => FlashlightMa
    case Gnss => GnssMa
    case Gravity => GravityMa
    case Proximity => ProximityMa
    case Audio => AudioMa
    case Wakelock => WakelockMa
    case BrScan => BrScanMa
    case BleScan => BleScanMa
  }

  ghost function PartMah(env: Env, s: State, part: UidPart, uid: int): real {
    Mah(env.profile.Ma(PartMa(part)), Reading(s, UidTimer(part, uid)))
  }

  /** The cpu entity's power of a uid, a given input of each ComputePower. */
  function CpuMah(cpu: map<int, real>, uid: int): real {
    if uid in cpu then cpu[uid] else 0.0
  }

  const PARTS: seq<UidPart> := [Flashlight, Audio, Gravity, Proximity, Gnss, Wakelock, BrScan, BleScan]

  /** Power of the first n per-uid components. */
  ghost function PartsMah(env: Env, s: State, uid: int, n: nat): real
    requires n <= |PARTS|
  {
    if n == 0 then 0.0 else PartsMah(env, s, uid, n - 1) + PartMah(env, s, PARTS[n - 1], uid)
  }

  ghost function CameraMah(env: Env, s: State, uid: int): real {
    Mah(env.profile.Ma(CameraMa), TotalMs(s, CameraKeys(s, uid)))
  }

  ghost function AlarmMah(env: Env, s: State, uid: int): real {
    env.profile.Ma(AlarmMa) * (CountOf(s, Alarms(uid)) as real)
  }

  /** Everything billed to one uid. */
  ghost function AppMah(env: Env, s: State, cpu: map<int, real>, uid: int): real {
    CameraMah(env, s, uid) + PartsMah(env, s, uid, |PARTS|) + CpuMah(cpu, uid) + AlarmMah(env, s, uid)
  }

  ghost function BrOnMah(env: Env, s: State): real { Mah(env.profile.Ma(BrOnMa), Reading(s, BrTimer)) }

  ghost function BleOnMah(env: Env, s: State): real { Mah(env.profile.Ma(BleOnMa), Reading(s, BleTimer)) }

  /** The bluetooth service's own uid is billed to the bluetooth part as well. */
  ghost function BluetoothMah(env: Env, s: State, cpu: map<int, real>): real {
    BrOnMah(env, s) + BleOnMah(env, s)
    + if env.bluetoothUid.Some? && env.bluetoothUid.value in s.uidPower
      then AppMah(env, s, cpu, env.bluetoothUid.value) else 0.0
  }

  ghost function IdleMah(env: Env, s: State): real {
    Mah(env.profile.Ma(CpuSuspendMa), s.clock.BootMs()) + Mah(env.profile.Ma(CpuIdleMa), s.clock.UpMs())
  }

  /** Power of the signal levels 0..n-1 of one radio timer map. */
  ghost function RadioMah(env: Env, s: State, c: Current, key: int -> TimerKey, n: nat): real {
    if n == 0 then 0.0
    else RadioMah(env, s, c, key, n - 1) + Mah(env.profile.LevelMa(c, n - 1), Reading(s, key(n - 1)))
  }

  function PhoneOnKey(level: int): TimerKey { PhoneOnTimer(level) }

  function PhoneDataKey(level: int): TimerKey { PhoneDataTimer(level) }

  ghost function PhoneMah(env: Env, s: State): real {
    RadioMah(env, s, RadioOnMa, PhoneOnKey, RADIO_SIGNAL_BIN)
    + RadioMah(env, s, RadioDataMa, PhoneDataKey, RADIO_SIGNAL_BIN)
  }

  /** Level-weighted brightness milliseconds. */
  ghost function BrightnessUnits(s: State): int {
    Sum(BrightnessKeys(s), k => Level(k) * Reading(s, k))
  }

  function Level(k: TimerKey): int {
    if k.BrightnessTimer? then k.level else 0
  }

  ghost function ScreenMah(env: Env, s: State): real {
    (env.profile.Ma(ScreenOnMa) * (Reading(s, ScreenTimer) as real)
     + env.profile.Ma(ScreenBrightnessMa) * (BrightnessUnits(s) as real)) / 3600000.0
  }

  ghost function WifiMah(env: Env, s: State): real {
    Mah(env.profile.Ma(WifiOnMa), Reading(s, WifiTimer))
    + env.profile.Ma(WifiScanMa) * (CountOf(s, WifiScans) as real)
  }

  // ---- ComputePower ----

  predicate Billed(k: TimerKey, uids: set<int>) {
    match k
    case UidTimer(_, u) => u in uids
    case CameraTimer(_, u) => u in uids
    case PhoneOnTimer(l) => 0 <= l < RADIO_SIGNAL_BIN
    case PhoneDataTimer(l) => 0 <= l < RADIO_SIGNAL_BIN
    case _ => true
  }

  function BilledKeys(s: State): set<TimerKey> {
    set k | k in s.timers && Billed(k, s.uidPower.Keys) :: k
  }

  /** AggregateUserPowerMah for the first n uids. */
  function Aggregate(users: map<int, real>, account: int -> int, uids: seq<int>, power: map<int, real>,
                     n: nat): map<int, real>
    requires n <= |uids| && forall i :: 0 <= i < n ==> uids[i] in power
  {
    if n == 0 then users else
    var m := Aggregate(users, account, uids, power, n - 1);
    var a := account(uids[n - 1]);
    m[a := (if a in m then m[a] else 0.0) + power[uids[n - 1]]]
  }

  function AppEntries(uids: seq<int>, power: map<int, real>, n: nat): seq<Info>
    requires n <= |uids| && forall i :: 0 <= i < n ==> uids[i] in power
  {
    if n == 0 then [] else AppEntries(uids, power, n - 1) + [AppInfo(uids[n - 1], power[uids[n - 1]])]
  }

  function UserEntries(users: seq<int>, power: map<int, real>, n: nat): seq<Info>
    requires n <= |users| && forall i :: 0 <= i < n ==> users[i] in power
  {
    if n == 0 then [] else UserEntries(users, power, n - 1) + [UserInfo(users[n - 1], power[users[n - 1]])]
  }

  function PowerSum(uids: seq<int>, power: map<int, real>, n: nat): real
    requires n <= |uids| && forall i :: 0 <= i < n ==> uids[i] in power
  {
    if n == 0 then 0.0 else PowerSum(uids, power, n - 1) + power[uids[n - 1]]
  }

  /** The five hardware powers, in the order they are added to the list. */
  datatype Parts = Parts(bluetooth: real, idle: real, phone: real, screen: real, wifi: real) {
    function Entries(): seq<Info> {
      [PartInfo(TYPE_BLUETOOTH, bluetooth), PartInfo(TYPE_IDLE, idle), PartInfo(TYPE_PHONE, phone),
       PartInfo(TYPE_SCREEN, screen), PartInfo(TYPE_WIFI, wifi)]
    }

    function Sum(): real {
      bluetooth + idle + phone + screen + wifi
    }
  }

  ghost function PartsOf(env: Env, s: State, cpu: map<int, real>): Parts {
    Parts(BluetoothMah(env, s, cpu), IdleMah(env, s), PhoneMah(env, s), ScreenMah(env, s), WifiMah(env, s))
  }

  ghost function UidPowers(env: Env, s: State, cpu: map<int, real>): (m: map<int, real>)
    ensures m.Keys == s.uidPower.Keys
  {
    map u | u in s.uidPower :: AppMah(env, s, cpu, u)
  }

  /** Roll the app and part powers up into the user map, the total and the stats list. */
  function Publish(s: State, account: int -> int, power: map<int, real>, parts: Parts): State {
    var uids := Sorted(power.Keys);
    var users := Aggregate(s.userPower, account, uids, power, |uids|);
    var accounts := Sorted(users.Keys);
    s.(uidPower := power,
       userPower := users,
       total := PowerSum(uids, power, |uids|) + parts.Sum(),
       list := AppEntries(uids, power, |uids|) + parts.Entries() + UserEntries(accounts, users, |accounts|))
  }

  ghost function ComputePower(env: Env, s: State, cpu: map<int, real>): State {
    Publish(Refresh(s, BilledKeys(s)), env.account, UidPowers(env, s, cpu), PartsOf(env, s, cpu))
      .(brMah := s.brMah + BrOnMah(env, s), bleMah := s.bleMah + BleOnMah(env, s))
  }

  // ---- Reset ----

  /** Every timer, counter and power is cleared; the camera and screen flags stay as they are. */
  function Reset(s: State): State {
    var now := s.clock.BootMs();
    s.(timers := map k | k in s.timers :: s.timers[k].Reset(now),
       counters := NoCounts(s.counters), uidPower := NoPowers(s.uidPower), userPower := NoPowers(s.userPower),
       brMah := 0.0, bleMah := 0.0, total := 0.0, list := [])
  }

  function NoCounts(m: map<CounterKey, int>): map<CounterKey, int> { map c | c in m :: 0 }

  function NoPowers(m: map<int, real>): map<int, real> { map u | u in m :: 0.0 }

  // ---- Steps ----

  datatype Event =
    | Tick(boot: nat, up: nat)
    | Plug(onBattery: bool)
    | StateEvent(kind: StatsType, state: StatsState, level: int, uid: int, device: string)
    | DataEvent(kind: StatsType, data: int, uid: int)
    | CpuUid(uid: int)
    | AskLevel(kind: StatsType, level: int)
    | AskUid(uid: int, kind: StatsType)
    | Compute(cpu: map<int, real>)
    | ResetAll

  ghost function Step(env: Env, s: State, e: Event): State {
    match e
    case Tick(b, u) => s.(clock := s.clock.Tick(b, u))
    case Plug(on) => s.(clock := s.clock.SetOnBattery(on))
    case StateEvent(kind, st, level, uid, device) => UpdateState(s, kind, st, level, uid, device)
    case DataEvent(kind, data, uid) => UpdateData(s, kind, data, uid)
    case CpuUid(uid) => UpdateUidMap(s, uid)
    case AskLevel(kind, level) => Refresh(s, LevelKeys(s, kind, level))
    case AskUid(uid, kind) => Refresh(s, UidKeys(s, uid, kind))
    case Compute(cpu) => ComputePower(env, s, cpu)
    case ResetAll => Reset(s)
  }

  function Initial(boot: int, up: int): State {
    State(Clock(boot, up, false, 0, 0, 0, 0), map[], map[], false, INVALID_VALUE, false, INVALID_VALUE,
          map[], map[], 0.0, 0.0, 0.0, [])
  }

  /** A run, latest event last. */
  datatype Trace = Boot(boot: int, up: int) | Then(before: Trace, last: Event)

  ghost function Run(env: Env, tr: Trace): State {
    match tr
    case Boot(b, u) => Initial(b, u)
    case Then(p, e) => Step(env, Run(env, p), e)
  }
}
