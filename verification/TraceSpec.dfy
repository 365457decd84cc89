/**
 * What a run means, said about its events alone: when the device is on battery, which component is
 * active, and how many milliseconds or counts it is charged since the last Reset. No timer, no
 * start stamp and no map appears here.
 */
module TraceSpec {
  import opened StatsTypes
  import opened CoreSpec

  // ---- On-battery time ----

  predicate OnBattery(tr: Trace) {
    tr.Then? && if tr.last.Plug? then tr.last.onBattery else OnBattery(tr.before)
  }

  function OnBatteryBootMs(tr: Trace): nat {
    if tr.Boot? then 0
    else OnBatteryBootMs(tr.before) + if tr.last.Tick? && OnBattery(tr.before) then tr.last.boot else 0
  }

  function OnBatteryUpMs(tr: Trace): nat {
    if tr.Boot? then 0
    else OnBatteryUpMs(tr.before) + if tr.last.Tick? && OnBattery(tr.before) then tr.last.up else 0
  }

  // ---- The camera ----

  /** Closed, held by an app, or orphaned: a Reset cleared the timer of the app that still holds it. */
  datatype Lens = Closed | Open(device: string, uid: int) | Orphaned(uid: int)

  function Camera(tr: Trace): Lens {
    if tr.Boot? then Closed else
    var was := Camera(tr.before);
    match tr.last
    case StateEvent(kind, st, _, uid, device) =>
      if kind == CameraOn && st == Activated && was.Closed? && uid > INVALID_VALUE && device != ""
      then Open(device, uid)
      else if kind == CameraOn && st == Deactivated && was.Open? && was.device == device then Closed
      else was
    case ResetAll => if was.Open? then Orphaned(was.uid) else was
    case _ => was
  }

  // ---- The screen ----

  predicate ScreenFlag(tr: Trace) {
    tr.Then? &&
    if IsScreen(tr.last, Activated) then true
    else if IsScreen(tr.last, Deactivated) then false
    else ScreenFlag(tr.before)
  }

  predicate IsScreen(e: Event, st: StatsState) {
    e.StateEvent? && e.kind == ScreenOn && e.state == st
  }

  predicate IsBrightness(e: Event) {
    e.StateEvent? && e.kind == ScreenBrightness && 0 <= e.level <= 255
  }

  /** The last valid brightness reported while the screen was on, -1 before any. */
  function LastLevel(tr: Trace): int {
    if tr.Boot? then INVALID_VALUE
    else if IsBrightness(tr.last) && ScreenFlag(tr.before) then tr.last.level
    else LastLevel(tr.before)
  }

  /** The brightness level being charged, -1 when none is. */
  function Lit(tr: Trace): int {
    if tr.Boot? || tr.last.ResetAll? || IsScreen(tr.last, Deactivated) then INVALID_VALUE
    else if IsScreen(tr.last, Activated) then LastLevel(tr.before)
    else if IsBrightness(tr.last) && ScreenFlag(tr.before) then tr.last.level
    else Lit(tr.before)
  }

  /** Whether screen-on time is being charged. */
  predicate ScreenCharging(tr: Trace) {
    tr.Then? && !tr.last.ResetAll? &&
    if IsScreen(tr.last, Activated) then true
    else if IsScreen(tr.last, Deactivated) then false
    else ScreenCharging(tr.before)
  }

  // ---- All other components: the last event addressed to them decides ----

  function PartType(part: UidPart): StatsType {
    match part
    case Flashlight => FlashlightOn
    case Gnss => GnssOn
    case Gravity => SensorGravityOn
    case Proximity => SensorProximityOn
    case Audio => AudioOn
    case Wakelock => WakelockHold
    case BrScan => BluetoothBrScan
    case BleScan => BluetoothBleScan
  }

  predicate Addresses(e: Event, k: TimerKey) {
    e.StateEvent? &&
    match k
    case BrTimer => e.kind == BluetoothBrOn
    case BleTimer => e.kind == BluetoothBleOn
    case WifiTimer => e.kind == WifiOn
    case UidTimer(part, u) => e.kind == PartType(part) && e.uid == u && u >= 0
    case PhoneOnTimer(l) => e.kind == PhoneActive && e.level == l && 0 <= l <= 5
    case PhoneDataTimer(l) => e.kind == PhoneData && e.level == l && 0 <= l <= 5
    case _ => false
  }

  /** A camera flash event reaches the flashlight of the app holding the camera. */
  predicate FlashReaches(p: Trace, e: Event, k: TimerKey) {
    && e.StateEvent? && e.kind == CameraFlashlightOn
    && !Camera(p).Closed? && k == UidTimer(Flashlight, Camera(p).uid)
  }

  /** Closing the camera switches the holder's flashlight off. */
  predicate ClosesFlash(p: Trace, e: Event, k: TimerKey) {
    && e.StateEvent? && e.kind == CameraOn && e.state == Deactivated
    && Camera(p).Open? && Camera(p).device == e.device && k == UidTimer(Flashlight, Camera(p).uid)
  }

  predicate PlainOn(tr: Trace, k: TimerKey) {
    tr.Then? && !tr.last.ResetAll? &&
    if (Addresses(tr.last, k) || FlashReaches(tr.before, tr.last, k)) && tr.last.state != OtherState
    then tr.last.state == Activated
    else if ClosesFlash(tr.before, tr.last, k) then false
    else PlainOn(tr.before, k)
  }

  /** Is the component of k active after tr? */
  predicate On(tr: Trace, k: TimerKey) {
    match k
    case CameraTimer(d, u) => Camera(tr) == Open(d, u)
    case ScreenTimer => ScreenCharging(tr)
    case BrightnessTimer(l) => l >= 0 && Lit(tr) == l
    case _ => PlainOn(tr, k)
  }

  // ---- Charges since the last Reset ----

  /** Milliseconds on battery with the component of k active, since the last Reset. */
  function Charge(tr: Trace, k: TimerKey): nat {
    if tr.Boot? || tr.last.ResetAll? then 0
    else Charge(tr.before, k)
         + if tr.last.Tick? && OnBattery(tr.before) && On(tr.before, k) then tr.last.boot else 0
  }

  predicate Counts(e: Event, c: CounterKey) {
    e.DataEvent? && e.data > 0 &&
    match c
    case WifiScans => e.kind == WifiScan
    case Alarms(u) => e.kind == Alarm && u == (if e.uid >= 0 then e.uid else INVALID_VALUE)
  }

  /** Counts reported on battery since the last Reset. */
  function Counted(tr: Trace, c: CounterKey): nat {
    if tr.Boot? || tr.last.ResetAll? then 0
    else Counted(tr.before, c) + if Counts(tr.last, c) && OnBattery(tr.before) then tr.last.data else 0
  }

  /** Every uid any event has named; Reset forgets none. */
  function Known(tr: Trace): set<int> {
    if tr.Boot? then {} else
    var uid := match tr.last
               case StateEvent(_, _, _, u, _) => u
               case DataEvent(_, _, u) => u
               case CpuUid(u) => u
               case _ => INVALID_VALUE;
    Known(tr.before) + if uid > INVALID_VALUE then {uid} else {}
  }
}
