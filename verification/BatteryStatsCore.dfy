/** The service object: heap timers in maps, switched, read and reset in place. */
module BatteryStatsCoreObject {
  import opened StatsTypes
  import opened StatsHelperSpec
  import opened StatsHelperObjects
  import opened CoreSpec
  import opened CoreFacts
  import opened ComputeFacts
  import opened Rollup
  import opened Numbers
  import opened PowerStore
  import opened SavedTimes
  import opened Sums

  /** The values held by the timers of a map. */
  ghost function ViewOf(timers: map<TimerKey, ActiveTimer>, owned: set<ActiveTimer>): map<TimerKey, Timer>
    requires Keyed(timers, owned)
    reads owned
  {
    map k | k in timers :: timers[k].View()
  }

  /** Every timer is stored under its own key, so no two keys share a timer. */
  ghost predicate Keyed(timers: map<TimerKey, ActiveTimer>, owned: set<ActiveTimer>) {
    forall k :: k in timers ==> timers[k].key == k && timers[k] in owned
  }

  class BatteryStatsCore {
    const env: Env
    const helper: StatsHelper
    /** All entities' timer fields and maps; the key's constructor says which one. */
    var timers: map<TimerKey, ActiveTimer>
    /** The timer objects this service has made. */
    ghost var owned: set<ActiveTimer>
    var counters: map<CounterKey, int>
    var isCameraOn: bool
    var isScreenOn: bool
    var lastBrightnessLevel: int
    var lastCameraUid: int
    var uidPowerMap: map<int, real>
    var userPowerMap: map<int, real>
    var bluetoothBrPowerMah: real
    var bluetoothBlePowerMah: real
    var totalPowerMah: real
    var statsInfoList: seq<Info>

    ghost predicate Valid()
      reads this`timers, this`owned
    {
      Keyed(timers, owned)
    }

    ghost function View(): State
      requires Valid()
      reads this, helper, owned
    {
      State(helper.View(), ViewOf(timers, owned), counters, isCameraOn, lastCameraUid, isScreenOn, lastBrightnessLevel,
            uidPowerMap, userPowerMap, bluetoothBrPowerMah, bluetoothBlePowerMah, totalPowerMah, statsInfoList)
    }

    constructor (env: Env, helper: StatsHelper)
      ensures this.env == env && this.helper == helper
      ensures Valid() && timers == map[] && owned == {}
      ensures View() == Initial(0, 0).(clock := helper.View())
    {
      this.env, this.helper := env, helper;
      timers, owned, counters := map[], {}, map[];
      isCameraOn, isScreenOn := false, false;
      lastBrightnessLevel, lastCameraUid := INVALID_VALUE, INVALID_VALUE;
      uidPowerMap, userPowerMap := map[], map[];
      bluetoothBrPowerMah, bluetoothBlePowerMah := 0.0, 0.0;
      totalPowerMah, statsInfoList := 0.0, [];
    }

    // ---- Timers ----

    method GetOrCreateTimer(k: TimerKey) returns (timer: ActiveTimer)
      requires Valid()
      modifies this`timers, this`owned
      ensures Valid() && k in timers && timer == timers[k]
      ensures fresh(owned - old(owned))
      ensures ViewOf(timers, owned) == old(ViewOf(timers, owned))[k := Fetch(old(ViewOf(timers, owned)), k)]
    {
      if k in timers {
        timer := timers[k];
      } else {
        timer := new ActiveTimer(k);
        timers, owned := timers[k := timer], owned + {timer};
      }
    }

    /** The object of k changed and no other timer did. */
    twostate lemma OneTimerMoved(k: TimerKey)
      requires old(Valid()) && timers == old(timers) && owned == old(owned) && k in timers
      requires forall j :: j in timers && j != k ==> timers[j].View() == old(timers[j].View())
      ensures ViewOf(timers, owned) == old(ViewOf(timers, owned))[k := timers[k].View()]
    {}

    method StartTimer(k: TimerKey) returns (started: bool)
      requires Valid() && k in timers
      modifies timers[k]
      ensures Valid() && ViewOf(timers, owned) ==
          old(ViewOf(timers, owned))[k := old(timers[k].View()).Start(helper.View().BootMs())]
      ensures started == !old(timers[k].View()).running
    {
      assert forall j :: j in timers && j != k ==> timers[j] != timers[k];
      started := timers[k].StartRunning(helper);
      OneTimerMoved(k);
    }

    method StopTimer(k: TimerKey) returns (stopped: bool)
      requires Valid() && k in timers
      modifies timers[k]
      ensures Valid() && ViewOf(timers, owned) ==
          old(ViewOf(timers, owned))[k := old(timers[k].View()).Stop(helper.View().BootMs())]
      ensures stopped == old(timers[k].View()).running
    {
      assert forall j :: j in timers && j != k ==> timers[j] != timers[k];
      stopped := timers[k].StopRunning(helper);
      OneTimerMoved(k);
    }

    method CreateAndStart(k: TimerKey) returns (started: bool)
      requires Valid()
      modifies this`timers, this`owned, owned
      ensures Valid() && fresh(owned - old(owned))
      ensures ViewOf(timers, owned) ==
              old(ViewOf(timers, owned))[k := Fetch(old(ViewOf(timers, owned)), k).Start(helper.View().BootMs())]
      ensures started == !Fetch(old(ViewOf(timers, owned)), k).running
    {
      var timer := GetOrCreateTimer(k);
      assert timers[k].View() == ViewOf(timers, owned)[k];
      started := StartTimer(k);
    }

    method CreateAndStop(k: TimerKey) returns (stopped: bool)
      requires Valid()
      modifies this`timers, this`owned, owned
      ensures Valid() && fresh(owned - old(owned))
      ensures ViewOf(timers, owned) ==
              old(ViewOf(timers, owned))[k := Fetch(old(ViewOf(timers, owned)), k).Stop(helper.View().BootMs())]
      ensures stopped == Fetch(old(ViewOf(timers, owned)), k).running
    {
      var timer := GetOrCreateTimer(k);
      assert timers[k].View() == ViewOf(timers, owned)[k];
      stopped := StopTimer(k);
    }

    /** Start or stop one timer; `switched` is what StartRunning or StopRunning answered. */
    method SwitchTimer(k: TimerKey, st: StatsState) returns (switched: bool)
      requires Valid()
      modifies this`timers, this`owned, owned
      ensures Valid() && fresh(owned - old(owned))
      ensures View() == Switch(old(View()), k, st)
      ensures switched == match st
                          case Activated => !Fetch(old(View()).timers, k).running
                          case Deactivated => Fetch(old(View()).timers, k).running
                          case OtherState => false
    {
      match st {
        case Activated => switched := CreateAndStart(k);
        case Deactivated => switched := CreateAndStop(k);
        case OtherState =>
          var _ := GetOrCreateTimer(k);
          switched := false;
      }
    }

    /** UpdateTimer, and UpdatePhoneStats for the phone's levels. */
    method UpdateTimer(kind: StatsType, st: StatsState, level: int, uid: int)
      requires Valid()
      modifies this`timers, this`owned, owned
      ensures Valid() && fresh(owned - old(owned))
      ensures View() == CoreSpec.UpdateTimer(old(View()), kind, st, level, uid)
    {
      var key := TimerFor(kind, level, uid);
      if key.Some? {
        var _ := SwitchTimer(key.value, st);
      }
    }

    // ---- Camera ----

    /** The camera's timer has stopped: its holder's flashlight goes off and the flags come down. */
    method ReleaseCamera()
      requires Valid()
      modifies this`timers, this`owned, this`isCameraOn, this`lastCameraUid, owned
      ensures Valid() && fresh(owned - old(owned))
      ensures View() == CoreSpec.UpdateTimer(old(View()), FlashlightOn, Deactivated, INVALID_VALUE, old(lastCameraUid))
                        .(cameraOn := false, cameraUid := INVALID_VALUE)
    {
      UpdateTimer(FlashlightOn, Deactivated, INVALID_VALUE, lastCameraUid);
      isCameraOn := false;
      lastCameraUid := INVALID_VALUE;
    }

    method UpdateCameraTimer(st: StatsState, uid: int, device: string)
      requires Valid()
      modifies this`timers, this`owned, this`isCameraOn, this`lastCameraUid, owned
      ensures Valid() && fresh(owned - old(owned))
      ensures View() == CoreSpec.UpdateCameraTimer(old(View()), st, uid, device)
    {
      if uid <= INVALID_VALUE || device == "" {
        return;
      }
      match st {
        case Activated => OpenCamera(uid, device);
        case Deactivated => CloseCamera(uid, device);
        case OtherState => var _ := SwitchTimer(CameraTimer(device, uid), st);
      }
    }

    method OpenCamera(uid: int, device: string)
      requires Valid() && uid > INVALID_VALUE && device != ""
      modifies this`timers, this`owned, this`isCameraOn, this`lastCameraUid, owned
      ensures Valid() && fresh(owned - old(owned))
      ensures View() == CoreSpec.UpdateCameraTimer(old(View()), Activated, uid, device)
    {
      var started := SwitchTimer(CameraTimer(device, uid), Activated);
      if started {
        isCameraOn := true;
        lastCameraUid := uid;
      }
    }

    method CloseCamera(uid: int, device: string)
      requires Valid() && uid > INVALID_VALUE && device != ""
      modifies this`timers, this`owned, this`isCameraOn, this`lastCameraUid, owned
      ensures Valid() && fresh(owned - old(owned))
      ensures View() == CoreSpec.UpdateCameraTimer(old(View()), Deactivated, uid, device)
    {
      var stopped := SwitchTimer(CameraTimer(device, uid), Deactivated);
      if stopped {
        ReleaseCamera();
      }
    }

    method UpdateCameraStats(kind: StatsType, st: StatsState, uid: int, device: string)
      requires Valid()
      modifies this`timers, this`owned, this`isCameraOn, this`lastCameraUid, owned
      ensures Valid() && fresh(owned - old(owned))
      ensures View() == UpdateCamera(old(View()), kind, st, uid, device)
    {
      if kind == CameraOn {
        if st == Activated {
          if isCameraOn { return; }
          UpdateCameraTimer(st, uid, device);
        } else if st == Deactivated {
          if !isCameraOn { return; }
          UpdateCameraTimer(st, lastCameraUid, device);
        }
      } else if kind == CameraFlashlightOn {
        if !isCameraOn { return; }
        UpdateTimer(FlashlightOn, st, INVALID_VALUE, lastCameraUid);
      }
    }

    // ---- Screen ----

    /** ScreenEntity::GetOrCreateTimer gives no timer for a level out of range. */
    method SwitchBrightnessTimer(level: int, st: StatsState)
      requires Valid()
      modifies this`timers, this`owned, owned
      ensures Valid() && fresh(owned - old(owned))
      ensures View() == SwitchBrightness(old(View()), level, st)
    {
      if INVALID_VALUE < level <= SCREEN_BRIGHTNESS_BIN {
        var _ := SwitchTimer(BrightnessTimer(level), st);
      }
    }

    method SwitchScreen(st: StatsState)
      requires Valid()
      modifies this`timers, this`owned, owned
      ensures Valid() && fresh(owned - old(owned))
      ensures View() == SwitchBrightness(Switch(old(View()), ScreenTimer, st), old(lastBrightnessLevel), st)
    {
      var _ := SwitchTimer(ScreenTimer, st);
      if lastBrightnessLevel > INVALID_VALUE {
        SwitchBrightnessTimer(lastBrightnessLevel, st);
      }
    }

    method UpdateScreenTimer(st: StatsState)
      requires Valid()
      modifies this`timers, this`owned, this`isScreenOn, owned
      ensures Valid() && fresh(owned - old(owned))
      ensures View() == CoreSpec.UpdateScreenTimer(old(View()), st)
    {
      SwitchScreen(st);
      match st {
        case Activated => isScreenOn := true;
        case Deactivated => isScreenOn := false;
        case OtherState =>
      }
    }

    method MoveBrightness(level: int)
      requires Valid()
      modifies this`timers, this`owned, owned
      ensures Valid() && fresh(owned - old(owned))
      ensures View() ==
          SwitchBrightness(SwitchBrightness(old(View()), old(lastBrightnessLevel), Deactivated), level, Activated)
    {
      SwitchBrightnessTimer(lastBrightnessLevel, Deactivated);
      SwitchBrightnessTimer(level, Activated);
    }

    /** The level's timer starts, and that of another level before it stops. */
    method StartBrightness(level: int)
      requires Valid()
      modifies this`timers, this`owned, owned
      ensures Valid() && fresh(owned - old(owned))
      ensures var s := old(View());
              View() == if s.level <= INVALID_VALUE || level == s.level then SwitchBrightness(s, level, Activated)
                        else SwitchBrightness(SwitchBrightness(s, s.level, Deactivated), level, Activated)
    {
      if lastBrightnessLevel <= INVALID_VALUE || level == lastBrightnessLevel {
        SwitchBrightnessTimer(level, Activated);
      } else {
        MoveBrightness(level);
      }
    }

    method UpdateBrightnessTimer(level: int)
      requires Valid()
      modifies this`timers, this`owned, this`lastBrightnessLevel, owned
      ensures Valid() && fresh(owned - old(owned))
      ensures View() == CoreSpec.UpdateBrightnessTimer(old(View()), level)
    {
      if level <= INVALID_VALUE || level > SCREEN_BRIGHTNESS_BIN {
        return;
      }
      StartBrightness(level);
      lastBrightnessLevel := level;
    }

    method UpdateScreenStats(kind: StatsType, st: StatsState, level: int)
      requires Valid()
      modifies this`timers, this`owned, this`isScreenOn, this`lastBrightnessLevel, owned
      ensures Valid() && fresh(owned - old(owned))
      ensures View() == UpdateScreen(old(View()), kind, st, level)
    {
      if kind == ScreenOn {
        UpdateScreenTimer(st);
      } else if kind == ScreenBrightness {
        if !isScreenOn { return; }
        UpdateBrightnessTimer(level);
      }
    }

    // ---- UpdateStats ----

    /** UidEntity::UpdateUidMap, also called by the cpu reader. */
    method UpdateUidMap(uid: int)
      requires Valid()
      modifies this`uidPowerMap
      ensures Valid() && View() == CoreSpec.UpdateUidMap(old(View()), uid)
    {
      if uid > INVALID_VALUE {
        if uid !in uidPowerMap {
          uidPowerMap := uidPowerMap[uid := 0.0];
        }
      }
    }

    method Dispatch(kind: StatsType, st: StatsState, level: int, uid: int, device: string)
      requires Valid()
      modifies this`timers, this`owned, this`isCameraOn, this`lastCameraUid, this`isScreenOn,
          this`lastBrightnessLevel, owned
      ensures Valid() && fresh(owned - old(owned))
      ensures View() == CoreSpec.Dispatch(old(View()), kind, st, level, uid, device)
    {
      if kind == ScreenOn || kind == ScreenBrightness {
        UpdateScreenStats(kind, st, level);
      } else {
        DispatchDevice(kind, st, level, uid, device);
      }
    }

    /** The camera cases and all the cases after them. */
    method DispatchDevice(kind: StatsType, st: StatsState, level: int, uid: int, device: string)
      requires Valid() && kind != ScreenOn && kind != ScreenBrightness
      modifies this`timers, this`owned, this`isCameraOn, this`lastCameraUid, owned
      ensures Valid() && fresh(owned - old(owned))
      ensures View() == CoreSpec.Dispatch(old(View()), kind, st, level, uid, device)
    {
      if kind == CameraOn || kind == CameraFlashlightOn {
        UpdateCameraStats(kind, st, uid, device);
      } else {
        UpdateTimer(kind, st, level, uid);
      }
    }

    method UpdateState(kind: StatsType, st: StatsState, level: int, uid: int, device: string)
      requires Valid()
      modifies this`timers, this`owned, this`isCameraOn, this`lastCameraUid, this`isScreenOn, this`lastBrightnessLevel,
               this`uidPowerMap, owned
      ensures Valid() && fresh(owned - old(owned))
      ensures View() == CoreSpec.UpdateState(old(View()), kind, st, level, uid, device)
    {
      if uid > INVALID_VALUE {
        UpdateUidMap(uid);
      }
      Dispatch(kind, st, level, uid, device);
    }

    method UpdateData(kind: StatsType, data: int, uid: int)
      requires Valid()
      modifies this`counters, this`uidPowerMap
      ensures Valid() && View() == CoreSpec.UpdateData(old(View()), kind, data, uid)
    {
      if uid > INVALID_VALUE {
        UpdateUidMap(uid);
      }
      var key := CounterFor(kind, uid);
      if key.Some? {
        var count := if key.value in counters then counters[key.value] else 0;
        counters := counters[key.value := AddCount(count, data, helper.onBattery)];
      }
    }

    // ---- Queries ----

    /** GetRunningTimeMs on the timer of k, 0 when it was never created. */
    method ReadTimer(k: TimerKey) returns (ms: int)
      requires Valid()
      modifies owned
      ensures Valid() && View() == Refresh(old(View()), {k})
      ensures ms == Reading(old(View()), k)
    {
      if k !in timers {
        return 0;
      }
      assert forall j :: j in timers && j != k ==> timers[j] != timers[k];
      ms := timers[k].GetRunningTimeMs(helper);
      OneTimerMoved(k);
    }

    /** The loops over a timer map: reads every timer of ks and adds the answers. */
    method SumTimers(ks: set<TimerKey>) returns (ms: int)
      requires Valid()
      modifies owned
      ensures Valid() && View() == Refresh(old(View()), ks)
      ensures ms == TotalMs(old(View()), ks)
    {
      ghost var s := View();
      var todo := ks;
      ms := 0;
      RefreshNone(s, ks - todo);
      while todo != {}
        invariant Valid() && todo <= ks && View() == Refresh(s, ks - todo)
        invariant ms + TotalMs(s, todo) == TotalMs(s, ks)
        decreases todo
      {
        var k :| k in todo;
        var one := ReadTimer(k);
        RefreshTwice(s, ks - todo, {k});
        SumPick(todo, j => Reading(s, j), k);
        assert ks - (todo - {k}) == ks - todo + {k};
        ms := ms + one;
        todo := todo - {k};
      }
      assert ks - todo == ks;
    }

    /** GetTotalTimeMs(statsType, level). */
    method GetTotalTimeMs(kind: StatsType, level: int) returns (ms: int)
      requires Valid()
      modifies owned
      ensures Valid() && View() == Refresh(old(View()), LevelKeys(old(View()), kind, level))
      ensures ms == LevelMs(old(View()), kind, level)
    {
      var ks: set<TimerKey> := {};
      match kind {
        case ScreenBrightness =>
          ks := if level != INVALID_VALUE then {BrightnessTimer(level)}
                else set k | k in timers && k.BrightnessTimer? :: k;
        case ScreenOn => ks := {ScreenTimer};
        case BluetoothBrOn => ks := {BrTimer};
        case BluetoothBleOn => ks := {BleTimer};
        case WifiOn => ks := {WifiTimer};
        case PhoneActive =>
          ks := if level != INVALID_VALUE then {PhoneOnTimer(level)}
                else set k | k in timers && k.PhoneOnTimer? :: k;
        case PhoneData =>
          ks := if level != INVALID_VALUE then {PhoneDataTimer(level)}
                else set k | k in timers && k.PhoneDataTimer? :: k;
        case _ =>
      }
      assert ks == LevelKeys(View(), kind, level);
      ms := SumTimers(ks);
      if kind == PhoneIdle {
        ms := helper.GetOnBatteryUpTimeMs();
      } else if kind == CpuSuspend {
        ms := helper.GetOnBatteryBootTimeMs();
      }
    }

    /**
     * GetTotalTimeMs(uid, statsType); a camera uid is read on every device. A cpu type is answered
     * with cpuTimeMs, what the cpu entity holds for the uid.
     */
    method GetUidTimeMs(uid: int, kind: StatsType, cpuTimeMs: int) returns (ms: int)
      requires Valid()
      modifies owned
      ensures Valid() && View() == Refresh(old(View()), UidKeys(old(View()), uid, kind))
      ensures ms == if kind == CpuTime then cpuTimeMs else TotalMs(old(View()), UidKeys(old(View()), uid, kind))
    {
      var ks: set<TimerKey> := {};
      match kind {
        case CameraOn => ks := set k | k in timers && k.CameraTimer? && k.uid == uid :: k;
        case BluetoothBrScan => ks := {UidTimer(BrScan, uid)};
        case BluetoothBleScan => ks := {UidTimer(BleScan, uid)};
        case FlashlightOn => ks := {UidTimer(Flashlight, uid)};
        case GnssOn => ks := {UidTimer(Gnss, uid)};
        case SensorGravityOn => ks := {UidTimer(Gravity, uid)};
        case SensorProximityOn => ks := {UidTimer(Proximity, uid)};
        case AudioOn => ks := {UidTimer(Audio, uid)};
        case WakelockHold => ks := {UidTimer(Wakelock, uid)};
        case _ =>
      }
      assert ks == UidKeys(View(), uid, kind);
      ms := SumTimers(ks);
      if kind == CpuTime {
        ms := cpuTimeMs;
      }
    }

    // ---- Power ----

    /** The service as it was at s, except that the timers of `done` have been read since. */
    ghost predicate AsOf(s: State, done: set<TimerKey>)
      requires Valid()
      reads this`timers, this`owned, this`counters, helper, owned
    {
      helper.View() == s.clock && counters == s.counters && ViewOf(timers, owned) == Refresh(s, done).timers
    }

    method TimerPower(ma: real, k: TimerKey, ghost s: State, ghost done: set<TimerKey>) returns (mah: real)
      requires Valid() && AsOf(s, done)
      modifies owned
      ensures Valid() && AsOf(s, done + {k})
      ensures mah == Mah(ma, Reading(s, k))
    {
      var ms := ReadAsOf(k, s, done);
      mah := ma * (ms as real) / 3600000.0;
    }

    method ReadAsOf(k: TimerKey, ghost s: State, ghost done: set<TimerKey>) returns (ms: int)
      requires Valid() && AsOf(s, done)
      modifies owned
      ensures Valid() && AsOf(s, done + {k})
      ensures ms == Reading(s, k)
    {
      RefreshFacts(s, done);
      RefreshTwice(s, done, {k});
      ms := ReadTimer(k);
    }

    method CameraPower(uid: int, ghost s: State, ghost done: set<TimerKey>) returns (mah: real)
      requires Valid() && AsOf(s, done)
      modifies owned
      ensures Valid() && AsOf(s, done + CameraKeys(s, uid))
      ensures mah == CameraMah(env, s, uid)
    {
      var ks := set k | k in timers && k.CameraTimer? && k.uid == uid :: k;
      assert timers.Keys == ViewOf(timers, owned).Keys == s.timers.Keys;
      assert ks == CameraKeys(s, uid);
      RefreshTwice(s, done, ks);
      TotalAsOf(s, View(), done, ks);
      var ms := SumTimers(ks);
      mah := env.profile.Ma(CameraMa) * (ms as real) / 3600000.0;
    }

    method UidTimerPower(part: UidPart, uid: int, ghost s: State, ghost done: set<TimerKey>) returns (mah: real)
      requires Valid() && AsOf(s, done)
      modifies owned
      ensures Valid() && AsOf(s, done + {UidTimer(part, uid)})
      ensures mah == PartMah(env, s, part, uid)
    {
      mah := TimerPower(env.profile.Ma(PartMa(part)), UidTimer(part, uid), s, done);
    }

    method GetConsumptionCount(c: CounterKey) returns (count: int)
      requires Valid()
      ensures count == CountOf(View(), c)
    {
      count := if c in counters then counters[c] else 0;
    }

    /** GetTotalConsumptionCount; the wifi scans are not kept by uid, the alarms are, -1 included. */
    method GetTotalConsumptionCount(kind: StatsType, uid: int) returns (count: int)
      requires Valid()
      ensures kind == WifiScan ==> count == CountOf(View(), WifiScans)
      ensures kind == Alarm ==> count == CountOf(View(), Alarms(uid))
      ensures kind != WifiScan && kind != Alarm ==> count == 0
    {
      match kind {
        case WifiScan => count := GetConsumptionCount(WifiScans);
        case Alarm => count := GetConsumptionCount(Alarms(uid));
        case _ => count := 0;
      }
    }

    method CalculateForConnectivity(uid: int, ghost s: State, ghost done: set<TimerKey>) returns (power: real)
      requires Valid() && AsOf(s, done)
      modifies owned
      ensures Valid() && AsOf(s, done + {UidTimer(BrScan, uid), UidTimer(BleScan, uid)})
      ensures power == PartMah(env, s, BrScan, uid) + PartMah(env, s, BleScan, uid)
    {
      var br := UidTimerPower(BrScan, uid, s, done);
      var ble := UidTimerPower(BleScan, uid, s, done + {UidTimer(BrScan, uid)});
      assert done + {UidTimer(BrScan, uid)} + {UidTimer(BleScan, uid)} ==
          done + {UidTimer(BrScan, uid), UidTimer(BleScan, uid)};
      power := br + ble;
    }

    method CalculateForCommon(uid: int, cpu: map<int, real>, ghost s: State, ghost done: set<TimerKey>)
      returns (power: real)
      requires Valid() && AsOf(s, done)
      modifies owned
      ensures Valid() && AsOf(s, done + CameraKeys(s, uid) + CommonKeys(uid))
      ensures power == CameraMah(env, s, uid) + PartMah(env, s, Flashlight, uid) + PartMah(env, s, Audio, uid)
                       + (PartMah(env, s, Gravity, uid) + PartMah(env, s, Proximity, uid)) + PartMah(env, s, Gnss, uid)
                       + CpuMah(cpu, uid) + PartMah(env, s, Wakelock, uid) + AlarmMah(env, s, uid)
    {
      var devices := CalculateDevices(uid, s, done);
      ghost var keys := done + CameraKeys(s, uid) + DeviceKeys(uid);
      var gnss := UidTimerPower(Gnss, uid, s, keys);
      var held := CalculateHeld(uid, s, keys + {UidTimer(Gnss, uid)});
      CommonKeysListed(done + CameraKeys(s, uid), uid, keys + {UidTimer(Gnss, uid)} + {UidTimer(Wakelock, uid)});
      power := devices + gnss + CpuMah(cpu, uid) + held;
    }

    /** The last two entities that CalculateForCommon asks: wakelock and alarm. */
    method CalculateHeld(uid: int, ghost s: State, ghost done: set<TimerKey>) returns (power: real)
      requires Valid() && AsOf(s, done)
      modifies owned
      ensures Valid() && AsOf(s, done + {UidTimer(Wakelock, uid)})
      ensures power == PartMah(env, s, Wakelock, uid) + AlarmMah(env, s, uid)
    {
      var wakelock := UidTimerPower(Wakelock, uid, s, done);
      var alarms := GetConsumptionCount(Alarms(uid));
      power := wakelock + env.profile.Ma(AlarmMa) * (alarms as real);
    }

    /** The first four entities that CalculateForCommon asks: camera, flashlight, audio, sensor. */
    method CalculateDevices(uid: int, ghost s: State, ghost done: set<TimerKey>) returns (power: real)
      requires Valid() && AsOf(s, done)
      modifies owned
      ensures Valid() && AsOf(s, done + CameraKeys(s, uid) + DeviceKeys(uid))
      ensures power == CameraMah(env, s, uid) + PartMah(env, s, Flashlight, uid) + PartMah(env, s, Audio, uid)
                       + (PartMah(env, s, Gravity, uid) + PartMah(env, s, Proximity, uid))
    {
      power := CameraPower(uid, s, done);
      ghost var keys := done + CameraKeys(s, uid);
      var flashlight := UidTimerPower(Flashlight, uid, s, keys);
      keys := keys + {UidTimer(Flashlight, uid)};
      var audio := UidTimerPower(Audio, uid, s, keys);
      keys := keys + {UidTimer(Audio, uid)};
      var sensor := CalculateSensor(uid, s, keys);
      DeviceKeysListed(done + CameraKeys(s, uid), uid, keys + {UidTimer(Gravity, uid), UidTimer(Proximity, uid)});
      power := power + flashlight + audio + sensor;
    }

    /** SensorEntity::Calculate. */
    method CalculateSensor(uid: int, ghost s: State, ghost done: set<TimerKey>) returns (power: real)
      requires Valid() && AsOf(s, done)
      modifies owned
      ensures Valid() && AsOf(s, done + {UidTimer(Gravity, uid), UidTimer(Proximity, uid)})
      ensures power == PartMah(env, s, Gravity, uid) + PartMah(env, s, Proximity, uid)
    {
      var gravity := UidTimerPower(Gravity, uid, s, done);
      var proximity := UidTimerPower(Proximity, uid, s, done + {UidTimer(Gravity, uid)});
      assert done + {UidTimer(Gravity, uid)} + {UidTimer(Proximity, uid)}
          == done + {UidTimer(Gravity, uid), UidTimer(Proximity, uid)};
      power := gravity + proximity;
    }

    /** One pass of UidEntity::Calculate's loop body: bluetooth first, then the other components. */
    method AppPower(uid: int, cpu: map<int, real>, ghost s: State, ghost done: set<TimerKey>) returns (power: real)
      requires Valid() && AsOf(s, done)
      modifies owned
      ensures Valid() && AsOf(s, done + AppKeys(s, uid))
      ensures power == AppMah(env, s, cpu, uid)
    {
      var connectivity := CalculateForConnectivity(uid, s, done);
      ghost var keys := done + {UidTimer(BrScan, uid), UidTimer(BleScan, uid)};
      var common := CalculateForCommon(uid, cpu, s, keys);
      assert keys + CameraKeys(s, uid) + CommonKeys(uid) == done + AppKeys(s, uid);
      AppMahTerms(env, s, cpu, uid);
      power := connectivity + common;
    }

    method AddStats(entry: Info)
      modifies this`totalPowerMah, this`statsInfoList
      ensures totalPowerMah == old(totalPowerMah) + entry.power && statsInfoList == old(statsInfoList) + [entry]
    {
      totalPowerMah := totalPowerMah + entry.power;
      statsInfoList := statsInfoList + [entry];
    }

    method AggregateUserPowerMah(userId: int, power: real)
      modifies this`userPowerMap
      ensures userPowerMap == Credited(old(userPowerMap), userId, power)
    {
      if userId in userPowerMap {
        userPowerMap := userPowerMap[userId := userPowerMap[userId] + power];
      } else {
        userPowerMap := userPowerMap[userId := power];
      }
    }

    /** One uid's power is stored, added to the total, listed and added to its account. */
    method Publish(uid: int, power: real)
      modifies this`uidPowerMap, this`userPowerMap, this`totalPowerMah, this`statsInfoList
      ensures uidPowerMap == old(uidPowerMap)[uid := power]
      ensures totalPowerMah == old(totalPowerMah) + power
      ensures statsInfoList == old(statsInfoList) + [AppInfo(uid, power)]
      ensures userPowerMap == Credited(old(userPowerMap), env.account(uid), power)
    {
      uidPowerMap := uidPowerMap[uid := power];
      AddStats(AppInfo(uid, power));
      AggregateUserPowerMah(env.account(uid), power);
    }

    /** The body of UidEntity::Calculate's loop. */
    method CalculateUid(uids: seq<int>, i: nat, cpu: map<int, real>, ghost s: State, ghost done: set<TimerKey>,
                        ghost power: map<int, real>)
      requires Valid() && AsOf(s, done) && i < |uids|
      requires RolledUp(s.userPower, env.account, uids, power, i, uidPowerMap, userPowerMap, totalPowerMah,
                        statsInfoList)
      requires AppPowers(env, s, cpu, power)
      modifies this`uidPowerMap, this`userPowerMap, this`totalPowerMah, this`statsInfoList, owned
      ensures Valid() && AsOf(s, done + AppKeys(s, uids[i]))
      ensures RolledUp(s.userPower, env.account, uids, power, i + 1, uidPowerMap, userPowerMap, totalPowerMah,
                        statsInfoList)
    {
      var appPower := AppPower(uids[i], cpu, s, done);
      RolledUpStep(s.userPower, env.account, uids, power, i, uidPowerMap, userPowerMap, totalPowerMah, statsInfoList);
      Publish(uids[i], appPower);
    }

    /** UidEntity::Calculate. */
    method CalculateUids(cpu: map<int, real>, ghost s: State, ghost power: map<int, real>)
      requires AppPowers(env, s, cpu, power) && power.Keys == s.uidPower.Keys
      requires Valid() && AsOf(s, {}) && uidPowerMap == s.uidPower && userPowerMap == s.userPower
      requires totalPowerMah == 0.0 && statsInfoList == []
      modifies this`uidPowerMap, this`userPowerMap, this`totalPowerMah, this`statsInfoList, owned
      ensures Valid() && AsOf(s, UidTimerKeys(s))
      ensures uidPowerMap == power
          && AllRolledUp(s.userPower, env.account, power, userPowerMap, totalPowerMah, statsInfoList)
    {
      var uids := Sorted(uidPowerMap.Keys);
      ghost var done: set<TimerKey> := {};
      RolledUpNone(s.userPower, env.account, uids, power, uidPowerMap);
      for i := 0 to |uids|
        invariant Valid() && AsOf(s, done) && UidTimersOf(s, uids[..i], done)
        invariant RolledUp(s.userPower, env.account, uids, power, i, uidPowerMap, userPowerMap, totalPowerMah,
                           statsInfoList)
      {
        CalculateUid(uids, i, cpu, s, done, power);
        UidTimersGrow(s, uids, i, done);
        done := done + AppKeys(s, uids[i]);
      }
      assert uids[..|uids|] == uids;
      UidTimersAre(s, done);
      RolledUpAll(s.userPower, env.account, power, uidPowerMap, userPowerMap, totalPowerMah, statsInfoList);
    }

    /** BluetoothEntity::CalculateBtPower; the bluetooth service's uid has just been calculated. */
    method CalculateBluetooth(ghost cpu: map<int, real>, ghost s: State, ghost done: set<TimerKey>)
      requires Valid() && AsOf(s, done)
      requires uidPowerMap.Keys == s.uidPower.Keys && AppPowers(env, s, cpu, uidPowerMap)
      modifies this`bluetoothBrPowerMah, this`bluetoothBlePowerMah, this`totalPowerMah, this`statsInfoList, owned
      ensures Valid() && AsOf(s, done + {BrTimer, BleTimer})
      ensures bluetoothBrPowerMah == old(bluetoothBrPowerMah) + BrOnMah(env, s)
      ensures bluetoothBlePowerMah == old(bluetoothBlePowerMah) + BleOnMah(env, s)
      ensures totalPowerMah == old(totalPowerMah) + BluetoothMah(env, s, cpu)
      ensures statsInfoList == old(statsInfoList) + [PartInfo(TYPE_BLUETOOTH, BluetoothMah(env, s, cpu))]
    {
      var on := CalculateBluetoothOn(s, done);
      var service := GetBluetoothUidPower(cpu, s);
      AddStats(PartInfo(TYPE_BLUETOOTH, on + service));
    }

    /** Both radios' on-power, which also goes to the accumulators. */
    method CalculateBluetoothOn(ghost s: State, ghost done: set<TimerKey>) returns (on: real)
      requires Valid() && AsOf(s, done)
      modifies this`bluetoothBrPowerMah, this`bluetoothBlePowerMah, owned
      ensures Valid() && AsOf(s, done + {BrTimer, BleTimer})
      ensures bluetoothBrPowerMah == old(bluetoothBrPowerMah) + BrOnMah(env, s)
      ensures bluetoothBlePowerMah == old(bluetoothBlePowerMah) + BleOnMah(env, s)
      ensures on == BrOnMah(env, s) + BleOnMah(env, s)
    {
      var br := TimerPower(env.profile.Ma(BrOnMa), BrTimer, s, done);
      var ble := TimerPower(env.profile.Ma(BleOnMa), BleTimer, s, done + {BrTimer});
      assert done + {BrTimer} + {BleTimer} == done + {BrTimer, BleTimer};
      bluetoothBrPowerMah := bluetoothBrPowerMah + br;
      bluetoothBlePowerMah := bluetoothBlePowerMah + ble;
      on := br + ble;
    }

    method GetBluetoothUidPower(ghost cpu: map<int, real>, ghost s: State) returns (power: real)
      requires uidPowerMap.Keys == s.uidPower.Keys && AppPowers(env, s, cpu, uidPowerMap)
      ensures power == if env.bluetoothUid.Some? && env.bluetoothUid.value in s.uidPower
                       then AppMah(env, s, cpu, env.bluetoothUid.value) else 0.0
    {
      power := 0.0;
      if env.bluetoothUid.Some? && env.bluetoothUid.value in uidPowerMap {
        power := uidPowerMap[env.bluetoothUid.value];
      }
    }

    /** IdleEntity::Calculate. */
    method CalculateIdle(ghost s: State, ghost done: set<TimerKey>)
      requires Valid() && AsOf(s, done)
      modifies this`totalPowerMah, this`statsInfoList
      ensures totalPowerMah == old(totalPowerMah) + IdleMah(env, s)
      ensures statsInfoList == old(statsInfoList) + [PartInfo(TYPE_IDLE, IdleMah(env, s))]
    {
      var bootMs := helper.GetOnBatteryBootTimeMs();
      var upMs := helper.GetOnBatteryUpTimeMs();
      AddStats(PartInfo(TYPE_IDLE, env.profile.Ma(CpuSuspendMa) * (bootMs as real) / 3600000.0
                                   + env.profile.Ma(CpuIdleMa) * (upMs as real) / 3600000.0));
    }

    /** One of the two loops of PhoneEntity::Calculate. */
    method RadioPower(c: Current, key: int -> TimerKey, n: nat, ghost s: State, ghost done: set<TimerKey>)
      returns (mah: real)
      requires Valid() && AsOf(s, done)
      modifies owned
      ensures Valid() && AsOf(s, done + RadioKeys(key, n))
      ensures mah == RadioMah(env, s, c, key, n)
    {
      mah := 0.0;
      assert done + RadioKeys(key, 0) == done;
      for i := 0 to n
        invariant Valid() && AsOf(s, done + RadioKeys(key, i))
        invariant mah == RadioMah(env, s, c, key, i)
      {
        mah := AddRadio(c, key, i, mah, s, done);
      }
    }

    /** One pass of that loop. */
    method AddRadio(
      c: Current, key: int -> TimerKey, i: nat, before: real, ghost s: State, ghost done: set<TimerKey>)
      returns (mah: real)
      requires Valid() && AsOf(s, done + RadioKeys(key, i)) && before == RadioMah(env, s, c, key, i)
      modifies owned
      ensures Valid() && AsOf(s, done + RadioKeys(key, i + 1))
      ensures mah == RadioMah(env, s, c, key, i + 1)
    {
      RadioKeysStep(done, key, i);
      var one := TimerPower(env.profile.LevelMa(c, i), key(i), s, done + RadioKeys(key, i));
      mah := before + one;
    }

    /** PhoneEntity::Calculate. */
    method CalculatePhone(ghost s: State, ghost done: set<TimerKey>)
      requires Valid() && AsOf(s, done)
      modifies this`totalPowerMah, this`statsInfoList, owned
      ensures Valid() && AsOf(s, done + PhoneKeys())
      ensures totalPowerMah == old(totalPowerMah) + PhoneMah(env, s)
      ensures statsInfoList == old(statsInfoList) + [PartInfo(TYPE_PHONE, PhoneMah(env, s))]
    {
      var power := PhonePower(s, done);
      AddStats(PartInfo(TYPE_PHONE, power));
    }

    method PhonePower(ghost s: State, ghost done: set<TimerKey>) returns (mah: real)
      requires Valid() && AsOf(s, done)
      modifies owned
      ensures Valid() && AsOf(s, done + PhoneKeys()) && mah == PhoneMah(env, s)
    {
      PhoneKeysListed(done);
      ghost var read := done + RadioKeys(PhoneOnKey, RADIO_SIGNAL_BIN);
      var on := RadioPower(RadioOnMa, PhoneOnKey, RADIO_SIGNAL_BIN, s, done);
      var data := RadioPower(RadioDataMa, PhoneDataKey, RADIO_SIGNAL_BIN, s, read);
      mah := on + data;
    }

    /** The brightness power of one level, in current times milliseconds. */
    method LevelPower(k: TimerKey, ghost s: State, ghost done: set<TimerKey>) returns (power: real)
      requires Valid() && AsOf(s, done) && k.BrightnessTimer?
      modifies owned
      ensures Valid() && AsOf(s, done + {k})
      ensures power == env.profile.Ma(ScreenBrightnessMa) * (k.level as real) * (Reading(s, k) as real)
    {
      var averageMa := env.profile.Ma(ScreenBrightnessMa) * (k.level as real);
      var ms := ReadAsOf(k, s, done);
      power := averageMa * (ms as real);
    }

    /** One pass of the brightness loop. */
    method AddLevel(k: TimerKey, before: real, ghost s: State, ghost done: set<TimerKey>,
                    ghost seen: set<TimerKey>) returns (power: real)
      requires Valid() && AsOf(s, done + seen) && k.BrightnessTimer? && k !in seen
      requires before == Units(env, s, seen)
      modifies owned
      ensures Valid() && AsOf(s, done + (seen + {k}))
      ensures power == Units(env, s, seen + {k})
    {
      var one := LevelPower(k, s, done + seen);
      UnitsAdd(env, s, seen, k);
      assert done + seen + {k} == done + (seen + {k});
      power := before + one;
    }

    /** The brightness loop of ScreenEntity::Calculate, level by level. */
    method BrightnessPower(ghost s: State, ghost done: set<TimerKey>) returns (power: real)
      requires Valid() && AsOf(s, done)
      modifies owned
      ensures Valid() && AsOf(s, done + BrightnessKeys(s))
      ensures power == Units(env, s, BrightnessKeys(s))
    {
      assert timers.Keys == ViewOf(timers, owned).Keys == s.timers.Keys;
      var todo := set k | k in timers && k.BrightnessTimer? :: k;
      ghost var seen: set<TimerKey> := {};
      assert todo == BrightnessKeys(s) && done + seen == done;
      power := 0.0;
      while todo != {}
        invariant Valid() && AsOf(s, done + seen)
        invariant seen !! todo && seen + todo == BrightnessKeys(s)
        invariant power == Units(env, s, seen)
        decreases todo
      {
        var k :| k in todo;
        power := AddLevel(k, power, s, done, seen);
        todo, seen := todo - {k}, seen + {k};
      }
      assert seen == BrightnessKeys(s);
    }

    /** ScreenEntity::Calculate. */
    method CalculateScreen(ghost s: State, ghost done: set<TimerKey>)
      requires Valid() && AsOf(s, done)
      modifies this`totalPowerMah, this`statsInfoList, owned
      ensures Valid() && AsOf(s, done + ({ScreenTimer} + BrightnessKeys(s)))
      ensures totalPowerMah == old(totalPowerMah) + ScreenMah(env, s)
      ensures statsInfoList == old(statsInfoList) + [PartInfo(TYPE_SCREEN, ScreenMah(env, s))]
    {
      var ms := ReadAsOf(ScreenTimer, s, done);
      var brightness := BrightnessPower(s, done + {ScreenTimer});
      assert done + {ScreenTimer} + BrightnessKeys(s) == done + ({ScreenTimer} + BrightnessKeys(s));
      AddStats(PartInfo(TYPE_SCREEN, (env.profile.Ma(ScreenOnMa) * (ms as real) + brightness) / 3600000.0));
    }

    /** WifiEntity::Calculate. */
    method CalculateWifi(ghost s: State, ghost done: set<TimerKey>)
      requires Valid() && AsOf(s, done)
      modifies this`totalPowerMah, this`statsInfoList, owned
      ensures Valid() && AsOf(s, done + {WifiTimer})
      ensures totalPowerMah == old(totalPowerMah) + WifiMah(env, s)
      ensures statsInfoList == old(statsInfoList) + [PartInfo(TYPE_WIFI, WifiMah(env, s))]
    {
      var on := TimerPower(env.profile.Ma(WifiOnMa), WifiTimer, s, done);
      var scans := GetConsumptionCount(WifiScans);
      AddStats(PartInfo(TYPE_WIFI, on + env.profile.Ma(WifiScanMa) * (scans as real)));
    }

    /** UserEntity::Calculate: the accounts are listed but not added to the total. */
    method CalculateUsers()
      modifies this`statsInfoList
      ensures var accounts := Sorted(userPowerMap.Keys);
              statsInfoList == old(statsInfoList) + UserEntries(accounts, userPowerMap, |accounts|)
    {
      var accounts := Sorted(userPowerMap.Keys);
      for i := 0 to |accounts|
        invariant statsInfoList == old(statsInfoList) + UserEntries(accounts, userPowerMap, i)
      {
        statsInfoList := statsInfoList + [UserInfo(accounts[i], userPowerMap[accounts[i]])];
      }
    }

    /** The first three parts, in the order ComputePower calls them. */
    method CalculateRadios(ghost cpu: map<int, real>, ghost s: State, ghost done: set<TimerKey>)
      requires Valid() && AsOf(s, done)
      requires uidPowerMap.Keys == s.uidPower.Keys && AppPowers(env, s, cpu, uidPowerMap)
      modifies this`bluetoothBrPowerMah, this`bluetoothBlePowerMah, this`totalPowerMah, this`statsInfoList, owned
      ensures Valid() && AsOf(s, done + {BrTimer, BleTimer} + PhoneKeys())
      ensures bluetoothBrPowerMah == old(bluetoothBrPowerMah) + BrOnMah(env, s)
      ensures bluetoothBlePowerMah == old(bluetoothBlePowerMah) + BleOnMah(env, s)
      ensures totalPowerMah == old(totalPowerMah) + BluetoothMah(env, s, cpu) + IdleMah(env, s) + PhoneMah(env, s)
      ensures statsInfoList == old(statsInfoList) + [PartInfo(TYPE_BLUETOOTH, BluetoothMah(env, s, cpu)),
                                                     PartInfo(TYPE_IDLE, IdleMah(env, s)),
                                                     PartInfo(TYPE_PHONE, PhoneMah(env, s))]
    {
      CalculateBluetooth(cpu, s, done);
      CalculateIdle(s, done + {BrTimer, BleTimer});
      CalculatePhone(s, done + {BrTimer, BleTimer});
    }

    /** The last two parts. */
    method CalculateDisplay(ghost s: State, ghost done: set<TimerKey>)
      requires Valid() && AsOf(s, done)
      modifies this`totalPowerMah, this`statsInfoList, owned
      ensures Valid() && AsOf(s, done + ({ScreenTimer} + BrightnessKeys(s)) + {WifiTimer})
      ensures totalPowerMah == old(totalPowerMah) + ScreenMah(env, s) + WifiMah(env, s)
      ensures statsInfoList == old(statsInfoList)
          + [PartInfo(TYPE_SCREEN, ScreenMah(env, s)), PartInfo(TYPE_WIFI, WifiMah(env, s))]
    {
      CalculateScreen(s, done);
      CalculateWifi(s, done + ({ScreenTimer} + BrightnessKeys(s)));
    }

    /** The five parts. */
    method CalculateParts(ghost cpu: map<int, real>, ghost s: State, ghost done: set<TimerKey>, ghost p: Powers)
      requires Valid() && AsOf(s, done)
      requires uidPowerMap == p.apps && Computes(env, s, cpu, p)
      modifies this`bluetoothBrPowerMah, this`bluetoothBlePowerMah, this`totalPowerMah, this`statsInfoList, owned
      ensures Valid() && AsOf(s, done + PartKeys(s))
      ensures bluetoothBrPowerMah == old(bluetoothBrPowerMah) + p.br
      ensures bluetoothBlePowerMah == old(bluetoothBlePowerMah) + p.ble
      ensures totalPowerMah == old(totalPowerMah) + p.parts.Sum()
      ensures statsInfoList == old(statsInfoList) + p.parts.Entries()
    {
      PartsGiven(env, s, cpu, p);
      PartKeysListed(s, done);
      CalculateRadios(cpu, s, done);
      CalculateDisplay(s, done + {BrTimer, BleTimer} + PhoneKeys());
    }

    /** The parts and the accounts, once the uids are rolled up. */
    method CalculateRest(ghost cpu: map<int, real>, ghost s: State, ghost done: set<TimerKey>, ghost p: Powers)
      requires Valid() && AsOf(s, done)
      requires uidPowerMap == p.apps && Computes(env, s, cpu, p)
      requires AllRolledUp(s.userPower, env.account, p.apps, userPowerMap, totalPowerMah, statsInfoList)
      modifies this`bluetoothBrPowerMah, this`bluetoothBlePowerMah, this`totalPowerMah, this`statsInfoList, owned
      ensures Valid() && AsOf(s, done + PartKeys(s))
      ensures bluetoothBrPowerMah == old(bluetoothBrPowerMah) + p.br
      ensures bluetoothBlePowerMah == old(bluetoothBlePowerMah) + p.ble
      ensures Totalled(s.userPower, env.account, p, userPowerMap, totalPowerMah, statsInfoList)
    {
      TotalledIs(s.userPower, env.account, p, userPowerMap, totalPowerMah, statsInfoList);
      CalculateParts(cpu, s, done, p);
      CalculateUsers();
    }

    /** All seven Calculate calls, given the powers p they arrive at. */
    method CalculateAll(cpu: map<int, real>, ghost s: State, ghost p: Powers)
      requires Valid() && AsOf(s, {}) && Computes(env, s, cpu, p)
      requires uidPowerMap == s.uidPower && userPowerMap == s.userPower && totalPowerMah == 0.0 && statsInfoList == []
      modifies this`uidPowerMap, this`userPowerMap, this`bluetoothBrPowerMah, this`bluetoothBlePowerMah,
               this`totalPowerMah, this`statsInfoList, owned
      ensures Valid() && AsOf(s, UidTimerKeys(s) + PartKeys(s)) && uidPowerMap == p.apps
      ensures bluetoothBrPowerMah == old(bluetoothBrPowerMah) + p.br
      ensures bluetoothBlePowerMah == old(bluetoothBlePowerMah) + p.ble
      ensures Totalled(s.userPower, env.account, p, userPowerMap, totalPowerMah, statsInfoList)
    {
      CalculateUids(cpu, s, p.apps);
      CalculateRest(cpu, s, UidTimerKeys(s), p);
    }

    method ResetStatsEntity(ghost s: State)
      requires Valid() && View() == s
      modifies this`totalPowerMah, this`statsInfoList
      ensures totalPowerMah == 0.0 && statsInfoList == []
      ensures Valid() && AsOf(s, {})
    {
      RefreshNone(s, {});
      totalPowerMah, statsInfoList := 0.0, [];
    }

    /** The state they leave. */
    method CalculateFrom(cpu: map<int, real>, ghost s: State, ghost p: Powers)
      requires Valid() && View() == s && Computes(env, s, cpu, p)
      modifies this`uidPowerMap, this`userPowerMap, this`bluetoothBrPowerMah, this`bluetoothBlePowerMah,
               this`totalPowerMah, this`statsInfoList, owned
      ensures Valid() && View() == Assembled(s, p, userPowerMap, totalPowerMah, statsInfoList)
      ensures Totalled(s.userPower, env.account, p, userPowerMap, totalPowerMah, statsInfoList)
    {
      ResetStatsEntity(s);
      CalculateAll(cpu, s, p);
    }

    method ComputePower(cpu: map<int, real>)
      requires Valid()
      modifies this`uidPowerMap, this`userPowerMap, this`bluetoothBrPowerMah, this`bluetoothBlePowerMah,
               this`totalPowerMah, this`statsInfoList, owned
      ensures Valid() && View() == CoreSpec.ComputePower(env, old(View()), cpu)
    {
      ghost var s := View();
      CalculateFrom(cpu, s, PowersOf(env, s, cpu));
      ComputedIs(env, s, cpu, userPowerMap, totalPowerMah, statsInfoList);
    }

    // ---- Reset ----

    method ResetTimer(k: TimerKey, ghost s: State, ghost done: set<TimerKey>)
      requires Valid() && k in timers && helper.View() == s.clock && ViewOf(timers, owned) == ResetTimers(s, done)
      requires k !in done
      modifies timers[k]
      ensures Valid() && ViewOf(timers, owned) == ResetTimers(s, done + {k})
    {
      assert timers[k].View() == ViewOf(timers, owned)[k] == s.timers[k];
      assert forall j :: j in timers && j != k ==> timers[j] != timers[k];
      timers[k].Reset(helper);
      OneTimerMoved(k);
    }

    /** The entities' Reset methods walk their own maps; together they reach every timer. */
    method ResetAllTimers(ghost s: State)
      requires Valid() && helper.View() == s.clock && ViewOf(timers, owned) == s.timers
      modifies owned
      ensures Valid() && ViewOf(timers, owned) == CoreSpec.Reset(s).timers
    {
      var todo := timers.Keys;
      ghost var done: set<TimerKey> := {};
      assert ResetTimers(s, done) == s.timers;
      while todo != {}
        invariant Valid() && todo !! done && todo + done == timers.Keys
        invariant ViewOf(timers, owned) == ResetTimers(s, done)
        decreases todo
      {
        var k :| k in todo;
        ResetTimer(k, s, done);
        todo, done := todo - {k}, done + {k};
      }
      assert timers.Keys == ViewOf(timers, owned).Keys == s.timers.Keys;
      assert ResetTimers(s, done) == CoreSpec.Reset(s).timers;
    }

    /** The counters' and powers' half of the Reset methods. */
    method ResetPowers()
      modifies this`counters, this`uidPowerMap, this`userPowerMap, this`bluetoothBrPowerMah, this`bluetoothBlePowerMah,
               this`totalPowerMah, this`statsInfoList
      ensures counters == NoCounts(old(counters))
      ensures uidPowerMap == NoPowers(old(uidPowerMap)) && userPowerMap == NoPowers(old(userPowerMap))
      ensures bluetoothBrPowerMah == bluetoothBlePowerMah == totalPowerMah == 0.0 && statsInfoList == []
    {
      counters := map c | c in counters :: 0;
      uidPowerMap := map u | u in uidPowerMap :: 0.0;
      userPowerMap := map a | a in userPowerMap :: 0.0;
      bluetoothBrPowerMah, bluetoothBlePowerMah := 0.0, 0.0;
      totalPowerMah, statsInfoList := 0.0, [];
    }

    /** The camera and screen flags and the known uids stay. */
    method Reset()
      requires Valid()
      modifies this`counters, this`uidPowerMap, this`userPowerMap, this`bluetoothBrPowerMah, this`bluetoothBlePowerMah,
               this`totalPowerMah, this`statsInfoList, owned
      ensures Valid() && View() == CoreSpec.Reset(old(View()))
    {
      ghost var s := View();
      ResetAllTimers(s);
      ResetPowers();
    }

    // ---- Reading the roll-up ----

    method GetAppStatsMah(uid: int) returns (mah: real)
      ensures mah == AppStatsMah(statsInfoList, uid)
    {
      for i := 0 to |statsInfoList|
        invariant AppStatsMah(statsInfoList, uid) == AppStatsMah(statsInfoList[i..], uid)
      {
        if statsInfoList[i].kind == TYPE_APP {
          if statsInfoList[i].uid == uid {
            return statsInfoList[i].power;
          }
        }
      }
      mah := 0.0;
    }

    method GetAppStatsPercent(uid: int) returns (percent: real)
      ensures percent == AppStatsPercent(totalPowerMah, statsInfoList, uid)
    {
      if totalPowerMah <= 0.0 {
        return 0.0;
      }
      for i := 0 to |statsInfoList|
        invariant AppStatsMah(statsInfoList, uid) == AppStatsMah(statsInfoList[i..], uid)
      {
        if statsInfoList[i].kind == TYPE_APP {
          if statsInfoList[i].uid == uid {
            return statsInfoList[i].power / totalPowerMah;
          }
        }
      }
      percent := 0.0;
    }

    method GetPartStatsMah(kind: int) returns (mah: real)
      ensures mah == PartStatsMah(statsInfoList, kind)
    {
      for i := 0 to |statsInfoList|
        invariant PartStatsMah(statsInfoList, kind) == PartStatsMah(statsInfoList[i..], kind)
      {
        if statsInfoList[i].kind == kind {
          return statsInfoList[i].power;
        }
      }
      mah := 0.0;
    }

    method GetPartStatsPercent(kind: int) returns (percent: real)
      ensures percent == PartStatsPercent(totalPowerMah, statsInfoList, kind)
    {
      for i := 0 to |statsInfoList|
        invariant totalPowerMah == 0.0 || PartStatsMah(statsInfoList, kind) == PartStatsMah(statsInfoList[i..], kind)
      {
        if statsInfoList[i].kind == kind && totalPowerMah != 0.0 {
          return statsInfoList[i].power / totalPowerMah;
        }
      }
      percent := 0.0;
    }

    // ---- Saving and loading ----

    /** The "Power" object starts as `before` and grows by one number per entry that is not USER. */
    method SaveForPower(before: seq<Member>) returns (powerObj: seq<Member>)
      ensures powerObj == before + Saved(statsInfoList)
    {
      powerObj := before;
      for i := 0 to |statsInfoList|
        invariant powerObj == before + Saved(statsInfoList[..i])
      {
        var info := statsInfoList[i];
        assert statsInfoList[..i + 1][..i] == statsInfoList[..i];
        if info.kind == TYPE_APP {
          powerObj := powerObj + [Named(info.uid, info.power)];
        } else if info.kind != TYPE_USER {
          powerObj := powerObj + [Named(info.kind, info.power)];
        }
      }
      assert statsInfoList[..|statsInfoList|] == statsInfoList;
    }

    method LevelTime(kind: StatsType, level: int, ghost s: State, ghost done: set<TimerKey>)
      returns (ms: int, ghost read: set<TimerKey>)
      requires Valid() && AsOf(s, done)
      modifies owned
      ensures Valid() && AsOf(s, read) && ms == LevelMs(s, kind, level)
    {
      ghost var ks := LevelKeys(View(), kind, level);
      SameLevel(s, View(), done, kind, level);
      RefreshTwice(s, done, ks);
      read := done + ks;
      ms := GetTotalTimeMs(kind, level);
    }

    /** The arrays of the hardware section. */
    method LevelTimes(kind: StatsType, n: nat, ghost s: State, ghost done: set<TimerKey>)
      returns (times: seq<int>, ghost read: set<TimerKey>)
      requires Valid() && AsOf(s, done)
      modifies owned
      ensures Valid() && AsOf(s, read) && AreLevels(s, kind, times, n)
    {
      times, read := [], done;
      for level := 0 to n
        invariant Valid() && AsOf(s, read) && AreLevels(s, kind, times, level)
      {
        var ms;
        ms, read := LevelTime(kind, level, s, read);
        times := times + [ms];
      }
    }

    method SaveForHardware(ghost s: State, ghost done: set<TimerKey>)
      returns (hardware: Hardware, ghost read: set<TimerKey>)
      requires Valid() && AsOf(s, done)
      modifies owned
      ensures Valid() && AsOf(s, read) && IsHardware(s, hardware)
    {
      var radios, screen, wifi, phone;
      radios, read := SaveForBluetooth(s, done);
      screen, read := SaveForScreen(s, read);
      wifi, read := SaveForWifi(s, read);
      phone, read := SaveForHardwareInternal(s, read);
      hardware := Hardware(radios, screen, wifi, phone);
    }

    method SaveForBluetooth(ghost s: State, ghost done: set<TimerKey>)
      returns (radios: RadioTimes, ghost read: set<TimerKey>)
      requires Valid() && AsOf(s, done)
      modifies owned
      ensures Valid() && AsOf(s, read) && AreRadios(s, radios)
    {
      var brOn, bleOn;
      brOn, read := LevelTime(BluetoothBrOn, INVALID_VALUE, s, done);
      bleOn, read := LevelTime(BluetoothBleOn, INVALID_VALUE, s, read);
      radios := RadioTimes(brOn, bleOn);
    }

    method SaveForScreen(ghost s: State, ghost done: set<TimerKey>)
      returns (screen: ScreenTimes, ghost read: set<TimerKey>)
      requires Valid() && AsOf(s, done)
      modifies owned
      ensures Valid() && AsOf(s, read) && IsScreen(s, screen)
    {
      var on, brightness;
      on, read := LevelTime(ScreenOn, INVALID_VALUE, s, done);
      brightness, read := LevelTimes(ScreenBrightness, SCREEN_BRIGHTNESS_BIN + 1, s, read);
      screen := ScreenTimes(on, brightness);
    }

    method SaveForWifi(ghost s: State, ghost done: set<TimerKey>)
      returns (wifi: WifiUse, ghost read: set<TimerKey>)
      requires Valid() && AsOf(s, done)
      modifies owned
      ensures Valid() && AsOf(s, read) && IsWifi(s, wifi)
    {
      var on;
      on, read := LevelTime(WifiOn, INVALID_VALUE, s, done);
      var scans := GetTotalConsumptionCount(WifiScan, INVALID_VALUE);
      wifi := WifiUse(on, scans);
    }

    method SaveForHardwareInternal(ghost s: State, ghost done: set<TimerKey>)
      returns (phone: PhoneTimes, ghost read: set<TimerKey>)
      requires Valid() && AsOf(s, done)
      modifies owned
      ensures Valid() && AsOf(s, read) && IsPhone(s, phone)
    {
      var cpuIdle, radioOn, radioData;
      cpuIdle, read := LevelTime(PhoneIdle, INVALID_VALUE, s, done);
      radioOn, read := LevelTimes(PhoneActive, RADIO_SIGNAL_BIN, s, read);
      radioData, read := LevelTimes(PhoneData, RADIO_SIGNAL_BIN, s, read);
      phone := PhoneTimes(cpuIdle, radioOn, radioData);
    }

    method UidTime(uid: int, kind: StatsType, ghost s: State, ghost done: set<TimerKey>)
      returns (ms: int, ghost read: set<TimerKey>)
      requires Valid() && AsOf(s, done) && kind != CpuTime
      modifies owned
      ensures Valid() && AsOf(s, read) && ms == UidMs(s, uid, kind)
    {
      ghost var ks := UidKeys(View(), uid, kind);
      SameUid(s, View(), done, uid, kind);
      RefreshTwice(s, done, ks);
      read := done + ks;
      ms := GetUidTimeMs(uid, kind, 0);
    }

    method SaveForSoftwareCommon(uid: int, ghost s: State, ghost done: set<TimerKey>)
      returns (common: CommonUse, ghost read: set<TimerKey>)
      requires Valid() && AsOf(s, done)
      modifies owned
      ensures Valid() && AsOf(s, read) && IsCommon(s, uid, common)
    {
      var lens, hold, sensors;
      lens, read := SaveForLens(uid, s, done);
      hold, read := SaveForHold(uid, s, read);
      sensors, read := SaveForSensors(uid, s, read);
      var alarms := GetTotalConsumptionCount(Alarm, uid);
      common := CommonUse(lens, hold, sensors, alarms);
    }

    method SaveForLens(uid: int, ghost s: State, ghost done: set<TimerKey>)
      returns (lens: LensTimes, ghost read: set<TimerKey>)
      requires Valid() && AsOf(s, done)
      modifies owned
      ensures Valid() && AsOf(s, read) && IsLens(s, uid, lens)
    {
      var camera, flashlight;
      camera, read := UidTime(uid, CameraOn, s, done);
      flashlight, read := UidTime(uid, FlashlightOn, s, read);
      lens := LensTimes(camera, flashlight);
    }

    method SaveForHold(uid: int, ghost s: State, ghost done: set<TimerKey>)
      returns (hold: HoldTimes, ghost read: set<TimerKey>)
      requires Valid() && AsOf(s, done)
      modifies owned
      ensures Valid() && AsOf(s, read) && IsHold(s, uid, hold)
    {
      var gnss, audio, wakelock;
      gnss, read := UidTime(uid, GnssOn, s, done);
      audio, read := UidTime(uid, AudioOn, s, read);
      wakelock, read := UidTime(uid, WakelockHold, s, read);
      hold := HoldTimes(gnss, audio, wakelock);
    }

    method SaveForSensors(uid: int, ghost s: State, ghost done: set<TimerKey>)
      returns (sensors: SensorTimes, ghost read: set<TimerKey>)
      requires Valid() && AsOf(s, done)
      modifies owned
      ensures Valid() && AsOf(s, read) && AreSensors(s, uid, sensors)
    {
      var gravity, proximity;
      gravity, read := UidTime(uid, SensorGravityOn, s, done);
      proximity, read := UidTime(uid, SensorProximityOn, s, read);
      sensors := SensorTimes(gravity, proximity);
    }

    method SaveForSoftwareConnectivity(uid: int, ghost s: State, ghost done: set<TimerKey>)
      returns (scans: ScanTimes, ghost read: set<TimerKey>)
      requires Valid() && AsOf(s, done)
      modifies owned
      ensures Valid() && AsOf(s, read) && AreScans(s, uid, scans)
    {
      var br, ble;
      br, read := UidTime(uid, BluetoothBrScan, s, done);
      ble, read := UidTime(uid, BluetoothBleScan, s, read);
      scans := ScanTimes(br, ble);
    }

    method SaveForSoftware(ghost s: State, ghost done: set<TimerKey>)
      returns (software: seq<Software>, ghost read: set<TimerKey>)
      requires Valid() && AsOf(s, done) && uidPowerMap == s.uidPower
      modifies owned
      ensures Valid() && AsOf(s, read) && AreSoftware(s, Sorted(s.uidPower.Keys), software)
    {
      var uids := Sorted(uidPowerMap.Keys);
      software, read := [], done;
      for i := 0 to |uids|
        invariant Valid() && AsOf(s, read) && AreSoftware(s, uids[..i], software)
      {
        var common, scans;
        common, read := SaveForSoftwareCommon(uids[i], s, read);
        scans, read := SaveForSoftwareConnectivity(uids[i], s, read);
        software := software + [Software(uids[i], common, scans)];
      }
      assert uids[..|uids|] == uids;
    }

    /** The three sections of the file, all as of the roll-up; the sections' queries only rebase timers. */
    method SaveBatteryStatsData(cpu: map<int, real>)
      returns (powerObj: seq<Member>, hardware: Hardware, software: seq<Software>, ghost read: set<TimerKey>)
      requires Valid()
      modifies this`uidPowerMap, this`userPowerMap, this`bluetoothBrPowerMah, this`bluetoothBlePowerMah,
               this`totalPowerMah, this`statsInfoList, owned
      ensures Valid() && View() == Refresh(CoreSpec.ComputePower(env, old(View()), cpu), read)
      ensures powerObj == Saved(View().list)
      ensures var r := CoreSpec.ComputePower(env, old(View()), cpu);
              IsHardware(r, hardware) && AreSoftware(r, Sorted(r.uidPower.Keys), software)
    {
      ComputePower(cpu);
      ghost var r := View();
      powerObj := SaveForPower([]);
      hardware, software, read := SaveSections(r);
    }

    method SaveSections(ghost r: State)
      returns (hardware: Hardware, software: seq<Software>, ghost read: set<TimerKey>)
      requires Valid() && View() == r
      modifies owned
      ensures Valid() && View() == Refresh(r, read)
      ensures IsHardware(r, hardware) && AreSoftware(r, Sorted(r.uidPower.Keys), software)
    {
      RefreshNone(r, {});
      hardware, read := SaveForHardware(r, {});
      software, read := SaveForSoftware(r, read);
    }

    /** One child of the loaded object: a new list entry, and its power credited to its account. */
    method LoadMember(member: Member, users: map<int, real>) returns (tmpUserPowerMap: map<int, real>)
      modifies this`statsInfoList
      ensures statsInfoList == old(statsInfoList) + LoadedEntry(member)
      ensures tmpUserPowerMap ==
          if LoadedEntry(member) != [] then Counting(users, env.account, LoadedEntry(member)[0]) else users
    {
      tmpUserPowerMap := users;
      if member.key.None? || member.number.None? {
        return;
      }
      var ok, result := ParseStrtollResult(member.key.value);
      if !ok {
        return;
      }
      var id := ToInt32(result);
      var info := NEW_INFO;
      if id > INVALID_VALUE {
        info := info.SetUid(id).(kind := TYPE_APP, power := member.number.value);
        var usr := env.account(id);
        if usr in users {
          tmpUserPowerMap := users[usr := users[usr] + info.power];
        } else {
          tmpUserPowerMap := users[usr := info.power];
        }
      } else if id < INVALID_VALUE && id > TYPE_INVALID {
        info := info.SetUid(INVALID_VALUE).(kind := id, power := member.number.value);
      }
      statsInfoList := statsInfoList + [info];
    }

    /** The first loop of UpdateStatsEntity. */
    method LoadMembers(members: seq<Member>) returns (tmpUserPowerMap: map<int, real>)
      requires statsInfoList == []
      modifies this`statsInfoList
      ensures statsInfoList == Loaded(members) && tmpUserPowerMap == ByAccount(env.account, Loaded(members))
    {
      tmpUserPowerMap := map[];
      for i := 0 to |members|
        invariant statsInfoList == Loaded(members[..i])
        invariant tmpUserPowerMap == ByAccount(env.account, Loaded(members[..i]))
      {
        LoadedSnoc(members, i);
        ByAccountStep(env.account, Loaded(members[..i]), LoadedEntry(members[i]));
        tmpUserPowerMap := LoadMember(members[i], tmpUserPowerMap);
      }
      assert members[..|members|] == members;
    }

    /** The second loop: one USER entry per account. */
    method LoadUsers(tmpUserPowerMap: map<int, real>)
      modifies this`statsInfoList
      ensures var accounts := Sorted(tmpUserPowerMap.Keys);
              statsInfoList == old(statsInfoList) + UserEntries(accounts, tmpUserPowerMap, |accounts|)
    {
      var accounts := Sorted(tmpUserPowerMap.Keys);
      for i := 0 to |accounts|
        invariant statsInfoList == old(statsInfoList) + UserEntries(accounts, tmpUserPowerMap, i)
      {
        statsInfoList := statsInfoList + [UserInfo(accounts[i], tmpUserPowerMap[accounts[i]])];
      }
    }

    /** The total is not restored: it stays 0 until the next ComputePower. */
    method UpdateStatsEntity(powerObj: Option<seq<Member>>)
      modifies this`totalPowerMah, this`statsInfoList
      ensures totalPowerMah == 0.0
      ensures statsInfoList == if powerObj.Some? then Reloaded(env.account, powerObj.value) else []
    {
      totalPowerMah, statsInfoList := 0.0, [];
      if powerObj.None? {
        return;
      }
      var tmpUserPowerMap := LoadMembers(powerObj.value);
      LoadUsers(tmpUserPowerMap);
    }
  }
}
