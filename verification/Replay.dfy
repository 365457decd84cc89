/** Any run replayed on the service object: the objects reach the run's state, so its laws are laws of their answers. */
module Replay {
  import opened StatsTypes
  import opened StatsHelperObjects
  import opened CoreSpec
  import opened TraceSpec
  import opened Power
  import opened PowerStore
  import opened SavedTimes
  import opened ByName
  import opened TimesByName
  import opened BatteryStatsCoreObject

  method HandleLevelQuery(core: BatteryStatsCore, e: Event)
    requires core.Valid() && e.AskLevel?
    modifies core.owned
    ensures core.Valid() && core.View() == Step(core.env, old(core.View()), e)
  {
    var _ := core.GetTotalTimeMs(e.kind, e.level);
  }

  method HandleUidQuery(core: BatteryStatsCore, e: Event)
    requires core.Valid() && e.AskUid?
    modifies core.owned
    ensures core.Valid() && core.View() == Step(core.env, old(core.View()), e)
  {
    var _ := core.GetUidTimeMs(e.uid, e.kind, 0);
  }

  method HandleCompute(core: BatteryStatsCore, e: Event)
    requires core.Valid() && e.Compute?
    modifies core, core.owned
    ensures core.Valid() && core.owned == old(core.owned) && core.View() == Step(core.env, old(core.View()), e)
  {
    core.ComputePower(e.cpu);
  }

  method HandleReset(core: BatteryStatsCore, e: Event)
    requires core.Valid() && e.ResetAll?
    modifies core, core.owned
    ensures core.Valid() && core.owned == old(core.owned) && core.View() == Step(core.env, old(core.View()), e)
  {
    core.Reset();
  }

  /** The queries and roll-ups among the events. */
  method HandleQuery(core: BatteryStatsCore, e: Event)
    requires core.Valid() && (e.AskLevel? || e.AskUid? || e.Compute? || e.ResetAll?)
    modifies core, core.owned
    ensures core.Valid() && core.owned == old(core.owned) && core.View() == Step(core.env, old(core.View()), e)
  {
    if e.AskLevel? {
      HandleLevelQuery(core, e);
    } else if e.AskUid? {
      HandleUidQuery(core, e);
    } else if e.Compute? {
      HandleCompute(core, e);
    } else {
      HandleReset(core, e);
    }
  }

  method Handle(core: BatteryStatsCore, e: Event)
    requires core.Valid()
    modifies core, core.helper, core.owned
    ensures core.Valid() && fresh(core.owned - old(core.owned))
    ensures core.View() == Step(core.env, old(core.View()), e)
  {
    match e {
      case Tick(boot, up) => core.helper.Tick(boot, up);
      case Plug(onBattery) => core.helper.SetOnBattery(onBattery);
      case StateEvent(kind, state, level, uid, device) => core.UpdateState(kind, state, level, uid, device);
      case DataEvent(kind, data, uid) => core.UpdateData(kind, data, uid);
      case CpuUid(uid) => core.UpdateUidMap(uid);
      case _ => HandleQuery(core, e);
    }
  }

  method Replay(env: Env, tr: Trace) returns (core: BatteryStatsCore)
    ensures fresh(core) && fresh(core.helper) && core.env == env
    ensures core.Valid() && fresh(core.owned) && core.View() == Run(env, tr)
    decreases tr
  {
    match tr {
      case Boot(boot, up) =>
        var helper := new StatsHelper(boot, up);
        core := new BatteryStatsCore(env, helper);
      case Then(before, last) =>
        core := Replay(env, before);
        Handle(core, last);
    }
  }

  /** What the service answers about a uid after any run, whatever the type asked for. */
  method UidTimeAnswer(env: Env, tr: Trace, uid: int, kind: StatsType, cpuTimeMs: int) returns (ms: int)
    ensures ms == UidExpected(tr, uid, kind, cpuTimeMs)
  {
    var core := Replay(env, tr);
    ms := core.GetUidTimeMs(uid, kind, cpuTimeMs);
    if kind != CpuTime { UidByName(env, tr, uid, kind); }
  }

  /** What it answers about a component or one of its levels. */
  method LevelTimeAnswer(env: Env, tr: Trace, kind: StatsType, level: int) returns (ms: int)
    ensures ms == LevelExpected(tr, kind, level)
  {
    var core := Replay(env, tr);
    ms := core.GetTotalTimeMs(kind, level);
    LevelByName(env, tr, kind, level);
  }

  /** What it answers about a count. */
  method CountAnswer(env: Env, tr: Trace, kind: StatsType, uid: int) returns (count: int)
    ensures kind == WifiScan ==> count == Amount(tr, OfKind(WifiScan))
    ensures kind == Alarm && uid >= 0 ==> count == Amount(tr, OfUid(Alarm, uid))
    ensures kind != WifiScan && kind != Alarm ==> count == 0
  {
    var core := Replay(env, tr);
    count := core.GetTotalConsumptionCount(kind, uid);
    CountIsCounted(env, tr, WifiScans);
    CountIsCounted(env, tr, Alarms(uid));
    AmountIsCounted(tr, if uid >= 0 then uid else 0);
  }

  /** The power it answers for an app after any run and one more roll-up is that of its events. */
  method AppPowerMah(env: Env, tr: Trace, cpu: map<int, real>, uid: int) returns (mah: real)
    ensures mah == if uid in Known(tr) then AppExpected(env, tr, cpu, uid) else 0.0
  {
    var core := Replay(env, Then(tr, Compute(cpu)));
    mah := core.GetAppStatsMah(uid);
    PublishedByName(env, tr, cpu);
    assert core.statsInfoList == core.View().list;
  }

  /** And for the five parts. */
  method PartPowersMah(env: Env, tr: Trace, cpu: map<int, real>)
    returns (bluetooth: real, idle: real, phone: real, screen: real, wifi: real)
    ensures bluetooth == BluetoothExpected(env, tr, cpu) && idle == IdleExpected(env, tr)
    ensures phone == PhoneExpected(env, tr) && screen == ScreenExpected(env, tr) && wifi == WifiExpected(env, tr)
  {
    var core := Replay(env, Then(tr, Compute(cpu)));
    PublishedByName(env, tr, cpu);
    assert core.statsInfoList == core.View().list;
    bluetooth := core.GetPartStatsMah(TYPE_BLUETOOTH);
    idle := core.GetPartStatsMah(TYPE_IDLE);
    phone := core.GetPartStatsMah(TYPE_PHONE);
    screen := core.GetPartStatsMah(TYPE_SCREEN);
    wifi := core.GetPartStatsMah(TYPE_WIFI);
  }

  /** The hardware and software sections saved after any run record the times and counts of its events. */
  method SavedSections(env: Env, tr: Trace, cpu: map<int, real>) returns (hardware: Hardware, software: seq<Software>)
    ensures HardwareExpected(tr, hardware) && AllSoftwareExpected(tr, software)
  {
    var core := Replay(env, tr);
    var powerObj;
    ghost var read;
    ghost var s := CoreSpec.ComputePower(env, core.View(), cpu);
    powerObj, hardware, software, read := core.SaveBatteryStatsData(cpu);
    RunRollUp(env, tr, cpu);
    SectionsByName(env, tr, cpu, s, hardware, software);
  }

  /** After loading any saved list every app share and every part share is 0, whatever was loaded. */
  method SharesAfterLoad(core: BatteryStatsCore, powerObj: Option<seq<Member>>, uid: int, kind: int)
    returns (app: real, part: real)
    modifies core
    ensures app == 0.0 && part == 0.0
  {
    core.UpdateStatsEntity(powerObj);
    app := core.GetAppStatsPercent(uid);
    part := core.GetPartStatsPercent(kind);
  }
}
