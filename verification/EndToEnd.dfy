/** The numbers a roll-up publishes at the end of any run, from the run's events alone. */
module EndToEnd {
  import opened StatsTypes
  import opened CoreSpec
  import opened TraceSpec
  import opened Refinement
  import opened TimeLaws
  import opened Power
  import opened Rollup
  import opened Sums

  // ---- The five parts from the trace ----

  function Hours(ma: real, ms: nat): real {
    Draw(ma, ms) / 3600000.0
  }

  function BluetoothTrace(env: Env, tr: Trace, cpu: map<int, real>): real {
    Hours(env.profile.Ma(BrOnMa), Charge(tr, BrTimer)) + Hours(env.profile.Ma(BleOnMa), Charge(tr, BleTimer))
    + if env.bluetoothUid.Some? && env.bluetoothUid.value in Known(tr)
      then AppTraceMah(env, tr, cpu, env.bluetoothUid.value) else 0.0
  }

  function IdleTrace(env: Env, tr: Trace): real {
    Hours(env.profile.Ma(CpuSuspendMa), OnBatteryBootMs(tr)) + Hours(env.profile.Ma(CpuIdleMa), OnBatteryUpMs(tr))
  }

  /** The first n signal levels of the radio being on. */
  function RadioOnTrace(env: Env, tr: Trace, n: nat): real {
    if n == 0 then 0.0
    else RadioOnTrace(env, tr, n - 1)
         + Hours(env.profile.LevelMa(RadioOnMa, n - 1), Charge(tr, PhoneOnTimer(n - 1)))
  }

  /** The first n signal levels of the radio carrying data. */
  function RadioDataTrace(env: Env, tr: Trace, n: nat): real {
    if n == 0 then 0.0
    else RadioDataTrace(env, tr, n - 1)
         + Hours(env.profile.LevelMa(RadioDataMa, n - 1), Charge(tr, PhoneDataTimer(n - 1)))
  }

  function PhoneTrace(env: Env, tr: Trace): real {
    RadioOnTrace(env, tr, RADIO_SIGNAL_BIN) + RadioDataTrace(env, tr, RADIO_SIGNAL_BIN)
  }

  function WifiTrace(env: Env, tr: Trace): real {
    Hours(env.profile.Ma(WifiOnMa), Charge(tr, WifiTimer)) + Draw(env.profile.Ma(WifiScanMa), Counted(tr, WifiScans))
  }

  function PartsTrace(env: Env, tr: Trace, cpu: map<int, real>): Parts {
    Parts(BluetoothTrace(env, tr, cpu), IdleTrace(env, tr), PhoneTrace(env, tr),
          ScreenEnergy(env, tr) / 3600000.0, WifiTrace(env, tr))
  }

  lemma TimerMahIsTraced(env: Env, tr: Trace, ma: real, k: TimerKey)
    ensures Mah(ma, Reading(Run(env, tr), k)) == Hours(ma, Charge(tr, k))
  {
    ReadingIsCharge(env, tr, k);
    MahIsDraw(ma, Charge(tr, k));
  }

  lemma RunFacts(env: Env, tr: Trace)
    ensures var s := Run(env, tr);
            && s.uidPower.Keys == Known(tr)
            && s.clock.BootMs() == OnBatteryBootMs(tr) && s.clock.UpMs() == OnBatteryUpMs(tr)
  {
    RunAgrees(env, tr);
  }

  lemma BluetoothIsTraced(env: Env, tr: Trace, cpu: map<int, real>)
    ensures BluetoothMah(env, Run(env, tr), cpu) == BluetoothTrace(env, tr, cpu)
  {
    RunFacts(env, tr);
    TimerMahIsTraced(env, tr, env.profile.Ma(BrOnMa), BrTimer);
    TimerMahIsTraced(env, tr, env.profile.Ma(BleOnMa), BleTimer);
    if env.bluetoothUid.Some? { AppMahIsEnergy(env, tr, cpu, env.bluetoothUid.value); }
  }

  lemma IdleIsTraced(env: Env, tr: Trace)
    ensures IdleMah(env, Run(env, tr)) == IdleTrace(env, tr)
  {
    RunFacts(env, tr);
    MahIsDraw(env.profile.Ma(CpuSuspendMa), OnBatteryBootMs(tr));
    MahIsDraw(env.profile.Ma(CpuIdleMa), OnBatteryUpMs(tr));
  }

  lemma {:induction false} RadioIsTraced(env: Env, tr: Trace, n: nat)
    ensures RadioMah(env, Run(env, tr), RadioOnMa, PhoneOnKey, n) == RadioOnTrace(env, tr, n)
    ensures RadioMah(env, Run(env, tr), RadioDataMa, PhoneDataKey, n) == RadioDataTrace(env, tr, n)
  {
    if n > 0 {
      RadioIsTraced(env, tr, n - 1);
      TimerMahIsTraced(env, tr, env.profile.LevelMa(RadioOnMa, n - 1), PhoneOnTimer(n - 1));
      TimerMahIsTraced(env, tr, env.profile.LevelMa(RadioDataMa, n - 1), PhoneDataTimer(n - 1));
    }
  }

  lemma WifiMahFrom(env: Env, s: State, ms: nat, n: nat)
    requires Mah(env.profile.Ma(WifiOnMa), Reading(s, WifiTimer)) == Hours(env.profile.Ma(WifiOnMa), ms)
    requires CountOf(s, WifiScans) == n
    ensures WifiMah(env, s) == Hours(env.profile.Ma(WifiOnMa), ms) + Draw(env.profile.Ma(WifiScanMa), n)
  {
    DrawIsProduct(env.profile.Ma(WifiScanMa), n);
  }

  lemma WifiIsTraced(env: Env, tr: Trace)
    ensures WifiMah(env, Run(env, tr)) == WifiTrace(env, tr)
  {
    TimerMahIsTraced(env, tr, env.profile.Ma(WifiOnMa), WifiTimer);
    CountIsCounted(env, tr, WifiScans);
    WifiMahFrom(env, Run(env, tr), Charge(tr, WifiTimer), Counted(tr, WifiScans));
  }

  lemma PhoneIsTraced(env: Env, tr: Trace)
    ensures PhoneMah(env, Run(env, tr)) == PhoneTrace(env, tr)
  {
    RadioIsTraced(env, tr, RADIO_SIGNAL_BIN);
  }

  lemma {:induction false} PartsAreTraced(env: Env, tr: Trace, cpu: map<int, real>)
    ensures PartsOf(env, Run(env, tr), cpu) == PartsTrace(env, tr, cpu)
  {
    BluetoothIsTraced(env, tr, cpu);
    IdleIsTraced(env, tr);
    PhoneIsTraced(env, tr);
    ScreenMahIsEnergy(env, tr);
    WifiIsTraced(env, tr);
  }

  function UidTrace(env: Env, tr: Trace, cpu: map<int, real>): map<int, real> {
    map u | u in Known(tr) :: AppTraceMah(env, tr, cpu, u)
  }

  lemma UidsAreTraced(env: Env, tr: Trace, cpu: map<int, real>)
    ensures UidPowers(env, Run(env, tr), cpu) == UidTrace(env, tr, cpu)
    ensures UidsValid(UidTrace(env, tr, cpu))
  {
    RunFacts(env, tr);
    TraceShape(tr);
    forall u | u in Known(tr) ensures AppMah(env, Run(env, tr), cpu, u) == AppTraceMah(env, tr, cpu, u) {
      AppMahIsEnergy(env, tr, cpu, u);
    }
  }

  // ---- What a roll-up publishes ----

  /** ComputePower is a Publish on a state with the same accounts. */
  lemma ComputeShape(env: Env, s: State, cpu: map<int, real>)
    ensures var r := ComputePower(env, s, cpu);
            var base := Refresh(s, BilledKeys(s));
            var p := Publish(base, env.account, UidPowers(env, s, cpu), PartsOf(env, s, cpu));
            && r.list == p.list && r.total == p.total && r.uidPower == p.uidPower && r.userPower == p.userPower
            && base.userPower == s.userPower
  {}

  /** A ComputePower at the end of tr publishes the trace's own numbers. */
  lemma ComputeIsPublish(env: Env, tr: Trace, cpu: map<int, real>) returns (base: State)
    ensures base.userPower == Run(env, tr).userPower
    ensures var r, p := Run(env, Then(tr, Compute(cpu))),
                        Publish(base, env.account, UidTrace(env, tr, cpu), PartsTrace(env, tr, cpu));
            r.list == p.list && r.total == p.total && r.uidPower == p.uidPower && r.userPower == p.userPower
  {
    base := Refresh(Run(env, tr), BilledKeys(Run(env, tr)));
    ComputeShape(env, Run(env, tr), cpu);
    PartsAreTraced(env, tr, cpu);
    UidsAreTraced(env, tr, cpu);
  }

  /** A published list and total carry exactly the trace's numbers. */
  ghost predicate Faithful(env: Env, tr: Trace, cpu: map<int, real>, list: seq<Info>, total: real) {
    var uids := Sorted(Known(tr));
    && (forall uid :: AppStatsMah(list, uid) == if uid in Known(tr) then AppTraceMah(env, tr, cpu, uid) else 0.0)
    && (forall kind :: IsPart(kind) ==> PartStatsMah(list, kind) == PowerOfPart(PartsTrace(env, tr, cpu), kind))
    && NonUser(list) == AppEntries(uids, UidTrace(env, tr, cpu), |uids|) + PartsTrace(env, tr, cpu).Entries()
    && total == ListPower(NonUser(list))
  }

  lemma PublishIsFaithful(env: Env, tr: Trace, cpu: map<int, real>, base: State, power: map<int, real>, parts: Parts)
    requires power == UidTrace(env, tr, cpu) && parts == PartsTrace(env, tr, cpu) && UidsValid(power)
    ensures var p := Publish(base, env.account, power, parts);
            Faithful(env, tr, cpu, p.list, p.total)
  {
    var p := Publish(base, env.account, power, parts);
    RollUpList(base, env.account, power, parts);
    assert power.Keys == Known(tr);
    forall kind | IsPart(kind) ensures PartStatsMah(p.list, kind) == PowerOfPart(PartsTrace(env, tr, cpu), kind) {
      RollUpLookups(base, env.account, power, parts, 0, kind);
    }
    forall uid ensures AppStatsMah(p.list, uid) == if uid in Known(tr) then AppTraceMah(env, tr, cpu, uid) else 0.0 {
      RollUpLookups(base, env.account, power, parts, uid, TYPE_IDLE);
    }
  }

  /**
   * End to end: after a ComputePower the getters answer, for every uid and every part, the charge
   * of the run's events; every uid ever named has exactly its entry, and the total is the sum of
   * all entries that are not USER.
   */
  lemma {:induction false} PublishedFromTrace(env: Env, tr: Trace, cpu: map<int, real>)
    ensures var r := Run(env, Then(tr, Compute(cpu)));
            Faithful(env, tr, cpu, r.list, r.total)
  {
    var base := ComputeIsPublish(env, tr, cpu);
    UidsAreTraced(env, tr, cpu);
    PublishIsFaithful(env, tr, cpu, base, UidTrace(env, tr, cpu), PartsTrace(env, tr, cpu));
  }

  /** The bluetooth service's own power is in its APP entry and once more in the bluetooth part. */
  lemma {:induction false} BluetoothCountedTwice(env: Env, tr: Trace, cpu: map<int, real>, uid: int)
    requires env.bluetoothUid == Some(uid) && uid in Known(tr)
    ensures var list := Run(env, Then(tr, Compute(cpu))).list;
            && AppStatsMah(list, uid) == AppTraceMah(env, tr, cpu, uid)
            && PartStatsMah(list, TYPE_BLUETOOTH) == AppStatsMah(list, uid)
                 + Hours(env.profile.Ma(BrOnMa), Charge(tr, BrTimer))
                 + Hours(env.profile.Ma(BleOnMa), Charge(tr, BleTimer))
  {
    PublishedFromTrace(env, tr, cpu);
    assert IsPart(TYPE_BLUETOOTH);
  }

  function UidOf(k: TimerKey): Option<int> {
    match k
    case UidTimer(_, u) => Some(u)
    case CameraTimer(_, u) => Some(u)
    case _ => None
  }

  lemma UidsCovered(env: Env, tr: Trace)
    ensures var s := Run(env, tr);
            && (forall k :: k in s.timers && UidOf(k).Some? ==> UidOf(k).value in s.uidPower)
            && (forall c :: c in s.counters && c.Alarms? && c.uid != INVALID_VALUE ==> c.uid in s.uidPower)
  {
    RunAgrees(env, tr);
    var s := Run(env, tr);
    assert forall k :: k in s.timers ==> KeyKnown(k, s.uidPower.Keys);
  }

  ghost predicate EachBilledOnce(uids: set<int>, list: seq<Info>) {
    forall uid :: AppCount(list, uid) == if uid in uids then 1 else 0
  }

  lemma PublishBillsOnce(base: State, account: int -> int, power: map<int, real>, parts: Parts)
    requires UidsValid(power)
    ensures EachBilledOnce(power.Keys, Publish(base, account, power, parts).list)
  {
    forall uid ensures AppCount(Publish(base, account, power, parts).list, uid) == if uid in power.Keys then 1 else 0 {
      BilledOnce(base, account, power, parts, uid);
    }
  }

  /**
   * In every run each uid that keys a timer, or an alarm counter other than that of -1, is in the
   * uid map, stays there through every event, and is billed by exactly one APP entry.
   */
  lemma {:induction false} Attribution(env: Env, tr: Trace, e: Event, cpu: map<int, real>)
    ensures var s := Run(env, tr);
            && (forall k :: k in s.timers && UidOf(k).Some? ==> UidOf(k).value in s.uidPower)
            && (forall c :: c in s.counters && c.Alarms? && c.uid != INVALID_VALUE ==> c.uid in s.uidPower)
            && s.uidPower.Keys <= Run(env, Then(tr, e)).uidPower.Keys
            && EachBilledOnce(s.uidPower.Keys, Run(env, Then(tr, Compute(cpu))).list)
  {
    UidsCovered(env, tr);
    RunFacts(env, tr);
    RunFacts(env, Then(tr, e));
    var base := ComputeIsPublish(env, tr, cpu);
    UidsAreTraced(env, tr, cpu);
    PublishBillsOnce(base, env.account, UidTrace(env, tr, cpu), PartsTrace(env, tr, cpu));
    assert UidTrace(env, tr, cpu).Keys == Known(tr);
  }

  ghost predicate SharesAreOne(uids: seq<int>, list: seq<Info>, total: real) {
    total > 0.0 ==> AppShares(total, list, uids, |uids|) + PartShares(total, list) == 1.0
  }

  /** Whenever the total of a roll-up is positive, the shares of all known uids and the five parts sum to 1. */
  lemma {:induction false} PublishedShares(env: Env, tr: Trace, cpu: map<int, real>)
    ensures var r := Run(env, Then(tr, Compute(cpu)));
            SharesAreOne(Sorted(Known(tr)), r.list, r.total)
  {
    var base := ComputeIsPublish(env, tr, cpu);
    UidsAreTraced(env, tr, cpu);
    SharesOfPublish(base, env.account, UidTrace(env, tr, cpu), PartsTrace(env, tr, cpu));
    assert UidTrace(env, tr, cpu).Keys == Known(tr);
  }

  lemma SharesOfPublish(base: State, account: int -> int, power: map<int, real>, parts: Parts)
    requires UidsValid(power)
    ensures var p := Publish(base, account, power, parts);
            SharesAreOne(Sorted(power.Keys), p.list, p.total)
  {
    if Publish(base, account, power, parts).total > 0.0 {
      SharesSumToOne(base, account, power, parts);
    }
  }

  // ---- Non-negative currents: every share lies between 0 and 1 ----

  lemma {:induction false} DrawNonNegative(ma: real, ms: nat)
    requires ma >= 0.0
    ensures Draw(ma, ms) >= 0.0
  {
    if ms > 0 { DrawNonNegative(ma, ms - 1); }
  }

  lemma {:induction false} PartsRateNonNegative(env: Env, tr: Trace, uid: int, n: nat)
    requires n <= |PARTS| && env.profile.NonNegative()
    ensures PartsRate(env, tr, uid, n) >= 0.0
  {
    if n > 0 { PartsRateNonNegative(env, tr, uid, n - 1); }
  }

  lemma {:induction false} AppEnergyNonNegative(env: Env, tr: Trace, uid: int)
    requires env.profile.NonNegative()
    ensures AppEnergy(env, tr, uid) >= 0.0
  {
    if tr.Then? && !tr.last.ResetAll? {
      AppEnergyNonNegative(env, tr.before, uid);
      if tr.last.Tick? {
        PartsRateNonNegative(env, tr.before, uid, |PARTS|);
        DrawNonNegative(AppRate(env, tr.before, uid), tr.last.boot);
      }
    }
  }

  lemma {:induction false} ScreenEnergyNonNegative(env: Env, tr: Trace)
    requires env.profile.NonNegative()
    ensures ScreenEnergy(env, tr) >= 0.0
  {
    if tr.Then? && !tr.last.ResetAll? {
      ScreenEnergyNonNegative(env, tr.before);
      if tr.last.Tick? {
        if Lit(tr.before) >= 0 { DrawNonNegative(env.profile.Ma(ScreenBrightnessMa), Lit(tr.before)); }
        DrawNonNegative(ScreenRate(env, tr.before), tr.last.boot);
      }
    }
  }

  lemma AppTraceNonNegative(env: Env, tr: Trace, cpu: map<int, real>, uid: int)
    requires env.profile.NonNegative() && forall u :: u in cpu ==> cpu[u] >= 0.0
    ensures AppTraceMah(env, tr, cpu, uid) >= 0.0
  {
    AppEnergyNonNegative(env, tr, uid);
    DrawNonNegative(env.profile.Ma(AlarmMa), Counted(tr, Alarms(uid)));
  }

  lemma {:induction false} RadioNonNegative(env: Env, tr: Trace, n: nat)
    requires env.profile.NonNegative()
    ensures RadioOnTrace(env, tr, n) >= 0.0 && RadioDataTrace(env, tr, n) >= 0.0
  {
    if n > 0 {
      RadioNonNegative(env, tr, n - 1);
      DrawNonNegative(env.profile.LevelMa(RadioOnMa, n - 1), Charge(tr, PhoneOnTimer(n - 1)));
      DrawNonNegative(env.profile.LevelMa(RadioDataMa, n - 1), Charge(tr, PhoneDataTimer(n - 1)));
    }
  }

  lemma PartsNonNegative(env: Env, tr: Trace, cpu: map<int, real>)
    requires env.profile.NonNegative() && forall u :: u in cpu ==> cpu[u] >= 0.0
    ensures var p := PartsTrace(env, tr, cpu);
            p.bluetooth >= 0.0 && p.idle >= 0.0 && p.phone >= 0.0 && p.screen >= 0.0 && p.wifi >= 0.0
  {
    DrawNonNegative(env.profile.Ma(BrOnMa), Charge(tr, BrTimer));
    DrawNonNegative(env.profile.Ma(BleOnMa), Charge(tr, BleTimer));
    if env.bluetoothUid.Some? { AppTraceNonNegative(env, tr, cpu, env.bluetoothUid.value); }
    DrawNonNegative(env.profile.Ma(CpuSuspendMa), OnBatteryBootMs(tr));
    DrawNonNegative(env.profile.Ma(CpuIdleMa), OnBatteryUpMs(tr));
    RadioNonNegative(env, tr, RADIO_SIGNAL_BIN);
    ScreenEnergyNonNegative(env, tr);
    DrawNonNegative(env.profile.Ma(WifiOnMa), Charge(tr, WifiTimer));
    DrawNonNegative(env.profile.Ma(WifiScanMa), Counted(tr, WifiScans));
  }

  lemma {:induction false} OneOfSum(uids: seq<int>, power: map<int, real>, n: nat, uid: int)
    requires n <= |uids| && forall i :: 0 <= i < n ==> uids[i] in power && power[uids[i]] >= 0.0
    ensures 0.0 <= PowerSum(uids, power, n)
    ensures uid in uids[..n] ==> power[uid] <= PowerSum(uids, power, n)
  {
    if n > 0 {
      OneOfSum(uids, power, n - 1, uid);
      assert uids[..n] == uids[..n - 1] + [uids[n - 1]];
    }
  }

  lemma Share(x: real, t: real)
    requires 0.0 <= x <= t && t > 0.0
    ensures 0.0 <= x / t <= 1.0
  {}

  ghost predicate SharesInUnit(list: seq<Info>, total: real) {
    && (forall uid :: 0.0 <= AppStatsPercent(total, list, uid) <= 1.0)
    && (forall kind :: IsPart(kind) ==> 0.0 <= PartStatsPercent(total, list, kind) <= 1.0)
  }

  lemma OneShare(list: seq<Info>, total: real, apps: real, parts: Parts, uid: int, kind: int)
    requires total == apps + parts.Sum() && IsPart(kind)
    requires 0.0 <= AppStatsMah(list, uid) <= apps
    requires PartStatsMah(list, kind) == PowerOfPart(parts, kind)
    requires parts.bluetooth >= 0.0 && parts.idle >= 0.0 && parts.phone >= 0.0
    requires parts.screen >= 0.0 && parts.wifi >= 0.0
    ensures 0.0 <= AppStatsPercent(total, list, uid) <= 1.0
    ensures 0.0 <= PartStatsPercent(total, list, kind) <= 1.0
  {
    if total > 0.0 {
      Share(AppStatsMah(list, uid), total);
      Share(PartStatsMah(list, kind), total);
    }
  }

  lemma UnitOfPublish(base: State, account: int -> int, power: map<int, real>, parts: Parts)
    requires UidsValid(power) && forall u :: u in power ==> power[u] >= 0.0
    requires parts.bluetooth >= 0.0 && parts.idle >= 0.0 && parts.phone >= 0.0
    requires parts.screen >= 0.0 && parts.wifi >= 0.0
    ensures var p := Publish(base, account, power, parts);
            SharesInUnit(p.list, p.total)
  {
    var p := Publish(base, account, power, parts);
    var uids := Sorted(power.Keys);
    forall uid, kind | IsPart(kind)
      ensures 0.0 <= AppStatsPercent(p.total, p.list, uid) <= 1.0
      ensures 0.0 <= PartStatsPercent(p.total, p.list, kind) <= 1.0
    {
      RollUpLookups(base, account, power, parts, uid, kind);
      OneOfSum(uids, power, |uids|, uid);
      assert uids[..|uids|] == uids;
      OneShare(p.list, p.total, PowerSum(uids, power, |uids|), parts, uid, kind);
    }
    assert IsPart(TYPE_IDLE);
  }

  /** With non-negative currents and cpu power, every app share and every part share is in [0, 1]. */
  lemma {:induction false} SharesBounded(env: Env, tr: Trace, cpu: map<int, real>)
    requires env.profile.NonNegative() && (forall u :: u in cpu ==> cpu[u] >= 0.0)
    ensures var r := Run(env, Then(tr, Compute(cpu)));
            SharesInUnit(r.list, r.total)
  {
    var base := ComputeIsPublish(env, tr, cpu);
    UidsAreTraced(env, tr, cpu);
    PartsNonNegative(env, tr, cpu);
    TraceNonNegative(env, tr, cpu);
    UnitOfPublish(base, env.account, UidTrace(env, tr, cpu), PartsTrace(env, tr, cpu));
  }

  lemma TraceNonNegative(env: Env, tr: Trace, cpu: map<int, real>)
    requires env.profile.NonNegative() && (forall u :: u in cpu ==> cpu[u] >= 0.0)
    ensures var power := UidTrace(env, tr, cpu); forall u :: u in power ==> power[u] >= 0.0
  {
    forall u | u in Known(tr) ensures AppTraceMah(env, tr, cpu, u) >= 0.0 {
      AppTraceNonNegative(env, tr, cpu, u);
    }
  }
}
