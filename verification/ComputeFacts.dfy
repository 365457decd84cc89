/** What the loops of ComputePower and Reset have done part of the way, and that the whole is CoreSpec's. */
module ComputeFacts {
  import opened StatsTypes
  import opened StatsHelperSpec
  import opened CoreSpec
  import opened CoreFacts
  import opened Sums

  /** Reading timers moves no sum. */
  lemma TotalAsOf(s: State, r: State, done: set<TimerKey>, ks: set<TimerKey>)
    requires r.clock == s.clock && r.timers == Refresh(s, done).timers
    ensures TotalMs(r, ks) == TotalMs(s, ks)
  {
    SumEqual(ks, k => Reading(r, k), k => Reading(s, k));
  }

  // ---- The keys one roll-up reads ----

  function CommonKeys(uid: int): set<TimerKey> {
    {UidTimer(Flashlight, uid), UidTimer(Audio, uid), UidTimer(Gravity, uid), UidTimer(Proximity, uid),
     UidTimer(Gnss, uid), UidTimer(Wakelock, uid)}
  }

  function AppKeys(s: State, uid: int): set<TimerKey> {
    CameraKeys(s, uid) + CommonKeys(uid) + {UidTimer(BrScan, uid), UidTimer(BleScan, uid)}
  }

  /** `done` holds, of the existing timers, exactly those of the given uids. */
  ghost predicate UidTimersOf(s: State, uids: seq<int>, done: set<TimerKey>) {
    forall k :: k in s.timers ==> (k in done <==> (k.UidTimer? || k.CameraTimer?) && k.uid in uids)
  }

  lemma UidTimersGrow(s: State, uids: seq<int>, n: nat, done: set<TimerKey>)
    requires n < |uids| && UidTimersOf(s, uids[..n], done)
    ensures UidTimersOf(s, uids[..n + 1], done + AppKeys(s, uids[n]))
  {
    var uid := uids[n];
    assert uids[..n + 1] == uids[..n] + [uid];
    forall k | k in s.timers && k.UidTimer?
      ensures k in AppKeys(s, uid) <==> k.uid == uid
    {
      match k.part {
        case Flashlight => case Gnss => case Gravity => case Proximity =>
        case Audio => case Wakelock => case BrScan => case BleScan =>
      }
    }
  }

  function DeviceKeys(uid: int): set<TimerKey> {
    {UidTimer(Flashlight, uid), UidTimer(Audio, uid), UidTimer(Gravity, uid), UidTimer(Proximity, uid)}
  }

  lemma DeviceKeysListed(done: set<TimerKey>, uid: int, keys: set<TimerKey>)
    requires keys == done + {UidTimer(Flashlight, uid)} + {UidTimer(Audio, uid)}
                     + {UidTimer(Gravity, uid), UidTimer(Proximity, uid)}
    ensures keys == done + DeviceKeys(uid)
  {}

  lemma CommonKeysListed(done: set<TimerKey>, uid: int, keys: set<TimerKey>)
    requires keys == done + DeviceKeys(uid) + {UidTimer(Gnss, uid)} + {UidTimer(Wakelock, uid)}
    ensures keys == done + CommonKeys(uid)
  {}

  // ---- The loop over the uids ----

  ghost predicate AppPowers(env: Env, s: State, cpu: map<int, real>, power: map<int, real>) {
    forall u {:trigger AppMah(env, s, cpu, u)} :: u in power ==> power[u] == AppMah(env, s, cpu, u)
  }

  function Credited(users: map<int, real>, account: int, power: real): map<int, real> {
    users[account := (if account in users then users[account] else 0.0) + power]
  }

  /** The maps, the total and the list once the first n uids have been rolled up. */
  ghost predicate RolledUp(before: map<int, real>, account: int -> int, uids: seq<int>, power: map<int, real>, n: nat,
                           uidPower: map<int, real>, users: map<int, real>, total: real, list: seq<Info>)
  {
    && n <= |uids| && (forall u :: u in uids <==> u in power) && uidPower.Keys == power.Keys
    && (forall j :: 0 <= j < n ==> uidPower[uids[j]] == power[uids[j]])
    && users == Aggregate(before, account, uids, power, n)
    && total == PowerSum(uids, power, n) && list == AppEntries(uids, power, n)
  }

  lemma RolledUpNone(before: map<int, real>, account: int -> int, uids: seq<int>, power: map<int, real>,
                     uidPower: map<int, real>)
    requires (forall u :: u in uids <==> u in power) && uidPower.Keys == power.Keys
    ensures RolledUp(before, account, uids, power, 0, uidPower, before, 0.0, [])
  {}

  lemma RolledUpStep(before: map<int, real>, account: int -> int, uids: seq<int>, power: map<int, real>, n: nat,
                     uidPower: map<int, real>, users: map<int, real>, total: real, list: seq<Info>)
    requires RolledUp(before, account, uids, power, n, uidPower, users, total, list) && n < |uids|
    ensures var u := uids[n];
            RolledUp(before, account, uids, power, n + 1, uidPower[u := power[u]],
                     Credited(users, account(u), power[u]), total + power[u], list + [AppInfo(u, power[u])])
  {}

  /** The same once every uid has been rolled up. */
  ghost predicate AllRolledUp(before: map<int, real>, account: int -> int, power: map<int, real>,
                              users: map<int, real>, total: real, list: seq<Info>)
  {
    var uids := Sorted(power.Keys);
    && users == Aggregate(before, account, uids, power, |uids|)
    && total == PowerSum(uids, power, |uids|) && list == AppEntries(uids, power, |uids|)
  }

  lemma RolledUpAll(before: map<int, real>, account: int -> int, power: map<int, real>,
                    uidPower: map<int, real>, users: map<int, real>, total: real, list: seq<Info>)
    requires var uids := Sorted(power.Keys);
             RolledUp(before, account, uids, power, |uids|, uidPower, users, total, list)
    ensures uidPower == power && AllRolledUp(before, account, power, users, total, list)
  {
    var uids := Sorted(power.Keys);
    forall u | u in power ensures uidPower[u] == power[u] {
      assert u in uids;
    }
  }

  lemma AppMahTerms(env: Env, s: State, cpu: map<int, real>, uid: int)
    ensures AppMah(env, s, cpu, uid) ==
            (PartMah(env, s, BrScan, uid) + PartMah(env, s, BleScan, uid))
            + (CameraMah(env, s, uid) + PartMah(env, s, Flashlight, uid) + PartMah(env, s, Audio, uid)
               + (PartMah(env, s, Gravity, uid) + PartMah(env, s, Proximity, uid)) + PartMah(env, s, Gnss, uid)
               + CpuMah(cpu, uid) + PartMah(env, s, Wakelock, uid) + AlarmMah(env, s, uid))
  {
    var f := n requires 0 <= n <= |PARTS| => PartsMah(env, s, uid, n);
    assert f(8) == f(7) + PartMah(env, s, BleScan, uid);
    assert f(7) == f(6) + PartMah(env, s, BrScan, uid);
    assert f(6) == f(5) + PartMah(env, s, Wakelock, uid);
    assert f(5) == f(4) + PartMah(env, s, Gnss, uid);
    assert f(4) == f(3) + PartMah(env, s, Proximity, uid);
    assert f(3) == f(2) + PartMah(env, s, Gravity, uid);
    assert f(2) == f(1) + PartMah(env, s, Audio, uid);
    assert f(1) == f(0) + PartMah(env, s, Flashlight, uid);
  }

  ghost function RadioKeys(key: int -> TimerKey, n: nat): set<TimerKey> {
    set i | 0 <= i < n :: key(i)
  }

  lemma RadioKeysStep(done: set<TimerKey>, key: int -> TimerKey, n: nat)
    ensures done + RadioKeys(key, n) + {key(n)} == done + RadioKeys(key, n + 1)
  {}

  ghost function PhoneKeys(): set<TimerKey> {
    RadioKeys(PhoneOnKey, RADIO_SIGNAL_BIN) + RadioKeys(PhoneDataKey, RADIO_SIGNAL_BIN)
  }

  lemma PhoneKeysListed(done: set<TimerKey>)
    ensures done + RadioKeys(PhoneOnKey, RADIO_SIGNAL_BIN) + RadioKeys(PhoneDataKey, RADIO_SIGNAL_BIN) ==
        done + PhoneKeys()
  {}

  ghost function PartKeys(s: State): set<TimerKey> {
    {BrTimer, BleTimer, ScreenTimer, WifiTimer} + PhoneKeys() + BrightnessKeys(s)
  }

  lemma PartKeysListed(s: State, done: set<TimerKey>)
    ensures done + {BrTimer, BleTimer} + PhoneKeys() + ({ScreenTimer} + BrightnessKeys(s)) + {WifiTimer} ==
        done + PartKeys(s)
  {}

  /** The existing timers of the known uids. */
  ghost function UidTimerKeys(s: State): set<TimerKey> {
    set k | k in s.timers && (k.UidTimer? || k.CameraTimer?) && k.uid in s.uidPower :: k
  }

  lemma UidTimersAre(s: State, done: set<TimerKey>)
    requires UidTimersOf(s, Sorted(s.uidPower.Keys), done)
    ensures Refresh(s, done) == Refresh(s, UidTimerKeys(s))
  {
    RefreshSame(s, done, UidTimerKeys(s));
  }

  lemma BilledAre(s: State)
    ensures Refresh(s, UidTimerKeys(s) + PartKeys(s)) == Refresh(s, BilledKeys(s))
  {
    forall k | k in s.timers ensures k in UidTimerKeys(s) + PartKeys(s) <==> k in BilledKeys(s) {
      if k.PhoneOnTimer? {
        assert k in PhoneKeys() <==> Billed(k, s.uidPower.Keys) by { assert PhoneOnKey(k.level) == k; }
      }
      if k.PhoneDataTimer? {
        assert k in PhoneKeys() <==> Billed(k, s.uidPower.Keys) by { assert PhoneDataKey(k.level) == k; }
      }
    }
    RefreshSame(s, UidTimerKeys(s) + PartKeys(s), BilledKeys(s));
  }

  /** Brightness current times level-weighted time over some of the levels. */
  ghost function Units(env: Env, s: State, ks: set<TimerKey>): real {
    env.profile.Ma(ScreenBrightnessMa) * (LevelUnits(s, ks) as real)
  }

  ghost function LevelUnits(s: State, ks: set<TimerKey>): int {
    Sum(ks, k => Level(k) * Reading(s, k))
  }

  lemma LevelUnitsAdd(s: State, ks: set<TimerKey>, k: TimerKey)
    requires k !in ks && k.BrightnessTimer?
    ensures LevelUnits(s, ks + {k}) == k.level * Reading(s, k) + LevelUnits(s, ks)
  {
    SumPick(ks + {k}, j => Level(j) * Reading(s, j), k);
    assert ks + {k} - {k} == ks;
  }

  lemma UnitsAdd(env: Env, s: State, ks: set<TimerKey>, k: TimerKey)
    requires k !in ks && k.BrightnessTimer?
    ensures Units(env, s, ks + {k}) ==
            Units(env, s, ks) + env.profile.Ma(ScreenBrightnessMa) * (k.level as real) * (Reading(s, k) as real)
  {
    LevelUnitsAdd(s, ks, k);
    Distribute(env.profile.Ma(ScreenBrightnessMa), LevelUnits(s, ks), k.level, Reading(s, k));
  }

  lemma Distribute(ma: real, sum: int, level: int, ms: int)
    ensures ma * ((level * ms + sum) as real) == ma * (sum as real) + ma * (level as real) * (ms as real)
  {
    assert (level * ms) as real == (level as real) * (ms as real);
  }

  /** Everything one roll-up works out before it publishes. */
  datatype Powers = Powers(apps: map<int, real>, parts: Parts, br: real, ble: real)

  ghost function PowersOf(env: Env, s: State, cpu: map<int, real>): Powers {
    Powers(UidPowers(env, s, cpu), PartsOf(env, s, cpu), BrOnMah(env, s), BleOnMah(env, s))
  }

  /** p is PowersOf(env, s, cpu), said so that it is used only where the powers are named. */
  ghost predicate Computes(env: Env, s: State, cpu: map<int, real>, p: Powers) {
    && p.apps.Keys == s.uidPower.Keys && AppPowers(env, s, cpu, p.apps)
    && forall e {:trigger PowersOf(e, s, cpu)} :: e == env ==> p == PowersOf(e, s, cpu)
  }

  lemma PartsGiven(env: Env, s: State, cpu: map<int, real>, p: Powers)
    requires Computes(env, s, cpu, p)
    ensures p.br == BrOnMah(env, s) && p.ble == BleOnMah(env, s)
    ensures p.parts.Sum() == BluetoothMah(env, s, cpu) + IdleMah(env, s) + PhoneMah(env, s)
                             + ScreenMah(env, s) + WifiMah(env, s)
    ensures p.parts.Entries() ==
            [PartInfo(TYPE_BLUETOOTH, BluetoothMah(env, s, cpu)), PartInfo(TYPE_IDLE, IdleMah(env, s)),
             PartInfo(TYPE_PHONE, PhoneMah(env, s))]
            + [PartInfo(TYPE_SCREEN, ScreenMah(env, s)), PartInfo(TYPE_WIFI, WifiMah(env, s))]
  {
    assert p == PowersOf(env, s, cpu);
  }

  /** The user map, total and list that are published. */
  ghost predicate Totalled(before: map<int, real>, account: int -> int, p: Powers, users: map<int, real>,
                           total: real, list: seq<Info>)
  {
    var uids, accounts := Sorted(p.apps.Keys), Sorted(users.Keys);
    && users == Aggregate(before, account, uids, p.apps, |uids|)
    && total == PowerSum(uids, p.apps, |uids|) + p.parts.Sum()
    && list == AppEntries(uids, p.apps, |uids|) + p.parts.Entries() + UserEntries(accounts, users, |accounts|)
  }

  lemma TotalledIs(before: map<int, real>, account: int -> int, p: Powers, users: map<int, real>, total: real,
                   list: seq<Info>)
    requires AllRolledUp(before, account, p.apps, users, total, list)
    ensures var accounts := Sorted(users.Keys);
            Totalled(before, account, p, users, total + p.parts.Sum(),
                     list + p.parts.Entries() + UserEntries(accounts, users, |accounts|))
  {}

  /** s after the seven Calculate calls, with the user map, total and list they left. */
  ghost function Assembled(s: State, p: Powers, users: map<int, real>, total: real, list: seq<Info>): State {
    s.(timers := Refresh(s, UidTimerKeys(s) + PartKeys(s)).timers, uidPower := p.apps, userPower := users,
       brMah := s.brMah + p.br, bleMah := s.bleMah + p.ble, total := total, list := list)
  }

  lemma AssembledIs(s: State, account: int -> int, p: Powers, users: map<int, real>, total: real, list: seq<Info>)
    requires Totalled(s.userPower, account, p, users, total, list)
    ensures Assembled(s, p, users, total, list) ==
            Publish(Refresh(s, BilledKeys(s)), account, p.apps, p.parts)
              .(brMah := s.brMah + p.br, bleMah := s.bleMah + p.ble)
  {
    BilledAre(s);
  }

  lemma ComputedIs(env: Env, s: State, cpu: map<int, real>, users: map<int, real>, total: real, list: seq<Info>)
    requires Totalled(s.userPower, env.account, PowersOf(env, s, cpu), users, total, list)
    ensures Assembled(s, PowersOf(env, s, cpu), users, total, list) == ComputePower(env, s, cpu)
  {
    AssembledIs(s, env.account, PowersOf(env, s, cpu), users, total, list);
  }

  /** The timers of ks reset, the others as they were. */
  function ResetTimers(s: State, ks: set<TimerKey>): map<TimerKey, Timer> {
    map k | k in s.timers :: if k in ks then s.timers[k].Reset(s.clock.BootMs()) else s.timers[k]
  }
}
