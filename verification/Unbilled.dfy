/** What the service measures but never bills: the phone's level 5 and the alarms without a uid. */
module Unbilled {
  import opened StatsTypes
  import opened CoreSpec
  import opened Sums

  predicate IsUnbilled(k: TimerKey) {
    k == PhoneOnTimer(RADIO_SIGNAL_BIN) || k == PhoneDataTimer(RADIO_SIGNAL_BIN)
  }

  /** r is s but for the two level-5 timers and the alarm counter of -1, which may hold anything. */
  ghost predicate SameBilled(s: State, r: State) {
    && r == s.(timers := r.timers, counters := r.counters)
    && (forall k :: !IsUnbilled(k) ==> (k in s.timers <==> k in r.timers))
    && (forall k :: !IsUnbilled(k) && k in s.timers ==> s.timers[k] == r.timers[k])
    && (forall c :: c != Alarms(INVALID_VALUE) ==> CountOf(s, c) == CountOf(r, c))
  }

  lemma SameReading(s: State, r: State, k: TimerKey)
    requires SameBilled(s, r) && !IsUnbilled(k)
    ensures Reading(s, k) == Reading(r, k)
  {}

  lemma SameTotal(s: State, r: State, ks: set<TimerKey>)
    requires SameBilled(s, r) && forall k :: k in ks ==> !IsUnbilled(k)
    ensures TotalMs(s, ks) == TotalMs(r, ks)
  {
    SumEqual(ks, k => Reading(s, k), k => Reading(r, k));
  }

  lemma {:induction false} SameParts(env: Env, s: State, r: State, uid: int, n: nat)
    requires SameBilled(s, r) && n <= |PARTS|
    ensures PartsMah(env, s, uid, n) == PartsMah(env, r, uid, n)
  {
    if n > 0 {
      SameParts(env, s, r, uid, n - 1);
      SameReading(s, r, UidTimer(PARTS[n - 1], uid));
    }
  }

  lemma SameApp(env: Env, s: State, r: State, cpu: map<int, real>, uid: int)
    requires SameBilled(s, r) && uid != INVALID_VALUE
    ensures AppMah(env, s, cpu, uid) == AppMah(env, r, cpu, uid)
  {
    assert CameraKeys(s, uid) == CameraKeys(r, uid);
    SameTotal(s, r, CameraKeys(s, uid));
    SameParts(env, s, r, uid, |PARTS|);
    assert CountOf(s, Alarms(uid)) == CountOf(r, Alarms(uid));
  }

  lemma {:induction false} SameRadio(env: Env, s: State, r: State, c: Current, key: int -> TimerKey, n: nat)
    requires SameBilled(s, r) && forall i :: 0 <= i < n ==> !IsUnbilled(key(i))
    ensures RadioMah(env, s, c, key, n) == RadioMah(env, r, c, key, n)
  {
    if n > 0 {
      SameRadio(env, s, r, c, key, n - 1);
      SameReading(s, r, key(n - 1));
    }
  }

  lemma SamePhone(env: Env, s: State, r: State)
    requires SameBilled(s, r)
    ensures PhoneMah(env, s) == PhoneMah(env, r)
  {
    SameRadio(env, s, r, RadioOnMa, PhoneOnKey, RADIO_SIGNAL_BIN);
    SameRadio(env, s, r, RadioDataMa, PhoneDataKey, RADIO_SIGNAL_BIN);
  }

  lemma SameScreen(env: Env, s: State, r: State)
    requires SameBilled(s, r)
    ensures ScreenMah(env, s) == ScreenMah(env, r)
  {
    assert BrightnessKeys(s) == BrightnessKeys(r);
    forall k | k in BrightnessKeys(s) ensures Reading(s, k) == Reading(r, k) { SameReading(s, r, k); }
    SumEqual(BrightnessKeys(s), k => Level(k) * Reading(s, k), k => Level(k) * Reading(r, k));
    assert BrightnessUnits(s) == BrightnessUnits(r);
    SameReading(s, r, ScreenTimer);
  }

  lemma SameBluetooth(env: Env, s: State, r: State, cpu: map<int, real>)
    requires SameBilled(s, r) && INVALID_VALUE !in s.uidPower
    ensures BluetoothMah(env, s, cpu) == BluetoothMah(env, r, cpu)
  {
    SameReading(s, r, BrTimer);
    SameReading(s, r, BleTimer);
    if env.bluetoothUid.Some? && env.bluetoothUid.value in s.uidPower {
      SameApp(env, s, r, cpu, env.bluetoothUid.value);
    }
  }

  lemma SamePartsOf(env: Env, s: State, r: State, cpu: map<int, real>)
    requires SameBilled(s, r) && INVALID_VALUE !in s.uidPower
    ensures PartsOf(env, s, cpu) == PartsOf(env, r, cpu)
  {
    SameBluetooth(env, s, r, cpu);
    SamePhone(env, s, r);
    SameScreen(env, s, r);
    SameReading(s, r, WifiTimer);
    assert CountOf(s, WifiScans) == CountOf(r, WifiScans);
  }

  lemma SameUids(env: Env, s: State, r: State, cpu: map<int, real>)
    requires SameBilled(s, r) && INVALID_VALUE !in s.uidPower
    ensures UidPowers(env, s, cpu) == UidPowers(env, r, cpu)
  {
    forall u | u in s.uidPower ensures AppMah(env, s, cpu, u) == AppMah(env, r, cpu, u) {
      SameApp(env, s, r, cpu, u);
    }
  }

  /**
   * Two services that differ only in their phone timers of level 5 and in the alarms counted without
   * a uid publish the same entries, total, uid powers and accounts.
   */
  lemma {:induction false} NeverBilled(env: Env, s: State, r: State, cpu: map<int, real>)
    requires SameBilled(s, r) && INVALID_VALUE !in s.uidPower
    ensures var a, b := ComputePower(env, s, cpu), ComputePower(env, r, cpu);
            a.list == b.list && a.total == b.total && a.uidPower == b.uidPower && a.userPower == b.userPower
  {
    SameUids(env, s, r, cpu);
    SamePartsOf(env, s, r, cpu);
  }
}
