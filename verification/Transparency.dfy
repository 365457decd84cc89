/** Queries and roll-ups write to timers and maps, yet no later reading, count or published power can tell. */
module Transparency {
  import opened StatsTypes
  import opened CoreSpec
  import opened CoreFacts
  import opened TraceSpec
  import opened TimeLaws
  import opened Power
  import opened Rollup
  import opened EndToEnd
  import opened Sums

  predicate IsQuery(e: Event) { e.AskLevel? || e.AskUid? || e.Compute? }

  /** The run without its queries and roll-ups. */
  function Erase(tr: Trace): Trace {
    if tr.Boot? then tr
    else if IsQuery(tr.last) then Erase(tr.before)
    else Then(Erase(tr.before), tr.last)
  }

  lemma {:induction false} EraseModes(tr: Trace)
    ensures var q := Erase(tr);
            && OnBattery(q) == OnBattery(tr) && Camera(q) == Camera(tr) && ScreenFlag(q) == ScreenFlag(tr)
            && LastLevel(q) == LastLevel(tr) && Lit(q) == Lit(tr) && ScreenCharging(q) == ScreenCharging(tr)
            && Known(q) == Known(tr)
            && OnBatteryBootMs(q) == OnBatteryBootMs(tr) && OnBatteryUpMs(q) == OnBatteryUpMs(tr)
  {
    if tr.Then? { EraseModes(tr.before); }
  }

  lemma {:induction false} ErasePlain(tr: Trace, k: TimerKey)
    ensures PlainOn(Erase(tr), k) == PlainOn(tr, k)
  {
    if tr.Then? {
      ErasePlain(tr.before, k);
      EraseModes(tr.before);
    }
  }

  lemma EraseOn(tr: Trace, k: TimerKey)
    ensures On(Erase(tr), k) == On(tr, k)
  {
    ErasePlain(tr, k);
    EraseModes(tr);
  }

  lemma {:induction false} EraseCharge(tr: Trace, k: TimerKey)
    ensures Charge(Erase(tr), k) == Charge(tr, k)
  {
    if tr.Then? {
      EraseCharge(tr.before, k);
      EraseOn(tr.before, k);
      EraseModes(tr.before);
    }
  }

  lemma {:induction false} EraseCount(tr: Trace, c: CounterKey)
    ensures Counted(Erase(tr), c) == Counted(tr, c)
  {
    if tr.Then? {
      EraseCount(tr.before, c);
      EraseModes(tr.before);
    }
  }

  lemma {:induction false} EraseRate(env: Env, tr: Trace, uid: int, n: nat)
    requires n <= |PARTS|
    ensures PartsRate(env, Erase(tr), uid, n) == PartsRate(env, tr, uid, n)
  {
    if n > 0 {
      EraseRate(env, tr, uid, n - 1);
      EraseOn(tr, UidTimer(PARTS[n - 1], uid));
    }
  }

  lemma EraseAppRate(env: Env, tr: Trace, uid: int)
    ensures AppRate(env, Erase(tr), uid) == AppRate(env, tr, uid)
  {
    EraseRate(env, tr, uid, |PARTS|);
    EraseModes(tr);
  }

  lemma {:induction false} EraseAppEnergy(env: Env, tr: Trace, uid: int)
    ensures AppEnergy(env, Erase(tr), uid) == AppEnergy(env, tr, uid)
  {
    if tr.Then? {
      EraseAppEnergy(env, tr.before, uid);
      EraseAppRate(env, tr.before, uid);
      EraseModes(tr.before);
    }
  }

  lemma {:induction false} EraseScreenEnergy(env: Env, tr: Trace)
    ensures ScreenEnergy(env, Erase(tr)) == ScreenEnergy(env, tr)
  {
    if tr.Then? {
      EraseScreenEnergy(env, tr.before);
      EraseModes(tr.before);
    }
  }

  lemma EraseApp(env: Env, tr: Trace, cpu: map<int, real>, uid: int)
    ensures AppTraceMah(env, Erase(tr), cpu, uid) == AppTraceMah(env, tr, cpu, uid)
  {
    EraseAppEnergy(env, tr, uid);
    EraseCount(tr, Alarms(uid));
  }

  lemma {:induction false} EraseRadio(env: Env, tr: Trace, n: nat)
    ensures RadioOnTrace(env, Erase(tr), n) == RadioOnTrace(env, tr, n)
    ensures RadioDataTrace(env, Erase(tr), n) == RadioDataTrace(env, tr, n)
  {
    if n > 0 {
      EraseRadio(env, tr, n - 1);
      EraseCharge(tr, PhoneOnTimer(n - 1));
      EraseCharge(tr, PhoneDataTimer(n - 1));
    }
  }

  lemma EraseParts(env: Env, tr: Trace, cpu: map<int, real>)
    ensures PartsTrace(env, Erase(tr), cpu) == PartsTrace(env, tr, cpu)
  {
    EraseModes(tr);
    EraseCharge(tr, BrTimer);
    EraseCharge(tr, BleTimer);
    EraseCharge(tr, WifiTimer);
    EraseCount(tr, WifiScans);
    EraseScreenEnergy(env, tr);
    if env.bluetoothUid.Some? { EraseApp(env, tr, cpu, env.bluetoothUid.value); }
    EraseRadio(env, tr, RADIO_SIGNAL_BIN);
  }

  lemma EraseUids(env: Env, tr: Trace, cpu: map<int, real>)
    ensures UidTrace(env, Erase(tr), cpu) == UidTrace(env, tr, cpu)
  {
    EraseModes(tr);
    forall u | u in Known(tr) ensures AppTraceMah(env, Erase(tr), cpu, u) == AppTraceMah(env, tr, cpu, u) {
      EraseApp(env, tr, cpu, u);
    }
  }

  /**
   * Two runs that differ only in their queries and roll-ups, placed anywhere, agree on every timer
   * reading and every counter.
   */
  lemma {:induction false} ReadingsIgnoreQueries(env: Env, a: Trace, b: Trace, k: TimerKey, c: CounterKey)
    requires Erase(a) == Erase(b)
    ensures Reading(Run(env, a), k) == Reading(Run(env, b), k)
    ensures CountOf(Run(env, a), c) == CountOf(Run(env, b), c)
  {
    ReadingIsCharge(env, a, k);
    ReadingIsCharge(env, b, k);
    EraseCharge(a, k);
    EraseCharge(b, k);
    CountIsCounted(env, a, c);
    CountIsCounted(env, b, c);
    EraseCount(a, c);
    EraseCount(b, c);
  }

  /** And a roll-up after either publishes the same app and part entries and the same total. */
  lemma {:induction false} PublishedIgnoresQueries(env: Env, a: Trace, b: Trace, cpu: map<int, real>)
    requires Erase(a) == Erase(b)
    ensures NonUser(Run(env, Then(a, Compute(cpu))).list) == NonUser(Run(env, Then(b, Compute(cpu))).list)
    ensures Run(env, Then(a, Compute(cpu))).total == Run(env, Then(b, Compute(cpu))).total
  {
    PublishedFromTrace(env, a, cpu);
    PublishedFromTrace(env, b, cpu);
    EraseModes(a);
    EraseModes(b);
    EraseUids(env, a, cpu);
    EraseUids(env, b, cpu);
    EraseParts(env, a, cpu);
    EraseParts(env, b, cpu);
  }

  // ---- What roll-ups do accumulate: the accounts ----

  /** The app power of account a's uids, were a roll-up to happen at the end of tr. */
  function AccountTrace(env: Env, tr: Trace, cpu: map<int, real>, a: int): real {
    var uids := Sorted(Known(tr));
    AccountSum(env.account, uids, UidTrace(env, tr, cpu), |uids|, a)
  }

  /** The sum of that over the roll-ups since the last Reset. */
  function AccountLedger(env: Env, tr: Trace, a: int): real {
    if tr.Boot? || tr.last.ResetAll? then 0.0
    else AccountLedger(env, tr.before, a)
         + if tr.last.Compute? then AccountTrace(env, tr.before, tr.last.cpu, a) else 0.0
  }

  lemma UserPowerKept(env: Env, s: State, e: Event)
    requires !e.Compute? && !e.ResetAll?
    ensures Step(env, s, e).userPower == s.userPower
  {
    if e.StateEvent? { UpdateStateFacts(s, e.kind, e.state, e.level, e.uid, e.device); }
  }

  lemma ComputeAddsAccount(env: Env, tr: Trace, cpu: map<int, real>, a: int)
    ensures ValueAt(Run(env, Then(tr, Compute(cpu))).userPower, a) ==
            ValueAt(Run(env, tr).userPower, a) + AccountTrace(env, tr, cpu, a)
  {
    var base := ComputeIsPublish(env, tr, cpu);
    var power := UidTrace(env, tr, cpu);
    assert power.Keys == Known(tr);
    PublishAdds(base, env.account, power, PartsTrace(env, tr, cpu), a);
  }

  /**
   * In every run an account holds the app power of its uids summed over all roll-ups since the last
   * Reset: every further roll-up bills the accounts again.
   */
  lemma {:induction false} UserPowerIsLedger(env: Env, tr: Trace, a: int)
    ensures ValueAt(Run(env, tr).userPower, a) == AccountLedger(env, tr, a)
  {
    if tr.Then? {
      UserPowerIsLedger(env, tr.before, a);
      if tr.last.Compute? {
        ComputeAddsAccount(env, tr.before, tr.last.cpu, a);
      } else if !tr.last.ResetAll? {
        UserPowerKept(env, Run(env, tr.before), tr.last);
      }
    }
  }

  // ---- And the bluetooth accumulators ----

  /** On-power worked out by the roll-ups since the last Reset, each counting the whole time so far. */
  function OnLedger(env: Env, tr: Trace, c: Current, k: TimerKey): real {
    if tr.Boot? || tr.last.ResetAll? then 0.0
    else OnLedger(env, tr.before, c, k)
         + if tr.last.Compute? then Hours(env.profile.Ma(c), Charge(tr.before, k)) else 0.0
  }

  lemma OnPowerKept(env: Env, s: State, e: Event)
    requires !e.ResetAll?
    ensures var r := Step(env, s, e);
            && r.brMah == s.brMah + (if e.Compute? then BrOnMah(env, s) else 0.0)
            && r.bleMah == s.bleMah + (if e.Compute? then BleOnMah(env, s) else 0.0)
  {
    if e.StateEvent? { UpdateStateFacts(s, e.kind, e.state, e.level, e.uid, e.device); }
  }

  /** Each roll-up adds the whole on-power again: the accumulators hold that sum, not the on-power. */
  lemma {:induction false} OnPowerIsLedger(env: Env, tr: Trace)
    ensures Run(env, tr).brMah == OnLedger(env, tr, BrOnMa, BrTimer)
    ensures Run(env, tr).bleMah == OnLedger(env, tr, BleOnMa, BleTimer)
  {
    if tr.Then? && !tr.last.ResetAll? {
      OnPowerIsLedger(env, tr.before);
      OnPowerKept(env, Run(env, tr.before), tr.last);
      TimerMahIsTraced(env, tr.before, env.profile.Ma(BrOnMa), BrTimer);
      TimerMahIsTraced(env, tr.before, env.profile.Ma(BleOnMa), BleTimer);
    }
  }

  // ---- The first roll-up after a Reset ----

  predicate NoRollUpSinceReset(tr: Trace) {
    tr.Boot? || tr.last.ResetAll? || (!tr.last.Compute? && NoRollUpSinceReset(tr.before))
  }

  lemma {:induction false} AccountsCleared(env: Env, tr: Trace)
    requires NoRollUpSinceReset(tr)
    ensures forall a :: a in Run(env, tr).userPower ==> Run(env, tr).userPower[a] == 0.0
  {
    if tr.Then? && !tr.last.ResetAll? {
      AccountsCleared(env, tr.before);
      UserPowerKept(env, Run(env, tr.before), tr.last);
    }
  }

  ghost predicate UsersMatchApps(s: State) {
    var accounts, uids := Sorted(s.userPower.Keys), Sorted(s.uidPower.Keys);
    PowerSum(accounts, s.userPower, |accounts|) == PowerSum(uids, s.uidPower, |uids|)
  }

  /** The first roll-up after a Reset gives the accounts exactly the sum of the app entries. */
  lemma {:induction false} FirstRollUpBalances(env: Env, tr: Trace, cpu: map<int, real>)
    requires NoRollUpSinceReset(tr)
    ensures UsersMatchApps(Run(env, Then(tr, Compute(cpu))))
  {
    AccountsCleared(env, tr);
    var base := ComputeIsPublish(env, tr, cpu);
    UsersSumToApps(base, env.account, UidTrace(env, tr, cpu), PartsTrace(env, tr, cpu));
    assert UsersMatchApps(Publish(base, env.account, UidTrace(env, tr, cpu), PartsTrace(env, tr, cpu)));
  }
}
