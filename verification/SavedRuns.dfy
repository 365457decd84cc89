/** Saving at the end of a run and loading again. */
module SavedRuns {
  import opened StatsTypes
  import opened CoreSpec
  import opened TraceSpec
  import opened Rollup
  import opened Power
  import opened EndToEnd
  import opened Transparency
  import opened Numbers
  import opened PowerStore
  import opened Sums

  ghost predicate Covered(account: int -> int, users: map<int, real>, uids: set<int>) {
    forall a :: a in users ==> exists u :: u in uids && account(u) == a
  }

  lemma CoveredGrows(account: int -> int, users: map<int, real>, uids: set<int>, more: set<int>)
    requires Covered(account, users, uids) && uids <= more
    ensures Covered(account, users, more)
  {}

  lemma AggregateCovered(account: int -> int, users: map<int, real>, power: map<int, real>)
    requires Covered(account, users, power.Keys)
    ensures var uids := Sorted(power.Keys);
            Covered(account, Aggregate(users, account, uids, power, |uids|), power.Keys)
  {
    var uids := Sorted(power.Keys);
    var m := Aggregate(users, account, uids, power, |uids|);
    forall a | a in m ensures exists u :: u in power.Keys && account(u) == a {
      FreshAt(users, account, power, a);
    }
  }

  /** In every run each account the service remembers belongs to a uid it knows, Reset or not. */
  lemma {:induction false} AccountsKnown(env: Env, tr: Trace)
    ensures Covered(env.account, Run(env, tr).userPower, Known(tr))
  {
    if tr.Then? {
      AccountsKnown(env, tr.before);
      if tr.last.Compute? {
        var base := ComputeIsPublish(env, tr.before, tr.last.cpu);
        assert UidTrace(env, tr.before, tr.last.cpu).Keys == Known(tr.before);
        AggregateCovered(env.account, base.userPower, UidTrace(env, tr.before, tr.last.cpu));
      } else {
        if !tr.last.ResetAll? { UserPowerKept(env, Run(env, tr.before), tr.last); }
        CoveredGrows(env.account, Run(env, tr.before).userPower, Known(tr.before), Known(tr));
      }
    }
  }

  ghost predicate UidsFit(tr: Trace) { forall u :: u in Known(tr) ==> IsInt32(u) }

  /** What loading makes of the list the service saves after a roll-up. */
  ghost function Restored(env: Env, tr: Trace, cpu: map<int, real>): seq<Info> {
    Reloaded(env.account, Saved(Run(env, Then(tr, Compute(cpu))).list))
  }

  ghost predicate Restores(env: Env, tr: Trace, cpu: map<int, real>) {
    Restored(env, tr, cpu) == Run(env, Then(tr, Compute(cpu))).list
  }

  ghost predicate AtZero(users: map<int, real>) { forall a :: a in users ==> users[a] == 0.0 }

  /**
   * A saved list loads back in full exactly when the accounts were all at zero before its roll-up;
   * otherwise its APP and part entries still come back, and the accounts hold this roll-up alone.
   */
  lemma {:induction false} RestoredList(env: Env, tr: Trace, cpu: map<int, real>)
    requires UidsFit(tr)
    ensures Restored(env, tr, cpu) == NonUser(Run(env, Then(tr, Compute(cpu))).list)
                                      + AllUserEntries(FreshAccounts(env.account, UidTrace(env, tr, cpu)))
    ensures Restores(env, tr, cpu) <==> AtZero(Run(env, tr).userPower)
  {
    var base := ComputeIsPublish(env, tr, cpu);
    var power, parts := UidTrace(env, tr, cpu), PartsTrace(env, tr, cpu);
    TraceStorable(env, tr, cpu);
    AccountsKnown(env, tr);
    ReloadOf(base, env.account, power, parts, Run(env, Then(tr, Compute(cpu))).list, Run(env, tr).userPower);
  }

  lemma TraceStorable(env: Env, tr: Trace, cpu: map<int, real>)
    requires UidsFit(tr)
    ensures UidsStorable(UidTrace(env, tr, cpu)) && UidTrace(env, tr, cpu).Keys == Known(tr)
  {
    UidsAreTraced(env, tr, cpu);
  }

  /** The same of any published list whose accounts belong to known uids. */
  lemma ReloadOf(s: State, account: int -> int, power: map<int, real>, parts: Parts, list: seq<Info>,
          users: map<int, real>)
    requires list == Publish(s, account, power, parts).list && users == s.userPower
    requires UidsStorable(power) && Covered(account, users, power.Keys)
    ensures Reloaded(account, Saved(list)) == NonUser(list) + AllUserEntries(FreshAccounts(account, power))
    ensures Reloaded(account, Saved(list)) == list <==> AtZero(users)
  {
    PublishedReloads(s, account, power, parts);
    FullReloadIff(s, account, power, parts);
    FreshMeansZero(users, account, power.Keys);
  }

  lemma FreshMeansZero(users: map<int, real>, account: int -> int, uids: set<int>)
    requires Covered(account, users, uids)
    ensures AccountsFresh(users, account, uids) <==> AtZero(users)
  {}

  /** In particular after the first roll-up since a Reset. */
  lemma {:induction false} FirstSaveRestores(env: Env, tr: Trace, cpu: map<int, real>)
    requires UidsFit(tr) && NoRollUpSinceReset(tr)
    ensures Restores(env, tr, cpu)
  {
    AccountsCleared(env, tr);
    RestoredList(env, tr, cpu);
  }

  ghost predicate LedgerEmpty(env: Env, tr: Trace) { forall a :: AccountLedger(env, tr, a) == 0.0 }

  lemma AtZeroIff(env: Env, tr: Trace, users: map<int, real>)
    requires forall a :: ValueAt(users, a) == AccountLedger(env, tr, a)
    ensures AtZero(users) <==> LedgerEmpty(env, tr)
  {
    if AtZero(users) {
      forall a ensures AccountLedger(env, tr, a) == 0.0 { assert ValueAt(users, a) == 0.0; }
    }
    if LedgerEmpty(env, tr) {
      forall a | a in users ensures users[a] == 0.0 { assert ValueAt(users, a) == AccountLedger(env, tr, a); }
    }
  }

  lemma AccountsAtZero(env: Env, tr: Trace)
    ensures AtZero(Run(env, tr).userPower) <==> LedgerEmpty(env, tr)
  {
    var users := Run(env, tr).userPower;
    forall a ensures ValueAt(users, a) == AccountLedger(env, tr, a) { UserPowerIsLedger(env, tr, a); }
    AtZeroIff(env, tr, users);
  }

  /**
   * Said of the events: a save restores in full exactly when the roll-ups since the last Reset gave no
   * account power.
   */
  lemma {:induction false} RestoresIffLedgerEmpty(env: Env, tr: Trace, cpu: map<int, real>)
    requires UidsFit(tr)
    ensures Restores(env, tr, cpu) <==> LedgerEmpty(env, tr)
  {
    RestoredList(env, tr, cpu);
    AccountsAtZero(env, tr);
  }

  lemma OneUid(env: Env, cpu: map<int, real>)
    requires cpu == map[7 := 1.0]
    ensures AccountTrace(env, Then(Boot(0, 0), CpuUid(7)), cpu, env.account(7)) == 1.0
  {
    var first := Then(Boot(0, 0), CpuUid(7));
    var uids, power := Sorted(Known(first)), UidTrace(env, first, cpu);
    assert Known(first) == {7};
    AscendingUnique(uids, [7]);
    assert AppEnergy(env, first, 7) == 0.0 && Counted(first, Alarms(7)) == 0;
    assert power[7] == 1.0;
    assert AccountSum(env.account, uids, power, 1, env.account(7)) ==
           AccountSum(env.account, uids, power, 0, env.account(7)) + 1.0;
  }

  lemma OneLedger(env: Env, cpu: map<int, real>)
    requires cpu == map[7 := 1.0]
    ensures var first := Then(Boot(0, 0), CpuUid(7));
            LedgerEmpty(env, first) && !LedgerEmpty(env, Then(first, Compute(cpu)))
  {
    var first := Then(Boot(0, 0), CpuUid(7));
    OneUid(env, cpu);
    forall a ensures AccountLedger(env, first, a) == 0.0 {
      assert AccountLedger(env, Boot(0, 0), a) == 0.0;
    }
    assert AccountLedger(env, Then(first, Compute(cpu)), env.account(7)) == 1.0;
  }

  /** One uid, 1 mAh of cpu power, two roll-ups: the first save restores, the second does not. */
  lemma SecondSaveExample(env: Env)
    ensures var first, cpu := Then(Boot(0, 0), CpuUid(7)), map[7 := 1.0];
            Restores(env, first, cpu) && !Restores(env, Then(first, Compute(cpu)), cpu)
  {
    var first, cpu := Then(Boot(0, 0), CpuUid(7)), map[7 := 1.0];
    OneLedger(env, cpu);
    RestoresIffLedgerEmpty(env, first, cpu);
    RestoresIffLedgerEmpty(env, Then(first, Compute(cpu)), cpu);
  }
}
