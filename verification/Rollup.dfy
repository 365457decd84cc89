/** The stats list and the total that ComputePower leaves behind. */
module Rollup {
  import opened StatsTypes
  import opened CoreSpec
  import opened Sums

  // ---- Reading the list ----

  function AppStatsMah(list: seq<Info>, uid: int): real {
    if list == [] then 0.0
    else if list[0].kind == TYPE_APP && list[0].uid == uid then list[0].power
    else AppStatsMah(list[1..], uid)
  }

  function PartStatsMah(list: seq<Info>, kind: int): real {
    if list == [] then 0.0
    else if list[0].kind == kind then list[0].power
    else PartStatsMah(list[1..], kind)
  }

  function AppStatsPercent(total: real, list: seq<Info>, uid: int): real {
    if total <= 0.0 then 0.0 else AppStatsMah(list, uid) / total
  }

  /** Unlike the app share this one divides by a negative total as well. */
  function PartStatsPercent(total: real, list: seq<Info>, kind: int): real {
    if total == 0.0 then 0.0 else PartStatsMah(list, kind) / total
  }

  function NonUser(list: seq<Info>): seq<Info> {
    if list == [] then []
    else (if list[0].kind == TYPE_USER then [] else [list[0]]) + NonUser(list[1..])
  }

  function ListPower(list: seq<Info>): real {
    if list == [] then 0.0 else list[0].power + ListPower(list[1..])
  }

  ghost predicate NoUser(list: seq<Info>) { forall i :: 0 <= i < |list| ==> list[i].kind != TYPE_USER }

  ghost predicate OnlyUser(list: seq<Info>) { forall i :: 0 <= i < |list| ==> list[i].kind == TYPE_USER }

  lemma {:induction false} NonUserConcat(a: seq<Info>, b: seq<Info>)
    ensures NonUser(a + b) == NonUser(a) + NonUser(b)
  {
    if a == [] {
      assert a + b == b;
    } else {
      var both := a + b;
      assert both[0] == a[0] && both[1..] == a[1..] + b;
      NonUserConcat(a[1..], b);
      Associate(if a[0].kind == TYPE_USER then [] else [a[0]], NonUser(a[1..]), NonUser(b));
    }
  }

  lemma {:induction false} NonUserKeeps(a: seq<Info>)
    ensures NoUser(a) ==> NonUser(a) == a
    ensures OnlyUser(a) ==> NonUser(a) == []
  {
    if a != [] { NonUserKeeps(a[1..]); }
  }

  lemma {:induction false} PowerConcat(a: seq<Info>, b: seq<Info>)
    ensures ListPower(a + b) == ListPower(a) + ListPower(b)
  {
    if a == [] {
      assert a + b == b;
    } else {
      PowerConcat(a[1..], b);
      assert (a + b)[1..] == a[1..] + b;
    }
  }

  // ---- The entries ----

  lemma {:induction false} AppEntriesShape(uids: seq<int>, power: map<int, real>, n: nat)
    requires n <= |uids| && forall i :: 0 <= i < |uids| ==> uids[i] in power && uids[i] >= 0
    ensures |AppEntries(uids, power, n)| == n
    ensures forall i :: 0 <= i < n ==>
              AppEntries(uids, power, n)[i] == Info(uids[i], INVALID_VALUE, TYPE_APP, power[uids[i]])
    ensures NoUser(AppEntries(uids, power, n))
    ensures ListPower(AppEntries(uids, power, n)) == PowerSum(uids, power, n)
  {
    if n > 0 {
      AppEntriesShape(uids, power, n - 1);
      PowerConcat(AppEntries(uids, power, n - 1), [AppInfo(uids[n - 1], power[uids[n - 1]])]);
    }
  }

  lemma {:induction false} UserEntriesShape(users: seq<int>, power: map<int, real>, n: nat)
    requires n <= |users| && forall i :: 0 <= i < |users| ==> users[i] in power
    ensures |UserEntries(users, power, n)| == n && OnlyUser(UserEntries(users, power, n))
    ensures forall i :: 0 <= i < n ==> UserEntries(users, power, n)[i] == UserInfo(users[i], power[users[i]])
    ensures ListPower(UserEntries(users, power, n)) == PowerSum(users, power, n)
  {
    if n > 0 {
      UserEntriesShape(users, power, n - 1);
      PowerConcat(UserEntries(users, power, n - 1), [UserInfo(users[n - 1], power[users[n - 1]])]);
    }
  }

  lemma {:induction false} FindApp(uids: seq<int>, power: map<int, real>, n: nat, rest: seq<Info>, uid: int)
    requires n <= |uids| && forall i :: 0 <= i < |uids| ==> uids[i] in power && uids[i] >= 0
    ensures AppStatsMah(AppEntries(uids, power, n) + rest, uid) ==
            if uid in uids[..n] then power[uid] else AppStatsMah(rest, uid)
  {
    if n == 0 {
      assert AppEntries(uids, power, 0) + rest == rest;
    } else {
      var e := AppInfo(uids[n - 1], power[uids[n - 1]]);
      FindApp(uids, power, n - 1, [e] + rest, uid);
      assert AppEntries(uids, power, n) + rest == AppEntries(uids, power, n - 1) + ([e] + rest);
      assert ([e] + rest)[1..] == rest;
      assert uids[..n] == uids[..n - 1] + [uids[n - 1]];
    }
  }

  lemma {:induction false} FindPart(uids: seq<int>, power: map<int, real>, n: nat, rest: seq<Info>, kind: int)
    requires n <= |uids| && forall i :: 0 <= i < |uids| ==> uids[i] in power
    requires kind != TYPE_APP
    ensures PartStatsMah(AppEntries(uids, power, n) + rest, kind) == PartStatsMah(rest, kind)
  {
    if n == 0 {
      assert AppEntries(uids, power, 0) + rest == rest;
    } else {
      var e := AppInfo(uids[n - 1], power[uids[n - 1]]);
      FindPart(uids, power, n - 1, [e] + rest, kind);
      assert AppEntries(uids, power, n) + rest == AppEntries(uids, power, n - 1) + ([e] + rest);
      assert ([e] + rest)[1..] == rest;
    }
  }

  lemma {:induction false} NoAppFound(list: seq<Info>, uid: int)
    requires forall i :: 0 <= i < |list| ==> list[i].kind != TYPE_APP
    ensures AppStatsMah(list, uid) == 0.0
  {
    if list != [] { NoAppFound(list[1..], uid); }
  }

  ghost predicate IsPart(kind: int) {
    kind in {TYPE_BLUETOOTH, TYPE_IDLE, TYPE_PHONE, TYPE_SCREEN, TYPE_WIFI}
  }

  function PowerOfPart(parts: Parts, kind: int): real {
    if kind == TYPE_BLUETOOTH then parts.bluetooth
    else if kind == TYPE_IDLE then parts.idle
    else if kind == TYPE_PHONE then parts.phone
    else if kind == TYPE_SCREEN then parts.screen
    else if kind == TYPE_WIFI then parts.wifi
    else 0.0
  }

  lemma PartFirst(e: Info, rest: seq<Info>, kind: int)
    ensures PartStatsMah([e] + rest, kind) == if e.kind == kind then e.power else PartStatsMah(rest, kind)
    ensures ListPower([e] + rest) == e.power + ListPower(rest)
  {
    assert ([e] + rest)[1..] == rest;
  }

  /** Each of the five entries is found by its own type. */
  lemma FiveParts(parts: Parts, rest: seq<Info>, kind: int)
    ensures ListPower(parts.Entries() + rest) == parts.Sum() + ListPower(rest)
    ensures IsPart(kind) ==> PartStatsMah(parts.Entries() + rest, kind) == PowerOfPart(parts, kind)
  {
    var p := parts.Entries();
    var r4 := [p[4]] + rest;
    var r3 := [p[3]] + r4;
    var r2 := [p[2]] + r3;
    var r1 := [p[1]] + r2;
    PartFirst(p[4], rest, kind);
    PartFirst(p[3], r4, kind);
    PartFirst(p[2], r3, kind);
    PartFirst(p[1], r2, kind);
    PartFirst(p[0], r1, kind);
    assert p + rest == [p[0]] + r1;
  }

  lemma NonUserOf(apps: seq<Info>, parts: seq<Info>, users: seq<Info>)
    requires NoUser(apps) && NoUser(parts) && OnlyUser(users)
    ensures NonUser(apps + parts + users) == apps + parts
  {
    NonUserConcat(apps + parts, users);
    NonUserConcat(apps, parts);
    NonUserKeeps(apps);
    NonUserKeeps(parts);
    NonUserKeeps(users);
  }

  ghost predicate UidsValid(power: map<int, real>) { forall u :: u in power ==> u >= 0 }

  /** The three stretches of a stats list, and what they contain. */
  lemma ListStretches(uids: seq<int>, power: map<int, real>, parts: Parts, users: seq<Info>, list: seq<Info>)
    requires (forall i :: 0 <= i < |uids| ==> uids[i] in power && uids[i] >= 0) && OnlyUser(users)
    requires list == AppEntries(uids, power, |uids|) + parts.Entries() + users
    ensures NonUser(list) == AppEntries(uids, power, |uids|) + parts.Entries()
    ensures ListPower(NonUser(list)) == PowerSum(uids, power, |uids|) + parts.Sum()
  {
    var apps := AppEntries(uids, power, |uids|);
    AppEntriesShape(uids, power, |uids|);
    NonUserOf(apps, parts.Entries(), users);
    FiveParts(parts, [], TYPE_IDLE);
    assert parts.Entries() + [] == parts.Entries();
    PowerConcat(apps, parts.Entries());
  }

  lemma ListAndTotal(
    uids: seq<int>, power: map<int, real>, parts: Parts, users: seq<Info>, list: seq<Info>, total: real)
    requires (forall i :: 0 <= i < |uids| ==> uids[i] in power && uids[i] >= 0) && OnlyUser(users)
    requires list == AppEntries(uids, power, |uids|) + parts.Entries() + users
    requires total == PowerSum(uids, power, |uids|) + parts.Sum()
    ensures NonUser(list) == AppEntries(uids, power, |uids|) + parts.Entries() && total == ListPower(NonUser(list))
  {
    ListStretches(uids, power, parts, users, list);
  }

  lemma ListLookups(uids: seq<int>, power: map<int, real>, parts: Parts, users: seq<Info>, uid: int, kind: int)
    requires (forall i :: 0 <= i < |uids| ==> uids[i] in power && uids[i] >= 0) && OnlyUser(users)
    ensures var list := AppEntries(uids, power, |uids|) + parts.Entries() + users;
            && AppStatsMah(list, uid) == (if uid in uids then power[uid] else 0.0)
            && (IsPart(kind) ==> PartStatsMah(list, kind) == PowerOfPart(parts, kind))
  {
    var apps, rest := AppEntries(uids, power, |uids|), parts.Entries() + users;
    assert apps + parts.Entries() + users == apps + rest;
    FindApp(uids, power, |uids|, rest, uid);
    assert uids[..|uids|] == uids;
    NoAppFound(rest, uid);
    if IsPart(kind) {
      FindPart(uids, power, |uids|, rest, kind);
      FiveParts(parts, users, kind);
    }
  }

  lemma PublishedUsers(s: State, account: int -> int, power: map<int, real>, parts: Parts) returns (users: seq<Info>)
    ensures OnlyUser(users)
    ensures Publish(s, account, power, parts).total ==
            PowerSum(Sorted(power.Keys), power, |Sorted(power.Keys)|) + parts.Sum()
    ensures Publish(s, account, power, parts).list ==
            AppEntries(Sorted(power.Keys), power, |Sorted(power.Keys)|) + parts.Entries() + users
  {
    var m := Publish(s, account, power, parts).userPower;
    var accounts := Sorted(m.Keys);
    UserEntriesShape(accounts, m, |accounts|);
    users := UserEntries(accounts, m, |accounts|);
  }

  /**
   * After any roll-up: one APP entry per known uid in ascending order, then the five parts, then
   * only USER entries; and the total is exactly the power of the entries that are not USER.
   */
  lemma RollUpList(s: State, account: int -> int, power: map<int, real>, parts: Parts)
    requires UidsValid(power)
    ensures var r := Publish(s, account, power, parts);
            var uids := Sorted(power.Keys);
            && NonUser(r.list) == AppEntries(uids, power, |uids|) + parts.Entries()
            && r.total == ListPower(NonUser(r.list))
  {
    var users := PublishedUsers(s, account, power, parts);
    var r := Publish(s, account, power, parts);
    ListAndTotal(Sorted(power.Keys), power, parts, users, r.list, r.total);
  }

  /** The rest of the list: the USER entries of the accounts as the roll-up left them. */
  lemma RollUpUsers(s: State, account: int -> int, power: map<int, real>, parts: Parts)
    requires UidsValid(power)
    ensures var r := Publish(s, account, power, parts);
            var accounts := Sorted(r.userPower.Keys);
            r.list == NonUser(r.list) + UserEntries(accounts, r.userPower, |accounts|)
  {
    RollUpList(s, account, power, parts);
  }

  /** What the getters answer after any roll-up. */
  lemma RollUpLookups(s: State, account: int -> int, power: map<int, real>, parts: Parts, uid: int, kind: int)
    requires UidsValid(power)
    ensures var r := Publish(s, account, power, parts);
            && AppStatsMah(r.list, uid) == (if uid in power then power[uid] else 0.0)
            && (IsPart(kind) ==> PartStatsMah(r.list, kind) == PowerOfPart(parts, kind))
  {
    var users := PublishedUsers(s, account, power, parts);
    ListLookups(Sorted(power.Keys), power, parts, users, uid, kind);
  }

  // ---- Shares ----

  /** Shares of the first n uids. */
  function AppShares(total: real, list: seq<Info>, uids: seq<int>, n: nat): real
    requires n <= |uids|
  {
    if n == 0 then 0.0 else AppShares(total, list, uids, n - 1) + AppStatsPercent(total, list, uids[n - 1])
  }

  function PartShares(total: real, list: seq<Info>): real {
    PartStatsPercent(total, list, TYPE_BLUETOOTH) + PartStatsPercent(total, list, TYPE_IDLE)
    + PartStatsPercent(total, list, TYPE_PHONE) + PartStatsPercent(total, list, TYPE_SCREEN)
    + PartStatsPercent(total, list, TYPE_WIFI)
  }

  lemma {:induction false} AppSharesSum(total: real, list: seq<Info>, power: map<int, real>, uids: seq<int>, n: nat)
    requires n <= |uids| && total > 0.0
    requires forall i :: 0 <= i < |uids| ==> uids[i] in power && AppStatsMah(list, uids[i]) == power[uids[i]]
    ensures AppShares(total, list, uids, n) == PowerSum(uids, power, n) / total
  {
    if n > 0 {
      AppSharesSum(total, list, power, uids, n - 1);
      DivideSum(PowerSum(uids, power, n - 1), power[uids[n - 1]], total);
    }
  }

  lemma DivideSum(x: real, y: real, t: real)
    requires t > 0.0
    ensures (x + y) / t == x / t + y / t
  {}

  lemma SixShares(a: real, b: real, i: real, p: real, s: real, w: real, t: real)
    requires t > 0.0 && a + b + i + p + s + w == t
    ensures a / t + (b / t + i / t + p / t + s / t + w / t) == 1.0
  {
    assert a / t + (b / t + i / t + p / t + s / t + w / t) == (a + b + i + p + s + w) / t;
  }

  /** With a positive total, all app shares and the five part shares add up to exactly one. */
  lemma SharesSumToOne(s: State, account: int -> int, power: map<int, real>, parts: Parts)
    requires UidsValid(power) && Publish(s, account, power, parts).total > 0.0
    ensures var r := Publish(s, account, power, parts);
            var uids := Sorted(power.Keys);
            AppShares(r.total, r.list, uids, |uids|) + PartShares(r.total, r.list) == 1.0
  {
    var r := Publish(s, account, power, parts);
    var uids := Sorted(power.Keys);
    forall i | 0 <= i < |uids| ensures AppStatsMah(r.list, uids[i]) == power[uids[i]] {
      RollUpLookups(s, account, power, parts, uids[i], TYPE_IDLE);
    }
    AppSharesSum(r.total, r.list, power, uids, |uids|);
    RollUpLookups(s, account, power, parts, 0, TYPE_BLUETOOTH);
    RollUpLookups(s, account, power, parts, 0, TYPE_IDLE);
    RollUpLookups(s, account, power, parts, 0, TYPE_PHONE);
    RollUpLookups(s, account, power, parts, 0, TYPE_SCREEN);
    RollUpLookups(s, account, power, parts, 0, TYPE_WIFI);
    SixShares(PowerSum(uids, power, |uids|), parts.bluetooth, parts.idle, parts.phone, parts.screen, parts.wifi,
            r.total);
  }

  // ---- Users ----

  function ValueAt(m: map<int, real>, a: int): real {
    if a in m then m[a] else 0.0
  }

  /** The power of those of the first n uids that belong to account a. */
  function AccountSum(account: int -> int, uids: seq<int>, power: map<int, real>, n: nat, a: int): real
    requires n <= |uids| && forall i :: 0 <= i < n ==> uids[i] in power
  {
    if n == 0 then 0.0
    else AccountSum(account, uids, power, n - 1, a) + if account(uids[n - 1]) == a then power[uids[n - 1]] else 0.0
  }

  /** Each roll-up raises every account by exactly the app power of its uids. */
  lemma {:induction false} AggregateAdds(users: map<int, real>, account: int -> int, uids: seq<int>,
                                         power: map<int, real>, n: nat, a: int)
    requires n <= |uids| && forall i :: 0 <= i < n ==> uids[i] in power
    ensures var m := Aggregate(users, account, uids, power, n);
            && ValueAt(m, a) == ValueAt(users, a) + AccountSum(account, uids, power, n, a)
            && (a in m <==> a in users || exists i :: 0 <= i < n && account(uids[i]) == a)
  {
    if n > 0 {
      AggregateAdds(users, account, uids, power, n - 1, a);
      var m := Aggregate(users, account, uids, power, n - 1);
      if account(uids[n - 1]) == a {
        assert a in Aggregate(users, account, uids, power, n);
      } else {
        assert (exists i :: 0 <= i < n && account(uids[i]) == a) ==>
          exists i :: 0 <= i < n - 1 && account(uids[i]) == a;
      }
    }
  }

  /** The same of a whole roll-up. */
  lemma PublishAdds(s: State, account: int -> int, power: map<int, real>, parts: Parts, a: int)
    ensures var uids := Sorted(power.Keys);
            ValueAt(Publish(s, account, power, parts).userPower, a) ==
            ValueAt(s.userPower, a) + AccountSum(account, uids, power, |uids|, a)
  {
    AggregateAdds(s.userPower, account, Sorted(power.Keys), power, |Sorted(power.Keys)|, a);
  }

  /** Sum of the accounts' values over a fixed listing. */
  function ValueSum(accounts: seq<int>, m: map<int, real>, n: nat): real
    requires n <= |accounts|
  {
    if n == 0 then 0.0 else ValueSum(accounts, m, n - 1) + ValueAt(m, accounts[n - 1])
  }

  lemma {:induction false} ValueSumBump(accounts: seq<int>, m: map<int, real>, a: int, v: real, n: nat)
    requires n <= |accounts| && Ascending(accounts)
    ensures ValueSum(accounts, m[a := v], n) ==
            ValueSum(accounts, m, n) + if a in accounts[..n] then v - ValueAt(m, a) else 0.0
  {
    if n > 0 {
      ValueSumBump(accounts, m, a, v, n - 1);
      assert accounts[..n] == accounts[..n - 1] + [accounts[n - 1]];
      assert forall i :: 0 <= i < n - 1 ==> accounts[i] < accounts[n - 1];
    }
  }

  lemma {:induction false} ValueSumZero(accounts: seq<int>, m: map<int, real>, n: nat)
    requires n <= |accounts| && forall a :: a in m ==> m[a] == 0.0
    ensures ValueSum(accounts, m, n) == 0.0
  {
    if n > 0 { ValueSumZero(accounts, m, n - 1); }
  }

  lemma {:induction false} ValueSumIsPowerSum(accounts: seq<int>, m: map<int, real>, n: nat)
    requires n <= |accounts| && forall i :: 0 <= i < n ==> accounts[i] in m
    ensures ValueSum(accounts, m, n) == PowerSum(accounts, m, n)
  {
    if n > 0 { ValueSumIsPowerSum(accounts, m, n - 1); }
  }

  lemma {:induction false} AggregateTotal(users: map<int, real>, account: int -> int, uids: seq<int>,
                                          power: map<int, real>, n: nat, accounts: seq<int>)
    requires n <= |uids| && forall i :: 0 <= i < n ==> uids[i] in power
    requires Ascending(accounts) && forall i :: 0 <= i < n ==> account(uids[i]) in accounts
    ensures ValueSum(accounts, Aggregate(users, account, uids, power, n), |accounts|) ==
            ValueSum(accounts, users, |accounts|) + PowerSum(uids, power, n)
  {
    if n > 0 {
      AggregateTotal(users, account, uids, power, n - 1, accounts);
      var m := Aggregate(users, account, uids, power, n - 1);
      var a := account(uids[n - 1]);
      ValueSumBump(accounts, m, a, (if a in m then m[a] else 0.0) + power[uids[n - 1]], |accounts|);
      assert accounts[..|accounts|] == accounts;
    }
  }

  /**
   * A roll-up adds the sum of the APP entries to the accounts' sum: USER and APP entries balance
   * exactly when the accounts summed to zero before it.
   */
  lemma UsersGrowByApps(s: State, account: int -> int, power: map<int, real>, parts: Parts)
    ensures var users := Publish(s, account, power, parts).userPower;
            var accounts, uids := Sorted(users.Keys), Sorted(power.Keys);
            PowerSum(accounts, users, |accounts|) ==
            ValueSum(accounts, s.userPower, |accounts|) + PowerSum(uids, power, |uids|)
  {
    var uids := Sorted(power.Keys);
    var users := Aggregate(s.userPower, account, uids, power, |uids|);
    var accounts := Sorted(users.Keys);
    forall i | 0 <= i < |uids| ensures account(uids[i]) in accounts {
      AggregateAdds(s.userPower, account, uids, power, |uids|, account(uids[i]));
    }
    AggregateTotal(s.userPower, account, uids, power, |uids|, accounts);
    ValueSumIsPowerSum(accounts, users, |accounts|);
  }

  /** Starting from cleared accounts, the USER entries and the APP entries of a roll-up have equal sums. */
  lemma {:induction false} UsersSumToApps(s: State, account: int -> int, power: map<int, real>, parts: Parts)
    requires forall a :: a in s.userPower ==> s.userPower[a] == 0.0
    ensures var users := Publish(s, account, power, parts).userPower;
            var accounts, uids := Sorted(users.Keys), Sorted(power.Keys);
            PowerSum(accounts, users, |accounts|) == PowerSum(uids, power, |uids|)
  {
    UsersGrowByApps(s, account, power, parts);
    var accounts := Sorted(Publish(s, account, power, parts).userPower.Keys);
    ValueSumZero(accounts, s.userPower, |accounts|);
  }

  // ---- Each uid is billed once ----

  function AppCount(list: seq<Info>, uid: int): nat {
    if list == [] then 0
    else (if list[0].kind == TYPE_APP && list[0].uid == uid then 1 else 0) + AppCount(list[1..], uid)
  }

  lemma {:induction false} AppCountConcat(a: seq<Info>, b: seq<Info>, uid: int)
    ensures AppCount(a + b, uid) == AppCount(a, uid) + AppCount(b, uid)
  {
    if a == [] {
      assert a + b == b;
    } else {
      AppCountConcat(a[1..], b, uid);
      assert (a + b)[1..] == a[1..] + b;
    }
  }

  lemma {:induction false} NoAppCounted(list: seq<Info>, uid: int)
    requires forall i :: 0 <= i < |list| ==> list[i].kind != TYPE_APP
    ensures AppCount(list, uid) == 0
  {
    if list != [] { NoAppCounted(list[1..], uid); }
  }

  lemma {:induction false} AppEntriesCount(uids: seq<int>, power: map<int, real>, n: nat, uid: int)
    requires n <= |uids| && Ascending(uids) && forall i :: 0 <= i < |uids| ==> uids[i] in power && uids[i] >= 0
    ensures AppCount(AppEntries(uids, power, n), uid) == if uid in uids[..n] then 1 else 0
  {
    if n > 0 {
      AppEntriesCount(uids, power, n - 1, uid);
      AppCountConcat(AppEntries(uids, power, n - 1), [AppInfo(uids[n - 1], power[uids[n - 1]])], uid);
      assert uids[..n] == uids[..n - 1] + [uids[n - 1]];
      assert forall i :: 0 <= i < n - 1 ==> uids[i] < uids[n - 1];
    }
  }

  lemma StretchCount(uids: seq<int>, power: map<int, real>, parts: Parts, users: seq<Info>, list: seq<Info>, uid: int)
    requires Ascending(uids) && (forall i :: 0 <= i < |uids| ==> uids[i] in power && uids[i] >= 0) && OnlyUser(users)
    requires list == AppEntries(uids, power, |uids|) + parts.Entries() + users
    ensures AppCount(list, uid) == if uid in uids then 1 else 0
  {
    var apps := AppEntries(uids, power, |uids|);
    AppEntriesCount(uids, power, |uids|, uid);
    assert uids[..|uids|] == uids;
    AppCountConcat(apps + parts.Entries(), users, uid);
    AppCountConcat(apps, parts.Entries(), uid);
    NoAppCounted(parts.Entries(), uid);
    NoAppCounted(users, uid);
  }

  /** A roll-up's list holds exactly one APP entry for each uid in the map, and none for any other. */
  lemma BilledOnce(s: State, account: int -> int, power: map<int, real>, parts: Parts, uid: int)
    requires UidsValid(power)
    ensures AppCount(Publish(s, account, power, parts).list, uid) == if uid in power then 1 else 0
  {
    var users := PublishedUsers(s, account, power, parts);
    StretchCount(Sorted(power.Keys), power, parts, users, Publish(s, account, power, parts).list, uid);
  }
}
