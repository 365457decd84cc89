/** The saved power list: what is written, what is read back, and when that is the same list. */
module PowerStore {
  import opened StatsTypes
  import opened CoreSpec
  import opened ComputeFacts
  import opened Rollup
  import opened Numbers
  import opened Sums

  /** A child of the "Power" object: its name, absent in an array, and its value when that is a number. */
  datatype Member = Member(key: Option<string>, number: Option<real>)

  function Named(id: int, power: real): Member {
    Member(Some(ToString(id)), Some(power))
  }

  function FlatMap<T, U>(f: T -> seq<U>, s: seq<T>): seq<U> {
    if s == [] then [] else FlatMap(f, s[..|s| - 1]) + f(s[|s| - 1])
  }

  lemma {:induction false} FlatMapConcat<T, U>(f: T -> seq<U>, a: seq<T>, b: seq<T>)
    ensures FlatMap(f, a + b) == FlatMap(f, a) + FlatMap(f, b)
  {
    if b == [] {
      assert a + b == a;
    } else {
      var front, last := b[..|b| - 1], b[|b| - 1];
      var both := a + b;
      assert both[..|both| - 1] == a + front && both[|both| - 1] == last;
      FlatMapConcat(f, a, front);
      Associate(FlatMap(f, a), FlatMap(f, front), f(last));
    }
  }

  lemma FlatMapOne<T, U>(f: T -> seq<U>, x: T)
    ensures FlatMap(f, [x]) == f(x)
  {
    assert [x][..0] == [];
    assert FlatMap(f, [x][..0]) == [];
  }

  // ---- Saving ----

  function SavedEntry(e: Info): seq<Member> {
    if e.kind == TYPE_APP then [Named(e.uid, e.power)]
    else if e.kind != TYPE_USER then [Named(e.kind, e.power)]
    else []
  }

  function Saved(list: seq<Info>): seq<Member> {
    FlatMap(SavedEntry, list)
  }

  // ---- Loading ----

  /** The entry of a key's number; ids that name neither a uid nor a type leave a default entry. */
  function EntryOf(id: int, power: real): Info {
    if id > INVALID_VALUE then AppInfo(id, power)
    else if TYPE_INVALID < id < INVALID_VALUE then PartInfo(id, power)
    else NEW_INFO
  }

  ghost function LoadedEntry(m: Member): seq<Info> {
    if m.key.None? || m.number.None? || Parsed(m.key.value).None? then []
    else [EntryOf(ToInt32(Parsed(m.key.value).value), m.number.value)]
  }

  ghost function Loaded(members: seq<Member>): seq<Info> {
    FlatMap(LoadedEntry, members)
  }

  lemma LoadedSnoc(members: seq<Member>, i: nat)
    requires i < |members|
    ensures Loaded(members[..i + 1]) == Loaded(members[..i]) + LoadedEntry(members[i])
  {
    assert members[..i + 1][..i] == members[..i];
  }

  /** The power of the entries that have a uid, by account. */
  function ByAccount(account: int -> int, list: seq<Info>): map<int, real> {
    if list == [] then map[]
    else Counting(ByAccount(account, list[..|list| - 1]), account, list[|list| - 1])
  }

  function Counting(users: map<int, real>, account: int -> int, e: Info): map<int, real> {
    if e.uid > INVALID_VALUE then Credited(users, account(e.uid), e.power) else users
  }

  lemma ByAccountStep(account: int -> int, list: seq<Info>, more: seq<Info>)
    requires |more| <= 1
    ensures ByAccount(account, list + more) ==
            if more != [] then Counting(ByAccount(account, list), account, more[0]) else ByAccount(account, list)
  {
    if more != [] {
      assert (list + more)[..|list|] == list;
    } else {
      assert list + more == list;
    }
  }

  ghost function Reloaded(account: int -> int, members: seq<Member>): seq<Info> {
    var users := ByAccount(account, Loaded(members));
    var accounts := Sorted(users.Keys);
    Loaded(members) + UserEntries(accounts, users, |accounts|)
  }

  // ---- Reading back what was written ----

  /** An entry as ComputePower makes them: a 32-bit uid, or one of the hardware types. */
  ghost predicate Storable(e: Info) {
    || e.kind == TYPE_USER
    || (e.kind == TYPE_APP && 0 <= e.uid && IsInt32(e.uid) && e.userId == INVALID_VALUE)
    || (TYPE_INVALID < e.kind < INVALID_VALUE && e.kind != TYPE_APP && e.uid == e.userId == INVALID_VALUE)
  }

  ghost predicate AllStorable(list: seq<Info>) { forall i :: 0 <= i < |list| ==> Storable(list[i]) }

  /** Nothing is written of a USER entry; any other gives its power under the number of its uid or its type. */
  lemma SavedByName(e: Info)
    ensures e.kind == -10 ==> SavedEntry(e) == []
    ensures e.kind != -10 ==>
              var saved := SavedEntry(e);
              && |saved| == 1 && saved[0].key.Some? && saved[0].number == Some(e.power)
              && Denotes(saved[0].key.value, if e.kind == -16 then e.uid else e.kind)
  {
    ToStringDenotes(if e.kind == -16 then e.uid else e.kind);
  }

  /** A name that denotes n, cut to 32 bits: a uid, a type, or neither and then a default entry. */
  lemma LoadedByName(key: string, n: int, power: real)
    requires IsInt64(n) && Denotes(key, n)
    ensures var id := ToInt32(n);
            LoadedEntry(Member(Some(key), Some(power))) ==
            [if id >= 0 then Info(id, -1, -16, power)
             else if -17 < id < -1 then Info(-1, -1, id, power)
             else Info(-1, -1, -17, 0.0)]
  {
    DenotesOne(key, n, Parsed(key).value);
  }

  /** A child without a name, without a number, or whose name denotes no 64-bit number, is passed over. */
  lemma SkippedByName(m: Member)
    requires m.key.None? || m.number.None? || forall n :: IsInt64(n) ==> !Denotes(m.key.value, n)
    ensures LoadedEntry(m) == []
  {}

  lemma LoadedNamed(id: int, power: real)
    requires IsInt32(id)
    ensures LoadedEntry(Named(id, power)) == [EntryOf(id, power)]
  {
    ToStringParses(id);
  }

  lemma LoadedSavedEntry(e: Info)
    requires Storable(e)
    ensures Loaded(SavedEntry(e)) == if e.kind == TYPE_USER then [] else [e]
  {
    if e.kind != TYPE_USER {
      var id := if e.kind == TYPE_APP then e.uid else e.kind;
      LoadedNamed(id, e.power);
      FlatMapOne(LoadedEntry, Named(id, e.power));
    }
  }

  lemma NonUserSnoc(list: seq<Info>)
    requires list != []
    ensures var last := list[|list| - 1];
            NonUser(list) == NonUser(list[..|list| - 1]) + if last.kind == TYPE_USER then [] else [last]
  {
    var front, last := list[..|list| - 1], list[|list| - 1];
    assert list == front + [last];
    NonUserConcat(front, [last]);
    assert NonUser([last][1..]) == [];
  }

  /** Every entry that is not USER comes back with its type, uid, power and place. */
  lemma {:induction false} SaveLoad(list: seq<Info>)
    requires AllStorable(list)
    ensures Loaded(Saved(list)) == NonUser(list)
  {
    if list != [] {
      var front, last := list[..|list| - 1], list[|list| - 1];
      SaveLoad(front);
      FlatMapConcat(LoadedEntry, Saved(front), SavedEntry(last));
      LoadedSavedEntry(last);
      NonUserSnoc(list);
    }
  }

  lemma {:induction false} ByAccountOfApps(account: int -> int, uids: seq<int>, power: map<int, real>, n: nat)
    requires n <= |uids| && forall i :: 0 <= i < |uids| ==> uids[i] in power && uids[i] >= 0
    ensures ByAccount(account, AppEntries(uids, power, n)) == Aggregate(map[], account, uids, power, n)
  {
    if n > 0 {
      ByAccountOfApps(account, uids, power, n - 1);
      var list := AppEntries(uids, power, n);
      assert list[..|list| - 1] == AppEntries(uids, power, n - 1);
    }
  }

  lemma {:induction false} ByAccountSkips(account: int -> int, a: seq<Info>, b: seq<Info>)
    requires forall i :: 0 <= i < |b| ==> b[i].uid <= INVALID_VALUE
    ensures ByAccount(account, a + b) == ByAccount(account, a)
  {
    if b == [] {
      assert a + b == a;
    } else {
      ByAccountSkips(account, a, b[..|b| - 1]);
      assert (a + b)[..|a + b| - 1] == a + b[..|b| - 1];
    }
  }

  ghost predicate UidsStorable(power: map<int, real>) { forall u :: u in power ==> 0 <= u && IsInt32(u) }

  lemma AppsStorable(uids: seq<int>, power: map<int, real>)
    requires UidsStorable(power) && forall i :: 0 <= i < |uids| ==> uids[i] in power
    ensures AllStorable(AppEntries(uids, power, |uids|))
  {
    AppEntriesShape(uids, power, |uids|);
  }

  lemma PartsPlain(parts: Parts)
    ensures var p := parts.Entries();
            AllStorable(p) && NoUser(p) && forall i :: 0 <= i < |p| ==> p[i].uid <= INVALID_VALUE
  {}

  lemma ThreeStorable(apps: seq<Info>, parts: seq<Info>, users: seq<Info>)
    requires AllStorable(apps) && AllStorable(parts) && OnlyUser(users)
    ensures AllStorable(apps + parts + users)
  {}

  /** The loaded form of a list of APP entries, part entries and USER entries. */
  lemma StretchesReload(account: int -> int, apps: seq<Info>, parts: Parts, users: seq<Info>)
    requires NoUser(apps) && AllStorable(apps) && OnlyUser(users)
    ensures Loaded(Saved(apps + parts.Entries() + users)) == apps + parts.Entries()
    ensures ByAccount(account, apps + parts.Entries()) == ByAccount(account, apps)
  {
    var p := parts.Entries();
    PartsPlain(parts);
    ThreeStorable(apps, p, users);
    SaveLoad(apps + p + users);
    NonUserOf(apps, p, users);
    ByAccountSkips(account, apps, p);
  }

  /** What one roll-up would give the accounts if they started empty. */
  function FreshAccounts(account: int -> int, power: map<int, real>): map<int, real> {
    var uids := Sorted(power.Keys);
    Aggregate(map[], account, uids, power, |uids|)
  }

  function AllUserEntries(users: map<int, real>): seq<Info> {
    var accounts := Sorted(users.Keys);
    UserEntries(accounts, users, |accounts|)
  }

  /**
   * Saving and loading any published list gives back its APP and part entries in place, followed by
   * one USER entry per account with the sum of its APP entries.
   */
  lemma PublishedReloads(s: State, account: int -> int, power: map<int, real>, parts: Parts)
    requires UidsStorable(power)
    ensures var list := Publish(s, account, power, parts).list;
            Reloaded(account, Saved(list)) == NonUser(list) + AllUserEntries(FreshAccounts(account, power))
  {
    var uids := Sorted(power.Keys);
    var apps := AppEntries(uids, power, |uids|);
    var users := PublishedUsers(s, account, power, parts);
    RollUpList(s, account, power, parts);
    AppsStorable(uids, power);
    AppEntriesShape(uids, power, |uids|);
    StretchesReload(account, apps, parts, users);
    ByAccountOfApps(account, uids, power, |uids|);
  }

  // ---- When the whole list comes back ----

  lemma SameKeys(a: set<int>, b: set<int>)
    requires b <= a && |a| == |b|
    ensures a == b
  {
    assert |a - b| == 0;
    assert a == (a - b) + b;
  }

  lemma UserEntryAt(accounts: seq<int>, users: map<int, real>, i: nat)
    requires i < |accounts| && forall j :: 0 <= j < |accounts| ==> accounts[j] in users
    ensures |UserEntries(accounts, users, |accounts|)| == |accounts|
    ensures UserEntries(accounts, users, |accounts|)[i].power == users[accounts[i]]
  {
    UserEntriesShape(accounts, users, |accounts|);
  }

  lemma SameAt(accounts: seq<int>, a: map<int, real>, b: map<int, real>, i: nat)
    requires i < |accounts| && forall j :: 0 <= j < |accounts| ==> accounts[j] in a && accounts[j] in b
    requires UserEntries(accounts, a, |accounts|) == UserEntries(accounts, b, |accounts|)
    ensures a[accounts[i]] == b[accounts[i]]
  {
    UserEntryAt(accounts, a, i);
    UserEntryAt(accounts, b, i);
  }

  lemma SameValues(accounts: seq<int>, a: map<int, real>, b: map<int, real>)
    requires (forall i :: 0 <= i < |accounts| ==> accounts[i] in a && accounts[i] in b) && a.Keys == b.Keys
    requires forall k :: k in a ==> k in accounts
    requires UserEntries(accounts, a, |accounts|) == UserEntries(accounts, b, |accounts|)
    ensures a == b
  {
    forall k | k in a ensures a[k] == b[k] {
      var i :| 0 <= i < |accounts| && accounts[i] == k;
      SameAt(accounts, a, b, i);
    }
  }

  lemma AllUserEntriesSize(users: map<int, real>)
    ensures |AllUserEntries(users)| == |users.Keys|
  {
    var accounts := Sorted(users.Keys);
    UserEntriesShape(accounts, users, |accounts|);
    AscendingSize(accounts, users.Keys);
  }

  /** Listing the accounts loses nothing, even though a negative account is listed as -1. */
  lemma UserEntriesDiffer(a: map<int, real>, b: map<int, real>)
    requires b.Keys <= a.Keys
    ensures AllUserEntries(a) == AllUserEntries(b) <==> a == b
  {
    if AllUserEntries(a) == AllUserEntries(b) {
      AllUserEntriesSize(a);
      AllUserEntriesSize(b);
      SameKeys(a.Keys, b.Keys);
      SameValues(Sorted(a.Keys), a, b);
    }
  }

  /** Every account the service remembers stands at zero and belongs to some known uid. */
  ghost predicate AccountsFresh(users: map<int, real>, account: int -> int, uids: set<int>) {
    forall a :: a in users ==> users[a] == 0.0 && exists u :: u in uids && account(u) == a
  }

  lemma AccountCovered(account: int -> int, uids: seq<int>, keys: set<int>, a: int)
    requires uids == Sorted(keys)
    ensures (exists i :: 0 <= i < |uids| && account(uids[i]) == a) <==> (exists u :: u in keys && account(u) == a)
  {
    if u :| u in keys && account(u) == a {
      assert u in uids;
      var i :| 0 <= i < |uids| && uids[i] == u;
    }
    if i :| 0 <= i < |uids| && account(uids[i]) == a {
      assert uids[i] in uids;
      assert uids[i] in keys;
    }
  }

  /** One account after a roll-up, beside what it would hold had all accounts started empty. */
  lemma FreshAt(users: map<int, real>, account: int -> int, power: map<int, real>, a: int)
    ensures var uids := Sorted(power.Keys);
            var m, f := Aggregate(users, account, uids, power, |uids|), FreshAccounts(account, power);
            && ValueAt(m, a) == ValueAt(users, a) + ValueAt(f, a)
            && (a in m <==> a in users || a in f)
            && (a in f <==> exists u :: u in power.Keys && account(u) == a)
  {
    var uids := Sorted(power.Keys);
    AggregateAdds(users, account, uids, power, |uids|, a);
    AggregateAdds(map[], account, uids, power, |uids|, a);
    AccountCovered(account, uids, power.Keys, a);
  }

  ghost predicate AtFresh(users: map<int, real>, m: map<int, real>, f: map<int, real>, a: int) {
    ValueAt(m, a) == ValueAt(users, a) + ValueAt(f, a) && (a in m <==> a in users || a in f)
  }

  lemma FreshSame(users: map<int, real>, m: map<int, real>, f: map<int, real>)
    requires forall a :: AtFresh(users, m, f, a)
    ensures f.Keys <= m.Keys
    ensures m == f <==> forall a :: a in users ==> users[a] == 0.0 && a in f
  {
    forall a ensures a in f ==> a in m { assert AtFresh(users, m, f, a); }
    assert forall a :: a in f.Keys ==> a in m.Keys;
    if forall a :: a in users ==> users[a] == 0.0 && a in f {
      forall a ensures (a in m <==> a in f) && ValueAt(m, a) == ValueAt(f, a) { assert AtFresh(users, m, f, a); }
      forall a | a in m ensures a in f && m[a] == f[a] { assert ValueAt(m, a) == ValueAt(f, a); }
      assert forall a :: a in m.Keys <==> a in f.Keys;
      assert m.Keys == f.Keys;
    }
    if m == f {
      forall a | a in users ensures users[a] == 0.0 && a in f { assert AtFresh(users, m, f, a); }
    }
  }

  lemma AggregateFresh(users: map<int, real>, account: int -> int, power: map<int, real>)
    ensures var uids := Sorted(power.Keys);
            var m := Aggregate(users, account, uids, power, |uids|);
            && FreshAccounts(account, power).Keys <= m.Keys
            && (m == FreshAccounts(account, power) <==> AccountsFresh(users, account, power.Keys))
  {
    var uids := Sorted(power.Keys);
    var m, f := Aggregate(users, account, uids, power, |uids|), FreshAccounts(account, power);
    forall a ensures AtFresh(users, m, f, a) && (a in f <==> exists u :: u in power.Keys && account(u) == a) {
      FreshAt(users, account, power, a);
    }
    FreshSame(users, m, f);
  }

  lemma SameTail(front: seq<Info>, a: seq<Info>, b: seq<Info>)
    ensures front + a == front + b <==> a == b
  {
    assert (front + a)[|front|..] == a && (front + b)[|front|..] == b;
  }

  /** Loading gives the published list back in full exactly when the accounts were fresh before the roll-up. */
  lemma FullReloadIff(s: State, account: int -> int, power: map<int, real>, parts: Parts)
    requires UidsStorable(power)
    ensures var list := Publish(s, account, power, parts).list;
            Reloaded(account, Saved(list)) == list <==> AccountsFresh(s.userPower, account, power.Keys)
  {
    var r, uids := Publish(s, account, power, parts), Sorted(power.Keys);
    PublishedReloads(s, account, power, parts);
    RollUpList(s, account, power, parts);
    SameTail(AppEntries(uids, power, |uids|) + parts.Entries(), AllUserEntries(FreshAccounts(account, power)),
             AllUserEntries(r.userPower));
    AggregateFresh(s.userPower, account, power);
    UserEntriesDiffer(r.userPower, FreshAccounts(account, power));
  }
}
