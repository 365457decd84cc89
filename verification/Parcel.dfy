/** Sending the power list to a client: what is written to a parcel and what is made of it at the other end. */
module ParcelFormat {
  import opened StatsTypes
  import opened Numbers

  const PARAM_MAX_NUM := 2000

  /** A parcel is a row of values; only its owner knows where one list ends. */
  datatype Cell = IntCell(n: int) | DoubleCell(x: real)

  // ---- Writing ----

  function Written(e: Info): seq<Cell> {
    [IntCell(e.uid), IntCell(e.kind), DoubleCell(e.power)]
  }

  /** The entries that are not null. */
  function WrittenAll(list: seq<Option<Info>>): seq<Cell> {
    if list == [] then [] else (match list[0] case Some(e) => Written(e) case None => []) + WrittenAll(list[1..])
  }

  /** The size counts the null entries, which are then left out. */
  function WrittenList(list: seq<Option<Info>>): seq<Cell> {
    [IntCell(ToInt32(|list|))] + WrittenAll(list)
  }

  /** On the wire: the number of entries, then uid, type and power of each, the account left out. */
  lemma WireFormat(a: Info, b: Info)
    ensures WrittenList([Some(a), None, Some(b)]) ==
            [IntCell(3), IntCell(a.uid), IntCell(a.kind), DoubleCell(a.power),
             IntCell(b.uid), IntCell(b.kind), DoubleCell(b.power)]
  {
    var list := [Some(a), None, Some(b)];
    assert list[1..] == [None, Some(b)] && list[1..][1..] == [Some(b)] && list[1..][1..][1..] == [];
    assert WrittenAll([Some(b)]) == Written(b) + WrittenAll([]);
    assert WrittenAll(list) == Written(a) + ([] + Written(b));
  }

  // ---- Room ----

  /** The bytes a value takes up: four for an Int32, eight for a Double. */
  function Width(c: Cell): nat { if c.IntCell? then 4 else 8 }

  function Bytes(cells: seq<Cell>): nat {
    if cells == [] then 0 else Width(cells[0]) + Bytes(cells[1..])
  }

  /** The values written, one after the other, before the first that no longer fits in the room. */
  function Fit(room: nat, cells: seq<Cell>): (w: seq<Cell>)
    ensures Bytes(w) <= room
    ensures w == cells <==> Bytes(cells) <= room
    decreases |cells|
  {
    if cells == [] || Width(cells[0]) > room then []
    else
      var rest := Fit(room - Width(cells[0]), cells[1..]);
      var w := [cells[0]] + rest;
      assert w[1..] == rest && (w == cells <==> rest == cells[1..]);
      w
  }

  /** What the loop over the entries writes into the given room; an entry that fails stops no other. */
  function FitAll(room: nat, list: seq<Option<Info>>): seq<Cell>
    decreases |list|
  {
    if list == [] then []
    else match list[0]
      case None => FitAll(room, list[1..])
      case Some(e) => var w := Fit(room, Written(e)); w + FitAll(room - Bytes(w), list[1..])
  }

  /** The loop's result, `res` so far: that of the last entry that is not null. */
  function LastFits(room: nat, list: seq<Option<Info>>, res: bool): bool
    decreases |list|
  {
    if list == [] then res
    else match list[0]
      case None => LastFits(room, list[1..], res)
      case Some(e) => var w := Fit(room, Written(e)); LastFits(room - Bytes(w), list[1..], w == Written(e))
  }

  function FitList(room: nat, list: seq<Option<Info>>): seq<Cell> {
    if room < 4 then [] else [IntCell(ToInt32(|list|))] + FitAll(room - 4, list)
  }

  function ListFits(room: nat, list: seq<Option<Info>>): bool {
    room >= 4 && LastFits(room - 4, list, true)
  }

  lemma {:induction false} BytesConcat(a: seq<Cell>, b: seq<Cell>)
    ensures Bytes(a + b) == Bytes(a) + Bytes(b)
  {
    if a == [] {
      assert a + b == b;
    } else {
      BytesConcat(a[1..], b);
      assert (a + b)[1..] == a[1..] + b;
    }
  }

  lemma BytesWritten(e: Info)
    ensures Bytes(Written(e)) == 16
  {
    var w := Written(e);
    assert Bytes(w) == 4 + Bytes(w[1..]) && Bytes(w[1..]) == 4 + Bytes(w[1..][1..]);
    assert w[1..][1..] == [DoubleCell(e.power)];
    assert Bytes([DoubleCell(e.power)]) == 8 + Bytes([DoubleCell(e.power)][1..]);
  }

  /** Once an entry has failed every later one fails too. */
  lemma {:induction false} NoneFitsAfter(room: nat, list: seq<Option<Info>>)
    requires room < 16
    ensures !LastFits(room, list, false)
    decreases |list|
  {
    if list != [] {
      match list[0]
      case None => NoneFitsAfter(room, list[1..]);
      case Some(e) =>
        BytesWritten(e);
        NoneFitsAfter(room - Bytes(Fit(room, Written(e))), list[1..]);
    }
  }

  /** The result of the last entry is true exactly when all entries were written in full. */
  lemma {:induction false} LastTellsAll(room: nat, list: seq<Option<Info>>)
    ensures LastFits(room, list, true) <==> Bytes(WrittenAll(list)) <= room
    ensures LastFits(room, list, true) ==> FitAll(room, list) == WrittenAll(list)
    decreases |list|
  {
    if list != [] {
      var rest := WrittenAll(list[1..]);
      match list[0]
      case None =>
        LastTellsAll(room, list[1..]);
        assert WrittenAll(list) == rest;
      case Some(e) =>
        BytesWritten(e);
        BytesConcat(Written(e), rest);
        if room >= 16 {
          LastTellsAll(room - 16, list[1..]);
        } else {
          NoneFitsAfter(room - Bytes(Fit(room, Written(e))), list[1..]);
        }
    }
  }

  /** Marshalling a list answers true exactly when all of it fits, and then all of it is written. */
  lemma {:induction false} ListFitsIff(room: nat, list: seq<Option<Info>>)
    ensures ListFits(room, list) <==> Bytes(WrittenList(list)) <= room
    ensures ListFits(room, list) ==> FitList(room, list) == WrittenList(list)
  {
    assert WrittenList(list)[1..] == WrittenAll(list);
    if room >= 4 { LastTellsAll(room - 4, list); }
  }

  // ---- Reading ----

  datatype OneRead = OneRead(ok: bool, info: Info, at: nat)

  function HasInt(data: seq<Cell>, at: nat): bool { at < |data| && data[at].IntCell? }

  function HasDouble(data: seq<Cell>, at: nat): bool { at < |data| && data[at].DoubleCell? }

  /** ReadFromParcel into a new entry; on failure the fields read so far stay set. */
  function ReadInfo(data: seq<Cell>, at: nat): OneRead {
    if !HasInt(data, at) then OneRead(false, NEW_INFO, at)
    else
      var withUid := NEW_INFO.(uid := data[at].n);
      if !HasInt(data, at + 1) then OneRead(false, withUid, at + 1)
      else
        var withKind := withUid.(kind := data[at + 1].n);
        if !HasDouble(data, at + 2) then OneRead(false, withKind, at + 2)
        else OneRead(true, withKind.(power := data[at + 2].x), at + 3)
  }

  datatype AllRead = AllRead(list: seq<Info>, at: nat)

  /** n entries one after the other; an entry that cannot be read is appended all the same. */
  function ReadInfos(data: seq<Cell>, at: nat, n: nat): AllRead
    decreases n
  {
    if n == 0 then AllRead([], at)
    else
      var one := ReadInfo(data, at);
      var rest := ReadInfos(data, one.at, n - 1);
      AllRead([one.info] + rest.list, rest.at)
  }

  /** A missing size reads as 0. */
  function SizeAt(data: seq<Cell>, at: nat): int {
    if HasInt(data, at) then data[at].n else 0
  }

  function AfterSize(data: seq<Cell>, at: nat): nat {
    if HasInt(data, at) then at + 1 else at
  }

  datatype ListRead = Refused | Unmarshalled(list: seq<Info>, at: nat)

  function ReadList(data: seq<Cell>, at: nat): ListRead {
    var size := SizeAt(data, at);
    if size < 0 || size > PARAM_MAX_NUM then Refused
    else var all := ReadInfos(data, AfterSize(data, at), size); Unmarshalled(all.list, all.at)
  }

  // ---- Round trips ----

  function Nulls(list: seq<Option<Info>>): nat {
    if list == [] then 0 else (if list[0].None? then 1 else 0) + Nulls(list[1..])
  }

  /** The entries that are not null, as the other end sees them: the account is not sent. */
  function Sent(list: seq<Option<Info>>): seq<Info> {
    if list == [] then []
    else (match list[0] case Some(e) => [e.(userId := INVALID_VALUE)] case None => []) + Sent(list[1..])
  }

  /** Cells before and after the ones being read do not matter. */
  lemma ReadWritten(before: seq<Cell>, e: Info, after: seq<Cell>)
    ensures ReadInfo(before + (Written(e) + after), |before|) ==
        OneRead(true, e.(userId := INVALID_VALUE), |before| + 3)
  {
    var data := before + (Written(e) + after);
    assert data[|before|] == IntCell(e.uid) && data[|before| + 1] == IntCell(e.kind);
    assert data[|before| + 2] == DoubleCell(e.power);
  }

  lemma {:induction false} ReadSent(before: seq<Cell>, list: seq<Option<Info>>, after: seq<Cell>, m: nat)
    requires m <= |Sent(list)|
    ensures ReadInfos(before + (WrittenAll(list) + after), |before|, m) == AllRead(Sent(list)[..m], |before| + 3 * m)
    decreases |list|
  {
    if m > 0 {
      var rest := WrittenAll(list[1..]);
      match list[0]
      case None =>
        ReadSent(before, list[1..], after, m);
        assert WrittenAll(list) == rest && Sent(list) == Sent(list[1..]);
      case Some(e) =>
        var sent := [e.(userId := INVALID_VALUE)];
        ReadWritten(before, e, rest + after);
        ReadSent(before + Written(e), list[1..], after, m - 1);
        Regroup(before, Written(e), rest, after);
        assert (sent + Sent(list[1..]))[..m] == sent + Sent(list[1..])[..m - 1];
    }
  }

  lemma Regroup(a: seq<Cell>, b: seq<Cell>, c: seq<Cell>, d: seq<Cell>)
    ensures a + (b + c + d) == a + (b + (c + d)) && a + b + (c + d) == a + (b + c + d)
  {}

  lemma {:induction false} ReadSplit(data: seq<Cell>, at: nat, m: nat, k: nat)
    ensures var first := ReadInfos(data, at, m);
            var second := ReadInfos(data, first.at, k);
            ReadInfos(data, at, m + k) == AllRead(first.list + second.list, second.at)
    decreases m
  {
    if m > 0 {
      ReadSplit(data, ReadInfo(data, at).at, m - 1, k);
    }
  }

  lemma {:induction false} SentOrNull(list: seq<Option<Info>>)
    ensures |Sent(list)| + Nulls(list) == |list|
  {
    if list != [] { SentOrNull(list[1..]); }
  }

  lemma {:induction false} WrittenSize(list: seq<Option<Info>>)
    ensures |WrittenAll(list)| == 3 * |Sent(list)|
  {
    if list != [] { WrittenSize(list[1..]); }
  }

  function Min(a: nat, b: nat): nat { if a < b then a else b }

  lemma BodyRead(before: seq<Cell>, list: seq<Option<Info>>, after: seq<Cell>, size: nat)
    ensures var data, m := before + (WrittenList(list) + after), Min(size, |Sent(list)|);
            var more := ReadInfos(data, |before| + 1 + 3 * m, size - m);
            ReadInfos(data, |before| + 1, size) == AllRead(Sent(list)[..m] + more.list, more.at)
  {
    var first := [IntCell(ToInt32(|list|))];
    var data, m := before + (WrittenList(list) + after), Min(size, |Sent(list)|);
    assert data == (before + first) + (WrittenAll(list) + after);
    ReadSent(before + first, list, after, m);
    ReadSplit(data, |before| + 1, m, size - m);
  }

  /**
   * Wherever a list stands in a parcel, and however long it is: it is refused exactly when its
   * 32-bit size is not in 0..2000; otherwise that many entries are read, first the non-null ones in
   * order without their accounts, then whatever the parcel holds next.
   */
  lemma {:induction false} ListRoundTrip(before: seq<Cell>, list: seq<Option<Info>>, after: seq<Cell>)
    ensures var data, size := before + (WrittenList(list) + after), ToInt32(|list|);
            if size < 0 || size > PARAM_MAX_NUM then ReadList(data, |before|) == Refused
            else
              var m := Min(size, |Sent(list)|);
              var more := ReadInfos(data, |before| + 1 + 3 * m, size - m);
              ReadList(data, |before|) == Unmarshalled(Sent(list)[..m] + more.list, more.at)
  {
    var data, size := before + (WrittenList(list) + after), ToInt32(|list|);
    assert data[|before|] == IntCell(size);
    if 0 <= size <= PARAM_MAX_NUM { BodyRead(before, list, after, size); }
  }

  /** Of the lists whose size does not wrap, those of more than 2000 entries are refused. */
  lemma LongListRefused(before: seq<Cell>, list: seq<Option<Info>>, after: seq<Cell>)
    requires |list| <= 0x7fff_ffff
    ensures ReadList(before + (WrittenList(list) + after), |before|) == Refused <==> |list| > PARAM_MAX_NUM
  {
    ListRoundTrip(before, list, after);
  }

  /** A short list: its non-null entries, then as many entries as it had nulls, made of what follows. */
  lemma {:induction false} ShortListRead(before: seq<Cell>, list: seq<Option<Info>>, after: seq<Cell>)
    requires |list| <= PARAM_MAX_NUM
    ensures var data, end := before + (WrittenList(list) + after), |before| + |WrittenList(list)|;
            var more := ReadInfos(data, end, Nulls(list));
            ReadList(data, |before|) == Unmarshalled(Sent(list) + more.list, more.at)
  {
    ListRoundTrip(before, list, after);
    SentOrNull(list);
    WrittenSize(list);
    assert Sent(list)[..|Sent(list)|] == Sent(list);
  }

  /** A list without nulls comes back whole, and exactly what was written is consumed. */
  lemma {:induction false} WholeRoundTrip(before: seq<Cell>, list: seq<Option<Info>>, after: seq<Cell>)
    requires |list| <= PARAM_MAX_NUM && Nulls(list) == 0
    ensures ReadList(before + (WrittenList(list) + after), |before|) ==
            Unmarshalled(Sent(list), |before| + |WrittenList(list)|)
    ensures |Sent(list)| == |list|
    ensures forall i :: 0 <= i < |list| ==> list[i].Some? && Sent(list)[i] == list[i].value.(userId := INVALID_VALUE)
  {
    ShortListRead(before, list, after);
    assert Sent(list) + [] == Sent(list);
    SentWhole(list);
  }

  lemma {:induction false} SentWhole(list: seq<Option<Info>>)
    requires Nulls(list) == 0
    ensures |Sent(list)| == |list|
    ensures forall i :: 0 <= i < |list| ==> list[i].Some? && Sent(list)[i] == list[i].value.(userId := INVALID_VALUE)
  {
    if list != [] {
      SentWhole(list[1..]);
      assert forall i :: 0 < i < |list| ==> list[i] == list[1..][i - 1];
    }
  }

  /** With nulls and nothing behind it, a list comes back with its nulls turned into default entries at the end. */
  lemma {:induction false} NullsBecomeDefaults(before: seq<Cell>, list: seq<Option<Info>>)
    requires |list| <= PARAM_MAX_NUM
    ensures ReadList(before + WrittenList(list), |before|) ==
            Unmarshalled(Sent(list) + seq(Nulls(list), _ => NEW_INFO), |before| + |WrittenList(list)|)
  {
    var data := before + WrittenList(list);
    ShortListRead(before, list, []);
    assert WrittenList(list) + [] == WrittenList(list);
    ReadPastEnd(data, Nulls(list));
  }

  lemma {:induction false} ReadPastEnd(data: seq<Cell>, n: nat)
    ensures ReadInfos(data, |data|, n) == AllRead(seq(n, _ => NEW_INFO), |data|)
  {
    if n > 0 {
      ReadPastEnd(data, n - 1);
      assert [NEW_INFO] + seq(n - 1, _ => NEW_INFO) == seq(n, _ => NEW_INFO);
    }
  }

  // ---- Steps of the writing loops ----

  lemma FitThree(room: nat, a: Cell, b: Cell, c: Cell)
    ensures var w := Fit(room, [a, b, c]);
            if Width(a) > room then w == [] && Bytes(w) == 0
            else if Width(a) + Width(b) > room then w == [a] && Bytes(w) == Width(a)
            else if Width(a) + Width(b) + Width(c) > room then w == [a, b] && Bytes(w) == Width(a) + Width(b)
            else w == [a, b, c] && Bytes(w) == Width(a) + Width(b) + Width(c)
  {
    FitStep(room, a, [b, c]);
    assert [a] + [b, c] == [a, b, c];
    if Width(a) <= room {
      FitStep(room - Width(a), b, [c]);
      assert [b] + [c] == [b, c];
      if Width(a) + Width(b) <= room { FitStep(room - Width(a) - Width(b), c, []); }
    }
  }

  lemma FitStep(room: nat, c: Cell, rest: seq<Cell>)
    ensures Fit(room, [c] + rest) == if Width(c) > room then [] else [c] + Fit(room - Width(c), rest)
    ensures Bytes(Fit(room, [c] + rest)) ==
            if Width(c) > room then 0 else Width(c) + Bytes(Fit(room - Width(c), rest))
  {
    assert ([c] + rest)[1..] == rest;
    assert Width(c) <= room ==> ([c] + Fit(room - Width(c), rest))[1..] == Fit(room - Width(c), rest);
  }

  /** The first i entries have left this room, result and `done`; the rest completes what the list writes. */
  ghost predicate WrittenSoFar(
    room: nat, list: seq<Option<Info>>, now: nat, i: nat, res: bool, done: seq<Cell>)
    requires i <= |list|
  {
    && done + FitAll(now, list[i..]) == FitAll(room, list)
    && LastFits(now, list[i..], res) == LastFits(room, list, true)
  }

  lemma NextEntry(room: nat, list: seq<Option<Info>>, now: nat, i: nat, res: bool, done: seq<Cell>)
    requires i < |list| && WrittenSoFar(room, list, now, i, res, done)
    ensures match list[i]
            case None => WrittenSoFar(room, list, now, i + 1, res, done + [])
            case Some(e) =>
              var w := Fit(now, Written(e));
              WrittenSoFar(room, list, now - Bytes(w), i + 1, w == Written(e), done + w)
  {
    assert list[i..][0] == list[i] && list[i..][1..] == list[i + 1..];
    assert done + [] == done;
    if list[i].Some? {
      var w := Fit(now, Written(list[i].value));
      var more := FitAll(now - Bytes(w), list[i + 1..]);
      assert done + (w + more) == done + w + more;
    }
  }

  lemma NothingWritten(room: nat, list: seq<Option<Info>>, start: seq<Cell>)
    ensures WrittenSoFar(room, list, room, 0, true, []) && start + [] == start
  {
    assert list[0..] == list;
  }

  lemma Longer(start: seq<Cell>, done: seq<Cell>, w: seq<Cell>)
    ensures start + done + w == start + (done + w)
  {}

  lemma AllEntries(room: nat, list: seq<Option<Info>>, now: nat, res: bool, done: seq<Cell>)
    requires WrittenSoFar(room, list, now, |list|, res, done)
    ensures done == FitAll(room, list) && res == LastFits(room, list, true)
  {
    assert list[|list|..] == [] && done + [] == done;
  }
}

module ParcelObjects {
  import opened StatsTypes
  import opened Numbers
  import opened ParcelFormat

  /** The parcel's write end and read cursor; it takes values until its capacity in bytes is reached. */
  class Parcel {
    const capacity: nat
    var data: seq<Cell>
    var cursor: nat

    ghost predicate Valid()
      reads this`data
    {
      Bytes(data) <= capacity
    }

    ghost function Room(): nat
      requires Valid()
      reads this`data
    {
      capacity - Bytes(data)
    }

    constructor (capacity: nat)
      ensures Valid() && this.capacity == capacity && data == [] && cursor == 0
    {
      this.capacity := capacity;
      data, cursor := [], 0;
    }

    /** A value that does not fit is not written. */
    method Write(c: Cell) returns (ok: bool)
      requires Valid()
      modifies this`data
      ensures Valid() && ok == (Width(c) <= old(Room()))
      ensures data == if ok then old(data) + [c] else old(data)
      ensures Room() == if ok then old(Room()) - Width(c) else old(Room())
    {
      BytesConcat(data, [c]);
      assert Bytes([c]) == Width(c) + Bytes([c][1..]);
      ok := Bytes(data) + Width(c) <= capacity;
      if ok {
        data := data + [c];
      }
    }

    /** A failed read leaves the caller's variable, here `before`, as it was. */
    method ReadInt32(before: int) returns (ok: bool, n: int)
      modifies this`cursor
      ensures ok == HasInt(data, old(cursor))
      ensures cursor == (if ok then old(cursor) + 1 else old(cursor)) && n == if ok then data[old(cursor)].n else before
    {
      ok, n := false, before;
      if cursor < |data| && data[cursor].IntCell? {
        ok, n := true, data[cursor].n;
        cursor := cursor + 1;
      }
    }

    method ReadDouble(before: real) returns (ok: bool, x: real)
      modifies this`cursor
      ensures ok == HasDouble(data, old(cursor))
      ensures cursor == (if ok then old(cursor) + 1 else old(cursor)) && x == if ok then data[old(cursor)].x else before
    {
      ok, x := false, before;
      if cursor < |data| && data[cursor].DoubleCell? {
        ok, x := true, data[cursor].x;
        cursor := cursor + 1;
      }
    }
  }

  // ---- BatteryStatsInfo ----

  /** Stops at the first value that cannot be written. */
  method Marshalling(info: Info, parcel: Parcel) returns (ok: bool)
    requires parcel.Valid()
    modifies parcel`data
    ensures parcel.Valid() && parcel.data == old(parcel.data) + Fit(old(parcel.Room()), Written(info))
    ensures parcel.Room() == old(parcel.Room()) - Bytes(Fit(old(parcel.Room()), Written(info)))
    ensures ok == (Fit(old(parcel.Room()), Written(info)) == Written(info))
  {
    FitThree(parcel.Room(), IntCell(info.uid), IntCell(info.kind), DoubleCell(info.power));
    ok := parcel.Write(IntCell(info.uid));
    if !ok {
      return;
    }
    ok := parcel.Write(IntCell(info.kind));
    if !ok {
      return;
    }
    ok := parcel.Write(DoubleCell(info.power));
  }

  /** ReadFromParcel on a new entry. */
  method ReadFromParcel(parcel: Parcel) returns (ok: bool, info: Info)
    modifies parcel`cursor
    ensures OneRead(ok, info, parcel.cursor) == ReadInfo(parcel.data, old(parcel.cursor))
  {
    info := NEW_INFO;
    var uid, kind, power;
    ok, uid := parcel.ReadInt32(info.uid);
    info := info.(uid := uid);
    if !ok {
      return;
    }
    ok, kind := parcel.ReadInt32(info.kind);
    info := info.(kind := kind);
    if !ok {
      return;
    }
    ok, power := parcel.ReadDouble(info.power);
    info := info.(power := power);
  }

  // ---- ParcelableBatteryStatsList ----

  /** One entry of a list: a null is skipped and leaves the result so far. */
  method MarshallingEntry(entry: Option<Info>, parcel: Parcel, res: bool) returns (ok: bool, ghost w: seq<Cell>)
    requires parcel.Valid()
    modifies parcel`data
    ensures parcel.Valid() && parcel.data == old(parcel.data) + w
    ensures parcel.Room() == old(parcel.Room()) - Bytes(w)
    ensures match entry
            case None => w == [] && ok == res
            case Some(info) => w == Fit(old(parcel.Room()), Written(info)) && ok == (w == Written(info))
  {
    match entry
    case None => {
      assert parcel.data + [] == parcel.data;
      ok, w := res, [];
    }
    case Some(info) => {
      w := Fit(parcel.Room(), Written(info));
      ok := Marshalling(info, parcel);
    }
  }

  /** The loop over the entries: each result overwrites the one before. */
  method MarshallingEntries(statsList: seq<Option<Info>>, parcel: Parcel) returns (res: bool)
    requires parcel.Valid()
    modifies parcel`data
    ensures parcel.Valid() && parcel.data == old(parcel.data) + FitAll(old(parcel.Room()), statsList)
    ensures res == LastFits(old(parcel.Room()), statsList, true)
  {
    res := true;
    ghost var start, room, done, w := parcel.data, parcel.Room(), [], [];
    NothingWritten(room, statsList, start);
    for i := 0 to |statsList|
      invariant parcel.Valid() && parcel.data == start + done
      invariant WrittenSoFar(room, statsList, parcel.Room(), i, res, done)
    {
      NextEntry(room, statsList, parcel.Room(), i, res, done);
      res, w := MarshallingEntry(statsList[i], parcel, res);
      Longer(start, done, w);
      done := done + w;
    }
    AllEntries(room, statsList, parcel.Room(), res, done);
  }

  /** True exactly when the whole list was written: see ParcelFormat.ListFitsIff. */
  method MarshallingList(statsList: seq<Option<Info>>, parcel: Parcel) returns (ok: bool)
    requires parcel.Valid()
    modifies parcel`data
    ensures parcel.Valid() && parcel.data == old(parcel.data) + FitList(old(parcel.Room()), statsList)
    ensures ok == (Bytes(WrittenList(statsList)) <= old(parcel.Room()))
    ensures ok ==> parcel.data == old(parcel.data) + WrittenList(statsList)
  {
    ListFitsIff(parcel.Room(), statsList);
    ghost var size := [IntCell(ToInt32(|statsList|))];
    Longer(parcel.data, size, FitAll(if parcel.Room() < 4 then 0 else parcel.Room() - 4, statsList));
    ok := parcel.Write(IntCell(ToInt32(|statsList|)));
    if !ok {
      return;
    }
    ok := MarshallingEntries(statsList, parcel);
  }

  /** None for a list that is refused; the parcel stays where the size ended. */
  method UnmarshallingList(parcel: Parcel) returns (statsList: Option<seq<Info>>)
    modifies parcel`cursor
    ensures match ReadList(parcel.data, old(parcel.cursor))
            case Refused => statsList == None && parcel.cursor == AfterSize(parcel.data, old(parcel.cursor))
            case Unmarshalled(list, at) => statsList == Some(list) && parcel.cursor == at
  {
    var _, size := parcel.ReadInt32(0);
    if size < 0 || size > PARAM_MAX_NUM {
      return None;
    }
    var list: seq<Info> := [];
    ghost var all := ReadInfos(parcel.data, parcel.cursor, size);
    for i := 0 to size
      invariant AllRead(list + ReadInfos(parcel.data, parcel.cursor, size - i).list,
                        ReadInfos(parcel.data, parcel.cursor, size - i).at) == all
    {
      ghost var rest := ReadInfos(parcel.data, parcel.cursor, size - i);
      var _, info := ReadFromParcel(parcel);
      assert rest.list == [info] + ReadInfos(parcel.data, parcel.cursor, size - i - 1).list;
      assert list + ([info] + ReadInfos(parcel.data, parcel.cursor, size - i - 1).list)
          == list + [info] + ReadInfos(parcel.data, parcel.cursor, size - i - 1).list;
      list := list + [info];
    }
    assert list + [] == list;
    statsList := Some(list);
  }
}
