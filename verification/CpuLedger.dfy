/** Absolute kernel counters turned into increments: where every millisecond of a counter ends up. */
module CpuLedger {

  // ---- Active time: one counter per uid ----

  /** lastActiveTimeMap_ and activeTimeMap_. */
  datatype Active = Active(last: map<int, int>, acc: map<int, int>)

  datatype Reading = Reading(uid: int, timeMs: int, onBattery: bool)

  function At(m: map<int, int>, uid: int): int {
    if uid in m then m[uid] else 0
  }

  predicate Rejected(s: Active, r: Reading) {
    r.timeMs > 0 && r.uid in s.last && r.timeMs < s.last[r.uid]
  }

  function Increment(s: Active, r: Reading): int {
    if r.timeMs > 0 then r.timeMs - At(s.last, r.uid) else 0
  }

  function ReadActive(s: Active, r: Reading): Active {
    if Rejected(s, r) then s
    else Active(if r.timeMs > 0 then s.last[r.uid := r.timeMs] else s.last,
                if r.onBattery then s.acc[r.uid := At(s.acc, r.uid) + Increment(s, r)] else s.acc)
  }

  function RunActive(rs: seq<Reading>): Active {
    if rs == [] then Active(map[], map[]) else ReadActive(RunActive(rs[..|rs| - 1]), rs[|rs| - 1])
  }

  /** The highest counter shown for a uid, 0 when none was positive. */
  function Peak(rs: seq<Reading>, uid: int): nat {
    if rs == [] then 0 else
    var before, r := Peak(rs[..|rs| - 1], uid), rs[|rs| - 1];
    if r.uid == uid && r.timeMs > before then r.timeMs else before
  }

  /** By how much the readings taken on battery, or those taken while plugged, raised the peak. */
  function Raised(rs: seq<Reading>, uid: int, onBattery: bool): nat {
    if rs == [] then 0 else
    Raised(rs[..|rs| - 1], uid, onBattery)
    + if rs[|rs| - 1].onBattery == onBattery then Peak(rs, uid) - Peak(rs[..|rs| - 1], uid) else 0
  }

  lemma {:induction false} RaisedIsPeak(rs: seq<Reading>, uid: int)
    ensures Raised(rs, uid, true) + Raised(rs, uid, false) == Peak(rs, uid)
  {
    if rs != [] { RaisedIsPeak(rs[..|rs| - 1], uid); }
  }

  /**
   * Over any sequence of lines: the last reading of a uid is the highest ever shown, the accumulated
   * time is what was gained on battery, and the two differ by exactly what was gained while plugged.
   */
  lemma {:induction false} ActiveLedger(rs: seq<Reading>, uid: int)
    ensures At(RunActive(rs).last, uid) == Peak(rs, uid)
    ensures At(RunActive(rs).acc, uid) == Raised(rs, uid, true)
    ensures At(RunActive(rs).acc, uid) + Raised(rs, uid, false) == At(RunActive(rs).last, uid)
    ensures uid in RunActive(rs).last <==> Peak(rs, uid) > 0
  {
    RaisedIsPeak(rs, uid);
    if rs != [] {
      ActiveLedger(rs[..|rs| - 1], uid);
      ActiveLedger(rs[..|rs| - 1], rs[|rs| - 1].uid);
    }
  }

  /** A line is refused exactly when it shows a positive counter below the peak; it changes nothing. */
  lemma {:induction false} RejectedIff(rs: seq<Reading>, r: Reading)
    ensures Rejected(RunActive(rs), r) <==> 0 < r.timeMs < Peak(rs, r.uid)
    ensures Rejected(RunActive(rs), r) ==> RunActive(rs + [r]) == RunActive(rs)
  {
    ActiveLedger(rs, r.uid);
    assert (rs + [r])[..|rs|] == rs;
  }

  lemma {:induction false} NothingRaised(rs: seq<Reading>, uid: int, onBattery: bool)
    requires forall i :: 0 <= i < |rs| ==> rs[i].onBattery != onBattery
    ensures Raised(rs, uid, onBattery) == 0
  {
    if rs != [] { NothingRaised(rs[..|rs| - 1], uid, onBattery); }
  }

  /** A device that is never plugged accumulates the counter itself. */
  lemma {:induction false} AlwaysOnBattery(rs: seq<Reading>, uid: int)
    requires forall i :: 0 <= i < |rs| ==> rs[i].onBattery
    ensures At(RunActive(rs).acc, uid) == At(RunActive(rs).last, uid) == Peak(rs, uid)
  {
    ActiveLedger(rs, uid);
    NothingRaised(rs, uid, false);
  }

  // ---- Readings one after another ----

  function ReadActives(s: Active, rs: seq<Reading>): Active
    decreases |rs|
  {
    if rs == [] then s else ReadActives(ReadActive(s, rs[0]), rs[1..])
  }

  predicate NoneRejected(s: Active, rs: seq<Reading>)
    decreases |rs|
  {
    rs == [] || (!Rejected(s, rs[0]) && NoneRejected(ReadActive(s, rs[0]), rs[1..]))
  }

  /** The readings of one more file continue the run, so the ledger holds over any sequence of files. */
  lemma {:induction false} ReadActivesContinue(rs: seq<Reading>, more: seq<Reading>)
    ensures ReadActives(RunActive(rs), more) == RunActive(rs + more)
    decreases |more|
  {
    if more == [] {
      assert rs + more == rs;
    } else {
      var longer := rs + [more[0]];
      assert longer[..|rs|] == rs;
      ReadActivesContinue(longer, more[1..]);
      assert longer + more[1..] == rs + more;
    }
  }

  // ---- Cluster time: one counter per uid and cluster ----

  /** lastClusterTimeMap_ and clusterTimeMap_. */
  datatype Clusters = Clusters(last: map<int, seq<int>>, acc: map<int, seq<int>>)

  datatype Line = Line(uid: int, times: seq<int>, onBattery: bool)

  /** The number of leading clusters, from the k-th on, whose counter did not go backwards. */
  function Climbed(last: seq<int>, times: seq<int>, k: nat): (c: nat)
    requires k <= |last| && k <= |times|
    ensures k <= c <= |last| && c <= |times|
    ensures forall i :: k <= i < c ==> times[i] >= last[i]
    ensures c < |last| && c < |times| ==> times[c] < last[c]
    decreases |last| - k
  {
    if k == |last| || k == |times| || times[k] < last[k] then k else Climbed(last, times, k + 1)
  }

  lemma {:induction false} ClimbedIs(last: seq<int>, times: seq<int>, k: nat, c: nat)
    requires k <= c <= |last| && c <= |times|
    requires forall i :: k <= i < c ==> times[i] >= last[i]
    requires c == |last| || c == |times| || times[c] < last[c]
    ensures Climbed(last, times, k) == c
    decreases c - k
  {
    if k < c { ClimbedIs(last, times, k + 1, c); }
  }

  predicate Accepted(s: Clusters, l: Line) {
    l.uid in s.last ==> Climbed(s.last[l.uid], l.times, 0) == |l.times|
  }

  /** b added to the front of a. */
  function Added(a: seq<int>, b: seq<int>): seq<int> {
    seq(|a|, i requires 0 <= i < |a| => a[i] + if i < |b| then b[i] else 0)
  }

  function Difference(a: seq<int>, b: seq<int>): seq<int>
    requires |a| <= |b|
  {
    seq(|a|, i requires 0 <= i < |a| => a[i] - b[i])
  }

  /** The vector of last readings after a line; a refused line has still advanced its leading clusters. */
  function LastAfter(s: Clusters, l: Line): seq<int> {
    if l.uid !in s.last then l.times
    else var k := Climbed(s.last[l.uid], l.times, 0); l.times[..k] + s.last[l.uid][k..]
  }

  function Increments(s: Clusters, l: Line): seq<int>
    requires Accepted(s, l)
  {
    if l.uid !in s.last then l.times else Difference(l.times, s.last[l.uid])
  }

  function ReadLine(s: Clusters, l: Line): Clusters {
    Clusters(s.last[l.uid := LastAfter(s, l)],
             if !Accepted(s, l) || !l.onBattery then s.acc
             else s.acc[l.uid := if l.uid in s.acc then Added(s.acc[l.uid], Increments(s, l)) else Increments(s, l)])
  }

  /**
   * The source stays within its vectors: the comparison ends at a counter that went backwards or at
   * the end of the line, not past the stored vector, and an accepted line is added to a vector of at
   * least its own length.
   */
  ghost predicate Indexable(s: Clusters, l: Line) {
    && (l.uid in s.last ==>
          var k := Climbed(s.last[l.uid], l.times, 0); k == |l.times| || k < |s.last[l.uid]|)
    && (Accepted(s, l) && l.onBattery && l.uid in s.acc ==> |l.times| <= |s.acc[l.uid]|)
  }

  function RunClusters(ls: seq<Line>): Clusters {
    if ls == [] then Clusters(map[], map[])
    else ReadLine(RunClusters(ls[..|ls| - 1]), ls[|ls| - 1])
  }

  /** Each line, as it comes, keeps the source within its vectors. */
  ghost predicate Readable(ls: seq<Line>) {
    ls == [] || (Readable(ls[..|ls| - 1]) && Indexable(RunClusters(ls[..|ls| - 1]), ls[|ls| - 1]))
  }

  // ---- A fixed layout ----

  /** Every stored vector has one entry per cluster. */
  ghost predicate Shaped(s: Clusters, n: nat) {
    && (forall u :: u in s.last ==> |s.last[u]| == n)
    && (forall u :: u in s.acc ==> |s.acc[u]| == n)
  }

  ghost predicate Layout(ls: seq<Line>, n: nat) { forall i :: 0 <= i < |ls| ==> |ls[i].times| == n }

  lemma ReadLineShaped(s: Clusters, l: Line, n: nat)
    requires Shaped(s, n) && |l.times| == n
    ensures Indexable(s, l) && Shaped(ReadLine(s, l), n)
  {}

  /** With a fixed layout the vectors always match it, and no line is ever out of their range. */
  lemma {:induction false} FixedLayout(ls: seq<Line>, n: nat)
    requires Layout(ls, n)
    ensures Readable(ls) && Shaped(RunClusters(ls), n)
  {
    if ls != [] {
      FixedLayout(ls[..|ls| - 1], n);
      ReadLineShaped(RunClusters(ls[..|ls| - 1]), ls[|ls| - 1], n);
    }
  }

  // ---- The ledger ----

  ghost function Cell(m: map<int, seq<int>>, uid: int, i: nat): int {
    if uid in m && i < |m[uid]| then m[uid][i] else 0
  }

  /** What a line does with the time by which it moves the last readings. */
  datatype Fate = Charged | Skipped | Lost

  function FateOf(s: Clusters, l: Line): Fate {
    if !Accepted(s, l) then Lost else if l.onBattery then Charged else Skipped
  }

  /** By how much a line moves the last reading of a uid and cluster. */
  ghost function Move(s: Clusters, l: Line, uid: int, i: nat): int {
    Cell(ReadLine(s, l).last, uid, i) - Cell(s.last, uid, i)
  }

  /** By how much the lines of one fate moved it. */
  ghost function Moved(ls: seq<Line>, uid: int, i: nat, fate: Fate): int {
    if ls == [] then 0 else
    var before, l := RunClusters(ls[..|ls| - 1]), ls[|ls| - 1];
    Moved(ls[..|ls| - 1], uid, i, fate) + if FateOf(before, l) == fate then Move(before, l, uid, i) else 0
  }

  lemma LineMoves(s: Clusters, l: Line, uid: int, i: nat)
    requires Indexable(s, l)
    ensures Cell(ReadLine(s, l).acc, uid, i) - Cell(s.acc, uid, i) ==
            if FateOf(s, l) == Charged then Move(s, l, uid, i) else 0
  {}

  /**
   * Over any sequence of lines, for every uid and cluster: the accumulated time is what accepted
   * lines moved on battery, and together with what was skipped while plugged and what refused lines
   * lost it is the last reading.
   */
  lemma {:induction false} ClusterLedger(ls: seq<Line>, uid: int, i: nat)
    requires Readable(ls)
    ensures var s := RunClusters(ls);
            && Cell(s.acc, uid, i) == Moved(ls, uid, i, Charged)
            && Cell(s.acc, uid, i) + Moved(ls, uid, i, Skipped) + Moved(ls, uid, i, Lost) == Cell(s.last, uid, i)
  {
    if ls != [] {
      ClusterLedger(ls[..|ls| - 1], uid, i);
      LineMoves(RunClusters(ls[..|ls| - 1]), ls[|ls| - 1], uid, i);
    }
  }

  /**
   * An accepted line becomes the last reading as far as it reaches, and on battery each cluster
   * accumulates the difference; no other uid is touched.
   */
  lemma {:induction false} AcceptedLine(s: Clusters, l: Line, i: nat)
    requires Indexable(s, l) && Accepted(s, l) && i < |l.times|
    ensures var r := ReadLine(s, l);
            && Cell(r.last, l.uid, i) == l.times[i]
            && Cell(r.acc, l.uid, i) ==
               Cell(s.acc, l.uid, i) + (if l.onBattery then l.times[i] - Cell(s.last, l.uid, i) else 0)
            && (forall u :: u != l.uid ==> (u in r.last <==> u in s.last) && (u in r.acc <==> u in s.acc))
            && (forall u, j: nat :: u != l.uid ==> Cell(r.last, u, j) == Cell(s.last, u, j)
                                                   && Cell(r.acc, u, j) == Cell(s.acc, u, j))
  {}

  /** Every line, as it comes, is accepted. */
  predicate EachAccepted(ls: seq<Line>) {
    ls == [] || (EachAccepted(ls[..|ls| - 1]) && Accepted(RunClusters(ls[..|ls| - 1]), ls[|ls| - 1]))
  }

  /** The counter the latest line of a uid shows for a cluster, 0 before any. */
  function Shown(ls: seq<Line>, uid: int, i: nat): int {
    if ls == [] then 0
    else if ls[|ls| - 1].uid == uid && i < |ls[|ls| - 1].times| then ls[|ls| - 1].times[i]
    else Shown(ls[..|ls| - 1], uid, i)
  }

  /** While every line is accepted the last reading is the counter shown last. */
  lemma {:induction false} LastIsShown(ls: seq<Line>, n: nat, uid: int, i: nat)
    requires Layout(ls, n) && EachAccepted(ls) && i < n
    ensures Cell(RunClusters(ls).last, uid, i) == Shown(ls, uid, i)
  {
    if ls != [] {
      var front := ls[..|ls| - 1];
      FixedLayout(front, n);
      LastIsShown(front, n, uid, i);
      ReadLineShaped(RunClusters(front), ls[|ls| - 1], n);
      AcceptedLine(RunClusters(front), ls[|ls| - 1], i);
    }
  }

  // ---- When time is lost ----

  /**
   * A refused line: its first counter that went backwards is at some k; the clusters before k have
   * already taken the new reading, the others keep the old one, and nothing is accumulated.
   */
  lemma RefusedLine(s: Clusters, l: Line)
    requires Indexable(s, l) && !Accepted(s, l)
    ensures var r, was := ReadLine(s, l), s.last[l.uid];
            var k := Climbed(was, l.times, 0);
            && r.acc == s.acc && |r.last[l.uid]| == |was|
            && k < |l.times| && k < |was| && l.times[k] < was[k]
            && (forall i :: 0 <= i < k ==> l.times[i] >= was[i] && r.last[l.uid][i] == l.times[i])
            && (forall i :: k <= i < |was| ==> r.last[l.uid][i] == was[i])
  {}

  /** Read off before the line is: it is accepted, or no cluster climbs before the first that drops. */
  predicate LosesNothing(s: Clusters, l: Line) {
    Accepted(s, l) || var k := Climbed(s.last[l.uid], l.times, 0); l.times[..k] == s.last[l.uid][..k]
  }

  /** A line on battery adds to every accumulated time what it moves exactly when it loses nothing. */
  lemma {:induction false} LineKeepsAllIff(s: Clusters, l: Line)
    requires Indexable(s, l) && l.onBattery
    ensures (forall uid, i: nat :: Cell(ReadLine(s, l).acc, uid, i) - Cell(s.acc, uid, i) == Move(s, l, uid, i))
            <==> LosesNothing(s, l)
  {
    forall uid, i: nat ensures Cell(ReadLine(s, l).acc, uid, i) - Cell(s.acc, uid, i) ==
                               if FateOf(s, l) == Charged then Move(s, l, uid, i) else 0 {
      LineMoves(s, l, uid, i);
    }
    if !Accepted(s, l) { StillIff(s, l); }
  }

  ghost predicate Still(s: Clusters, l: Line) { forall uid, i: nat :: Move(s, l, uid, i) == 0 }

  lemma {:induction false} StillIff(s: Clusters, l: Line)
    requires Indexable(s, l) && !Accepted(s, l)
    ensures Still(s, l) <==> LosesNothing(s, l)
  {
    var was := s.last[l.uid];
    var k := Climbed(was, l.times, 0);
    RefusedLine(s, l);
    if Still(s, l) {
      forall i | 0 <= i < k ensures l.times[i] == was[i] { assert Move(s, l, l.uid, i) == 0; }
    }
    if LosesNothing(s, l) {
      forall uid, i: nat ensures Move(s, l, uid, i) == 0 {
        if uid == l.uid && i < k { assert l.times[..k][i] == was[..k][i]; }
      }
    }
  }

  lemma LostClimbs(s: Clusters, l: Line, uid: int, i: nat)
    requires Indexable(s, l) && !Accepted(s, l)
    ensures Move(s, l, uid, i) >= 0
  {
    RefusedLine(s, l);
  }

  lemma {:induction false} LostGrows(ls: seq<Line>, uid: int, i: nat)
    requires Readable(ls)
    ensures Moved(ls, uid, i, Lost) >= 0
  {
    if ls != [] {
      LostGrows(ls[..|ls| - 1], uid, i);
      var before, l := RunClusters(ls[..|ls| - 1]), ls[|ls| - 1];
      if !Accepted(before, l) { LostClimbs(before, l, uid, i); }
    }
  }

  ghost predicate NothingLost(ls: seq<Line>) { forall uid, i: nat :: Moved(ls, uid, i, Lost) == 0 }

  /** Each line, as it comes, loses nothing. */
  predicate NoLineLoses(ls: seq<Line>) {
    ls == [] || (NoLineLoses(ls[..|ls| - 1]) && LosesNothing(RunClusters(ls[..|ls| - 1]), ls[|ls| - 1]))
  }

  lemma NothingLostFront(ls: seq<Line>)
    requires Readable(ls) && ls != []
    ensures var front, l := ls[..|ls| - 1], ls[|ls| - 1];
            NothingLost(ls) <==> NothingLost(front) && LosesNothing(RunClusters(front), l)
  {
    var front, l := ls[..|ls| - 1], ls[|ls| - 1];
    var before := RunClusters(front);
    if Accepted(before, l) {
      assert forall uid, i: nat :: Moved(ls, uid, i, Lost) == Moved(front, uid, i, Lost);
    } else {
      StillIff(before, l);
      if NothingLost(ls) {
        forall uid, i: nat ensures Moved(front, uid, i, Lost) == 0 && Move(before, l, uid, i) == 0 {
          LostGrows(front, uid, i);
          LostClimbs(before, l, uid, i);
          assert Moved(ls, uid, i, Lost) == 0;
        }
      }
      if NothingLost(front) && Still(before, l) {
        forall uid, i: nat ensures Moved(ls, uid, i, Lost) == 0 {
          assert Moved(front, uid, i, Lost) == 0 && Move(before, l, uid, i) == 0;
        }
      }
    }
  }

  /** Over a whole run no time is lost exactly when each line, as it comes, loses nothing. */
  lemma {:induction false} NothingLostIff(ls: seq<Line>)
    requires Readable(ls)
    ensures NothingLost(ls) <==> NoLineLoses(ls)
  {
    if ls != [] {
      NothingLostIff(ls[..|ls| - 1]);
      NothingLostFront(ls);
    }
  }

  lemma {:induction false} NothingSkipped(ls: seq<Line>, uid: int, i: nat)
    requires forall j :: 0 <= j < |ls| ==> ls[j].onBattery
    ensures Moved(ls, uid, i, Skipped) == 0
  {
    if ls != [] { NothingSkipped(ls[..|ls| - 1], uid, i); }
  }

  /** On battery throughout, the lost time is all that separates the accumulated from the last reading. */
  lemma LostIsGap(ls: seq<Line>, uid: int, i: nat)
    requires Readable(ls) && forall j :: 0 <= j < |ls| ==> ls[j].onBattery
    ensures Cell(RunClusters(ls).acc, uid, i) + Moved(ls, uid, i, Lost) == Cell(RunClusters(ls).last, uid, i)
  {
    ClusterLedger(ls, uid, i);
    NothingSkipped(ls, uid, i);
  }

  ghost predicate Balanced(s: Clusters) { forall uid, i: nat :: Cell(s.acc, uid, i) == Cell(s.last, uid, i) }

  lemma BalancedIff(ls: seq<Line>)
    requires Readable(ls) && forall j :: 0 <= j < |ls| ==> ls[j].onBattery
    ensures Balanced(RunClusters(ls)) <==> NothingLost(ls)
  {
    var s := RunClusters(ls);
    forall uid, i: nat ensures Cell(s.acc, uid, i) + Moved(ls, uid, i, Lost) == Cell(s.last, uid, i) {
      LostIsGap(ls, uid, i);
    }
  }

  /**
   * A device that is never plugged accumulates the counters themselves, for every uid and cluster,
   * exactly when no refused line climbed before it dropped.
   */
  lemma {:induction false} AlwaysOnBatteryIff(ls: seq<Line>)
    requires Readable(ls) && forall j :: 0 <= j < |ls| ==> ls[j].onBattery
    ensures Balanced(RunClusters(ls)) <==> NoLineLoses(ls)
  {
    BalancedIff(ls);
    NothingLostIff(ls);
  }

  /** No line, accepted or refused, lowers a last reading of a known uid. */
  lemma LastClimbs(s: Clusters, l: Line, uid: int, i: nat)
    requires Indexable(s, l) && uid in s.last
    ensures Cell(ReadLine(s, l).last, uid, i) >= Cell(s.last, uid, i)
  {}

  lemma GapIsLoss(ls: seq<Line>, s: Clusters, uid: int, i: nat)
    requires Readable(ls) && s == RunClusters(ls) && forall j :: 0 <= j < |ls| ==> ls[j].onBattery
    ensures Moved(ls, uid, i, Lost) == Cell(s.last, uid, i) - Cell(s.acc, uid, i)
    ensures Cell(s.last, uid, i) != Cell(s.acc, uid, i) ==> !NoLineLoses(ls)
  {
    LostIsGap(ls, uid, i);
    AlwaysOnBatteryIff(ls);
  }

  lemma LossExampleRun(uid: int)
    ensures RunClusters([Line(uid, [0, 50], true), Line(uid, [30, 40], true), Line(uid, [30, 50], true)]) ==
            Clusters(map[uid := [30, 50]], map[uid := [0, 50]])
  {
    var a, b, c := Line(uid, [0, 50], true), Line(uid, [30, 40], true), Line(uid, [30, 50], true);
    assert [a, b, c][..2] == [a, b] && [a, b][..1] == [a] && [a][..0] == [];
    assert RunClusters([a]) == Clusters(map[uid := [0, 50]], map[uid := [0, 50]]);
    ClimbedIs([0, 50], [30, 40], 0, 1);
    assert [30, 40][..1] + [0, 50][1..] == [30, 50];
    assert RunClusters([a, b]) == Clusters(map[uid := [30, 50]], map[uid := [0, 50]]);
    ClimbedIs([30, 50], [30, 50], 0, 2);
    assert [30, 50][..2] + [30, 50][2..] == [30, 50];
    assert Added([0, 50], Difference([30, 50], [30, 50])) == [0, 50];
  }

  /** Time really is lost: a second cluster going backwards costs the first cluster its increment. */
  lemma LossExample(uid: int)
    ensures var ls := [Line(uid, [0, 50], true), Line(uid, [30, 40], true), Line(uid, [30, 50], true)];
            && Readable(ls) && !NoLineLoses(ls)
            && Cell(RunClusters(ls).last, uid, 0) == 30
            && Cell(RunClusters(ls).acc, uid, 0) == 0
            && Moved(ls, uid, 0, Lost) == 30
  {
    var ls := [Line(uid, [0, 50], true), Line(uid, [30, 40], true), Line(uid, [30, 50], true)];
    LossExampleRun(uid);
    FixedLayout(ls, 2);
    GapIsLoss(ls, RunClusters(ls), uid, 0);
  }

  // ---- Lines one after another ----

  function ReadLines(s: Clusters, ls: seq<Line>): Clusters
    decreases |ls|
  {
    if ls == [] then s else ReadLines(ReadLine(s, ls[0]), ls[1..])
  }

  predicate AllAccepted(s: Clusters, ls: seq<Line>)
    decreases |ls|
  {
    ls == [] || (Accepted(s, ls[0]) && AllAccepted(ReadLine(s, ls[0]), ls[1..]))
  }

  ghost predicate AllIndexable(s: Clusters, ls: seq<Line>)
    decreases |ls|
  {
    ls == [] || (Indexable(s, ls[0]) && AllIndexable(ReadLine(s, ls[0]), ls[1..]))
  }

  lemma ReadableAppend(ls: seq<Line>, l: Line)
    requires Readable(ls) && Indexable(RunClusters(ls), l)
    ensures Readable(ls + [l]) && RunClusters(ls + [l]) == ReadLine(RunClusters(ls), l)
  {
    assert (ls + [l])[..|ls|] == ls;
  }

  lemma Regroup(ls: seq<Line>, more: seq<Line>)
    requires more != []
    ensures ls + [more[0]] + more[1..] == ls + more
  {}

  /** The lines of one more file continue the run, so the ledger holds over any sequence of files. */
  lemma {:induction false} ReadLinesContinue(ls: seq<Line>, more: seq<Line>)
    requires Readable(ls) && AllIndexable(RunClusters(ls), more)
    ensures Readable(ls + more) && ReadLines(RunClusters(ls), more) == RunClusters(ls + more)
    decreases |more|
  {
    if more == [] {
      assert ls + more == ls;
    } else {
      ReadableAppend(ls, more[0]);
      ReadLinesContinue(ls + [more[0]], more[1..]);
      Regroup(ls, more);
    }
  }
}
