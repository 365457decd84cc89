/** Lines of numbers given to the reader object: what its maps hold afterwards, said of the numbers. */
module CpuReplay {
  import opened StatsTypes
  import opened Numbers
  import opened Tokeniser
  import opened CpuLedger
  import opened CpuLines
  import opened CpuText
  import opened CpuTimeReaderObject

  /** A reading against the last one: refused when it is positive and lower, else charged on battery. */
  lemma ReadingOf(s: Active, r: Reading)
    ensures Rejected(s, r) == (r.timeMs > 0 && r.uid in s.last && r.timeMs < s.last[r.uid])
    ensures var now, ok := ReadActive(s, r), !Rejected(s, r);
            && now.last == (if ok && r.timeMs > 0 then s.last[r.uid := r.timeMs] else s.last)
            && now.acc == if ok && r.onBattery then s.acc[r.uid := Gained(s, r)] else s.acc
  {}

  function Gained(s: Active, r: Reading): int {
    (if r.uid in s.acc then s.acc[r.uid] else 0)
    + if r.timeMs > 0 then r.timeMs - (if r.uid in s.last then s.last[r.uid] else 0) else 0
  }

  /** The object reads a line as the reading it stands for. */
  method ReadLineOf(reader: CpuTimeReader, line: string, ghost r: Reading) returns (ok: bool)
    requires reader.Valid() && ActiveLineFits(line) && ActiveReading(line, reader.core.helper.onBattery) == Some(r)
    modifies reader`activeTimeMap, reader`lastActiveTimeMap, reader.core`uidPowerMap
    ensures reader.Valid() && (r.uid >= 0 ==> r.uid in reader.core.uidPowerMap)
    ensures reader.ActiveTimes() == ReadActive(old(reader.ActiveTimes()), r)
    ensures ok == !Rejected(old(reader.ActiveTimes()), r)
  {
    ok := reader.ReadActiveLine(line);
    assert [r][0] == r && r in [r];
  }

  /** A uid's line of active time: ten milliseconds for each unit of its numbers' sum. */
  method ReadActiveText(reader: CpuTimeReader, uid: int, ns: seq<int>, times: string) returns (ok: bool)
    requires reader.Valid() && IsInt32(uid) && AllInt64(ns) && times != "" && Spells(times, ns)
    modifies reader`activeTimeMap, reader`lastActiveTimeMap, reader.core`uidPowerMap
    ensures reader.Valid() && (uid >= 0 ==> uid in reader.core.uidPowerMap)
    ensures var t, last := 10 * Total(ns), old(reader.lastActiveTimeMap);
            && ok == !(t > 0 && uid in last && t < last[uid])
            && reader.lastActiveTimeMap == if ok && t > 0 then last[uid := t] else last
    ensures var r := Reading(uid, 10 * Total(ns), reader.core.helper.onBattery);
            reader.activeTimeMap ==
            if ok && r.onBattery then old(reader.activeTimeMap)[uid := Gained(old(reader.ActiveTimes()), r)]
            else old(reader.activeTimeMap)
  {
    ghost var on := reader.core.helper.onBattery;
    ActiveLineByText(uid, ns, times, on);
    ReadingOf(Active(reader.lastActiveTimeMap, reader.activeTimeMap), Reading(uid, 10 * Total(ns), on));
    ok := ReadLineOf(reader, LineText(uid, times), Reading(uid, 10 * Total(ns), on));
  }

  /** The header line changes nothing. */
  method ReadHeader(reader: CpuTimeReader, rest: string) returns (ok: bool)
    requires reader.Valid()
    modifies reader`activeTimeMap, reader`lastActiveTimeMap, reader.core`uidPowerMap
    ensures ok && reader.lastActiveTimeMap == old(reader.lastActiveTimeMap)
    ensures reader.activeTimeMap == old(reader.activeTimeMap)
    ensures reader.core.uidPowerMap == old(reader.core.uidPowerMap)
  {
    HeaderByText(rest, reader.core.helper.onBattery);
    ok := reader.ReadActiveLine("cpus:" + rest);
  }

  /** A uid's line of cluster time: each cluster gets ten times its own group's sum. */
  method ReadClusterText(
    reader: CpuTimeReader, clusters: seq<nat>, uid: int, groups: seq<seq<int>>, extra: seq<int>, times: string)
    returns (ok: bool)
    requires reader.Valid() && IsInt32(uid) && Sized(clusters, groups) && AllInt64(Flat(groups))
    requires times != "" && Spells(times, Flat(groups) + extra)
    requires Indexable(reader.ClusterState(), Line(uid, Tenfold(groups), reader.core.helper.onBattery))
    modifies reader`lastClusterTimeMap, reader`clusterTimeMap, reader.core`uidPowerMap
    ensures reader.Valid() && (uid >= 0 ==> uid in reader.core.uidPowerMap)
    ensures var l := Line(uid, Tenfold(groups), reader.core.helper.onBattery);
            && ok == Accepted(old(reader.ClusterState()), l)
            && reader.ClusterState() == ReadLine(old(reader.ClusterState()), l)
  {
    ClusterLineByText(clusters, uid, groups, extra, times, reader.core.helper.onBattery);
    SpellsMeaning(times, Flat(groups) + extra, 'p');
    NoPolicy(uid, times);
    ok := reader.ReadClusterLine(clusters, LineText(uid, times));
  }

  lemma TwoLines(
    s: Clusters, policy: string, line: string, clusters: seq<nat>, l: Line, onBattery: bool)
    requires HasPolicy(policy) && ClusterLineFits([], policy) && LayoutAfter([], policy) == clusters
    requires ClusterLineFits(clusters, line) && ClusterLine(clusters, line, onBattery) == Some(l) && Indexable(s, l)
    ensures ClusterFileFits(s, [], [policy, line], onBattery)
    ensures TakenLines(s, [], [policy, line], onBattery) == [l]
  {
    assert [policy, line][1..] == [line] && [line][1..] == [];
    assert ClusterFileFits(s, clusters, [line], onBattery);
    assert TakenLines(s, clusters, [line], onBattery) == [l];
  }

  method ReadTwoLines(reader: CpuTimeReader, policy: string, line: string, ghost clusters: seq<nat>, ghost l: Line)
    returns (ok: bool)
    requires reader.Valid() && Indexable(reader.ClusterState(), l)
    requires HasPolicy(policy) && ClusterLineFits([], policy) && LayoutAfter([], policy) == clusters
    requires ClusterLineFits(clusters, line) && ClusterLine(clusters, line, reader.core.helper.onBattery) == Some(l)
    modifies reader`lastClusterTimeMap, reader`clusterTimeMap, reader.core`uidPowerMap
    ensures reader.Valid() && ok == Accepted(old(reader.ClusterState()), l)
    ensures reader.ClusterState() == ReadLine(old(reader.ClusterState()), l)
  {
    TwoLines(reader.ClusterState(), policy, line, clusters, l, reader.core.helper.onBattery);
    OneLine(reader.ClusterState(), l, []);
    assert [l] + [] == [l];
    ok := reader.ReadUidCpuClusterTime([policy, line]);
  }

  lemma FirstLine(names: seq<string>, counts: seq<int>, gaps: seq<string>, suffix: string)
    requires |names| == |counts| > 0 && AllTokens(names, ' ') && AllInt64(counts) && names[0] == "policy" + suffix
    requires |gaps| == 2 * |names| + 1 && Gaps(gaps, ' ')
    ensures var policy := Weave(gaps, Pairs(names, counts));
            HasPolicy(policy) && ClusterLineFits([], policy) && LayoutAfter([], policy) == Shorts(counts)
  {
    PolicyLineByText([], names, counts, gaps, suffix);
    assert [] + Shorts(counts) == Shorts(counts);
  }

  /** A file of a policy line and a uid's line: the counts lay out the groups, the groups give the times. */
  method ReadClusterFile(
    reader: CpuTimeReader, names: seq<string>, counts: seq<int>, gaps: seq<string>, suffix: string,
    uid: int, groups: seq<seq<int>>, extra: seq<int>, times: string)
    returns (ok: bool)
    requires |names| == |counts| > 0 && AllTokens(names, ' ') && AllInt64(counts) && names[0] == "policy" + suffix
    requires |gaps| == 2 * |names| + 1 && Gaps(gaps, ' ')
    requires reader.Valid() && IsInt32(uid) && Sized(Shorts(counts), groups) && AllInt64(Flat(groups))
    requires times != "" && Spells(times, Flat(groups) + extra)
    requires Indexable(reader.ClusterState(), Line(uid, Tenfold(groups), reader.core.helper.onBattery))
    modifies reader`lastClusterTimeMap, reader`clusterTimeMap, reader.core`uidPowerMap
    ensures reader.Valid()
    ensures var l := Line(uid, Tenfold(groups), reader.core.helper.onBattery);
            && ok == Accepted(old(reader.ClusterState()), l)
            && reader.ClusterState() == ReadLine(old(reader.ClusterState()), l)
  {
    ghost var on := reader.core.helper.onBattery;
    var policy, line := Weave(gaps, Pairs(names, counts)), LineText(uid, times);
    FirstLine(names, counts, gaps, suffix);
    ClusterLineByText(Shorts(counts), uid, groups, extra, times, on);
    ok := ReadTwoLines(reader, policy, line, Shorts(counts), Line(uid, Tenfold(groups), on));
  }
}
