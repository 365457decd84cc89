/** The reader of the kernel's per-uid cpu times: lines of text in, the two ledgers out. */
module CpuTimeReaderObject {
  import opened StatsTypes
  import opened Numbers
  import opened Tokeniser
  import opened CpuLedger
  import opened CpuLines
  import opened BatteryStatsCoreObject

  class CpuTimeReader {
    const core: BatteryStatsCore
    var activeTimeMap: map<int, int>
    var lastActiveTimeMap: map<int, int>
    var clusterTimeMap: map<int, seq<int>>
    var lastClusterTimeMap: map<int, seq<int>>

    ghost function ActiveTimes(): Active
      reads this`lastActiveTimeMap, this`activeTimeMap
    {
      Active(lastActiveTimeMap, activeTimeMap)
    }

    ghost function ClusterState(): Clusters
      reads this`lastClusterTimeMap, this`clusterTimeMap
    {
      Clusters(lastClusterTimeMap, clusterTimeMap)
    }

    /** Every uid whose counters are kept is known to the service, and so will be billed. */
    ghost predicate Valid()
      reads this, core`timers, core`owned, core`uidPowerMap
    {
      && core.Valid()
      && Registered(core.uidPowerMap, lastActiveTimeMap.Keys + activeTimeMap.Keys)
      && Registered(core.uidPowerMap, lastClusterTimeMap.Keys + clusterTimeMap.Keys)
    }

    constructor (core: BatteryStatsCore)
      requires core.Valid()
      ensures this.core == core && Valid() && ActiveTimes() == RunActive([]) && ClusterState() == RunClusters([])
    {
      this.core := core;
      activeTimeMap, lastActiveTimeMap := map[], map[];
      clusterTimeMap, lastClusterTimeMap := map[], map[];
    }

    ghost predicate Known(uid: int)
      reads core`uidPowerMap
    {
      uid > INVALID_VALUE ==> uid in core.uidPowerMap
    }

    /** UidEntity::UpdateUidMap on behalf of a line. */
    method Register(uid: int)
      requires Valid()
      modifies core`uidPowerMap
      ensures Valid() && Widened(old(core.uidPowerMap), core.uidPowerMap) && Known(uid)
      ensures core.uidPowerMap.Keys == old(core.uidPowerMap.Keys) + if uid > INVALID_VALUE then {uid} else {}
    {
      if uid > INVALID_VALUE {
        core.UpdateUidMap(uid);
      }
    }

    // ---- Active time ----

    method SumTimes(tokens: seq<string>, from: nat, n: nat) returns (timeMs: int)
      requires from + n <= |tokens|
      ensures timeMs == TimeMs(tokens, from, n)
    {
      timeMs := 0;
      for i := 0 to n
        invariant timeMs == TimeMs(tokens, from, i)
      {
        var ok, result := ParseStrtollResult(tokens[from + i]);
        if !ok {
          continue;
        }
        timeMs := timeMs + result * 10;
      }
    }

    method ReadUidCpuActiveTimeImpl(line: string, uid: int) returns (ok: bool)
      requires Valid() && Known(uid)
      modifies this`activeTimeMap, this`lastActiveTimeMap
      ensures Valid()
      ensures var times := Tokens(line, ' ');
              var r := Reading(uid, TimeMs(times, 0, |times|), core.helper.onBattery);
              && ActiveTimes() == ReadActive(old(ActiveTimes()), r)
              && ok == !Rejected(old(ActiveTimes()), r)
    {
      var splitedTime := Split(line, ' ');
      var timeMs := SumTimes(splitedTime, 0, |splitedTime|);
      var increment;
      ok, increment := UpdateLastActive(uid, timeMs);
      if ok {
        AddActive(uid, increment);
      }
    }

    /** The comparison with the last reading. */
    method UpdateLastActive(uid: int, timeMs: int) returns (ok: bool, increment: int)
      requires Valid() && Known(uid)
      modifies this`lastActiveTimeMap
      ensures Valid()
      ensures var s, r := old(ActiveTimes()), Reading(uid, timeMs, core.helper.onBattery);
              && ok == !Rejected(s, r) && increment == Increment(s, r)
              && lastActiveTimeMap == if ok && timeMs > 0 then s.last[uid := timeMs] else s.last
    {
      ok, increment := true, 0;
      if timeMs > 0 {
        if uid in lastActiveTimeMap {
          increment := timeMs - lastActiveTimeMap[uid];
          if increment >= 0 {
            lastActiveTimeMap := lastActiveTimeMap[uid := timeMs];
          } else {
            return false, increment;
          }
        } else {
          lastActiveTimeMap := lastActiveTimeMap[uid := timeMs];
          increment := timeMs;
        }
      }
    }

    /** An accepted increment counts on battery only. */
    method AddActive(uid: int, increment: int)
      requires Valid() && Known(uid)
      modifies this`activeTimeMap
      ensures Valid()
      ensures activeTimeMap == var acc := old(activeTimeMap);
                               if core.helper.onBattery then acc[uid := At(acc, uid) + increment] else acc
    {
      if core.helper.onBattery {
        if uid in activeTimeMap {
          activeTimeMap := activeTimeMap[uid := activeTimeMap[uid] + increment];
        } else {
          activeTimeMap := activeTimeMap[uid := increment];
        }
      }
    }

    /** One line of the file, split by the caller: its uid is registered and its counter read. */
    method ReadActiveLine(line: string) returns (ok: bool)
      requires Valid() && ActiveLineFits(line)
      modifies this`activeTimeMap, this`lastActiveTimeMap, core`uidPowerMap
      ensures Valid() && Widened(old(core.uidPowerMap), core.uidPowerMap)
      ensures var r := ActiveReading(line, core.helper.onBattery);
              if r.None? then ok && ActiveTimes() == old(ActiveTimes()) && core.uidPowerMap == old(core.uidPowerMap)
              else && ActiveTimes() == ReadActive(old(ActiveTimes()), r.value)
                   && ok == !Rejected(old(ActiveTimes()), r.value)
                   && core.uidPowerMap.Keys == old(core.uidPowerMap.Keys) + Uids([r.value])
    {
      var splitedLine := Split(line, ':');
      if splitedLine[0] == "cpus" {
        return true;
      }
      var parsed, result := ParseStrtollResult(splitedLine[0]);
      if !parsed {
        return true;
      }
      var uid := ToInt32(result);
      ghost var r := ActiveReading(line, core.helper.onBattery).value;
      assert Uids([r]) == if uid > INVALID_VALUE then {uid} else {} by { assert [r][0] == r; }
      Register(uid);
      ok := ReadUidCpuActiveTimeImpl(splitedLine[1], uid);
    }

    /** The next line of a file that is being read. */
    method ReadNextActiveLine(rest: seq<string>, ghost s0: Active, ghost all: seq<Reading>) returns (ok: bool)
      requires Valid() && rest != [] && AtReading(s0, all, ActiveTimes(), rest, core.helper.onBattery)
      modifies this`activeTimeMap, this`lastActiveTimeMap, core`uidPowerMap
      ensures Valid() && Widened(old(core.uidPowerMap), core.uidPowerMap)
      ensures if ok then AtReading(s0, all, ActiveTimes(), rest[1..], core.helper.onBattery)
              else ReadingRefusedAt(s0, all, ActiveTimes())
    {
      ReadingOutcome(s0, all, ActiveTimes(), rest, core.helper.onBattery);
      ok := ReadActiveLine(rest[0]);
    }

    /** The whole file; reading stops at the first refused line, and its later lines are left unread. */
    method ReadUidCpuActiveTime(lines: seq<string>) returns (ok: bool)
      requires Valid() && ActiveFileFits(ActiveTimes(), lines, core.helper.onBattery)
      modifies this`activeTimeMap, this`lastActiveTimeMap, core`uidPowerMap
      ensures Valid() && Widened(old(core.uidPowerMap), core.uidPowerMap)
      ensures var rs := TakenReadings(old(ActiveTimes()), lines, core.helper.onBattery);
              && ActiveTimes() == ReadActives(old(ActiveTimes()), rs)
              && ok == NoneRejected(old(ActiveTimes()), rs)
    {
      var input := lines;
      ghost var s0 := ActiveTimes();
      ghost var all := TakenReadings(s0, lines, core.helper.onBattery);
      while input != []
        invariant Valid() && Widened(old(core.uidPowerMap), core.uidPowerMap)
        invariant AtReading(s0, all, ActiveTimes(), input, core.helper.onBattery)
        decreases |input|
      {
        ok := ReadNextActiveLine(input, s0, all);
        if !ok {
          return;
        }
        input := input[1..];
      }
      ok := true;
    }

    // ---- Cluster time ----

    method ReadPolicy(clusters: seq<nat>, line: string) returns (more: seq<nat>)
      requires |Tokens(line, ' ')| % 2 == 0
      ensures var tokens := Tokens(line, ' ');
              more == clusters + CoreCounts(tokens, |tokens| / 2)
    {
      var splitedPolicy := Split(line, ' ');
      more := clusters;
      assert more == clusters + CoreCounts(splitedPolicy, 0);
      for i := 0 to |splitedPolicy| / 2
        invariant more == clusters + CoreCounts(splitedPolicy, i)
      {
        CoreCountsStep(clusters, splitedPolicy, i);
        var ok, result := ParseStrtollResult(splitedPolicy[2 * i + 1]);
        if ok {
          more := more + [ToUint16(result)];
        }
      }
    }

    method ReadClusterTimes(clusters: seq<nat>, splitedTime: seq<string>) returns (clusterTime: seq<int>)
      requires Cores(clusters, |clusters|) <= |splitedTime|
      ensures clusterTime == ClusterTimes(clusters, splitedTime, |clusters|)
    {
      clusterTime := [];
      var count := 0;
      CoresGrow(clusters, 0, |clusters|);
      for i := 0 to |clusters|
        invariant count == Cores(clusters, i) <= |splitedTime|
        invariant clusterTime == ClusterTimes(clusters, splitedTime, i)
      {
        CoresGrow(clusters, i + 1, |clusters|);
        var tempTimeMs := SumTimes(splitedTime, count, clusters[i]);
        count := count + clusters[i];
        clusterTime := clusterTime + [tempTimeMs];
      }
    }

    /** The comparison loop for a uid already seen; it leaves at the first cluster that went backwards. */
    method Advance(last: seq<int>, clusterTime: seq<int>) returns (ok: bool, moved: seq<int>, increments: seq<int>)
      requires var k := Climbed(last, clusterTime, 0); k == |clusterTime| || k < |last|
      ensures var k := Climbed(last, clusterTime, 0);
              && moved == clusterTime[..k] + last[k..]
              && ok == (k == |clusterTime|)
              && (ok ==> increments == Difference(clusterTime, last))
    {
      moved, increments := last, [];
      ghost var k := Climbed(last, clusterTime, 0);
      for i := 0 to |clusterTime|
        invariant i <= k && |moved| == |last| && |increments| == i
        invariant forall j :: 0 <= j < i ==> moved[j] == clusterTime[j] && increments[j] == clusterTime[j] - last[j]
        invariant forall j :: i <= j < |last| ==> moved[j] == last[j]
      {
        var increment := clusterTime[i] - moved[i];
        if increment >= 0 {
          moved := moved[i := clusterTime[i]];
          increments := increments + [increment];
        } else {
          assert moved == clusterTime[..i] + last[i..];
          return false, moved, increments;
        }
      }
      assert moved == clusterTime + last[|clusterTime|..];
      ok := true;
    }

    method ReadClusterTimeIncrement(clusters: seq<nat>, uid: int, timeLine: string)
      returns (ok: bool, clusterTime: seq<int>, increments: seq<int>)
      requires Cores(clusters, |clusters|) <= |Tokens(timeLine, ' ')|
      requires Indexable(ClusterState(), LineOf(clusters, uid, timeLine, core.helper.onBattery))
      modifies this`lastClusterTimeMap
      ensures clusterTime == LineOf(clusters, uid, timeLine, core.helper.onBattery).times
      ensures var l := LineOf(clusters, uid, timeLine, core.helper.onBattery);
              && lastClusterTimeMap == old(lastClusterTimeMap)[uid := LastAfter(old(ClusterState()), l)]
              && ok == Accepted(old(ClusterState()), l)
              && (ok ==> increments == Increments(old(ClusterState()), l))
    {
      var splitedTime := Split(timeLine, ' ');
      clusterTime := ReadClusterTimes(clusters, splitedTime);
      if uid in lastClusterTimeMap {
        var moved;
        ok, moved, increments := Advance(lastClusterTimeMap[uid], clusterTime);
        lastClusterTimeMap := lastClusterTimeMap[uid := moved];
      } else {
        lastClusterTimeMap := lastClusterTimeMap[uid := clusterTime];
        ok, increments := true, clusterTime;
      }
    }

    method AddIncrementsToClusterTime(clusterTime: seq<int>, increments: seq<int>) returns (sum: seq<int>)
      requires |increments| <= |clusterTime|
      ensures sum == Added(clusterTime, increments)
    {
      sum := clusterTime;
      for i := 0 to |increments|
        invariant |sum| == |clusterTime|
        invariant forall j :: 0 <= j < |sum| ==> sum[j] == clusterTime[j] + if j < i then increments[j] else 0
      {
        sum := sum[i := sum[i] + increments[i]];
      }
    }

    /** A uid's line: its last readings advance, and on battery an accepted line is accumulated. */
    method ReadUidLine(clusters: seq<nat>, uid: int, timeLine: string) returns (ok: bool)
      requires Valid() && Known(uid) && Cores(clusters, |clusters|) <= |Tokens(timeLine, ' ')|
      requires Indexable(ClusterState(), LineOf(clusters, uid, timeLine, core.helper.onBattery))
      modifies this`lastClusterTimeMap, this`clusterTimeMap
      ensures Valid()
      ensures var l := LineOf(clusters, uid, timeLine, core.helper.onBattery);
              ClusterState() == ReadLine(old(ClusterState()), l) && ok == Accepted(old(ClusterState()), l)
    {
      var clusterTime, increments;
      ok, clusterTime, increments := ReadClusterTimeIncrement(clusters, uid, timeLine);
      if !ok {
        return;
      }
      if core.helper.onBattery {
        if uid in clusterTimeMap {
          var sum := AddIncrementsToClusterTime(clusterTimeMap[uid], increments);
          clusterTimeMap := clusterTimeMap[uid := sum];
        } else {
          clusterTimeMap := clusterTimeMap[uid := increments];
        }
      }
    }

    /** One line that is no policy line; one that starts with no number is passed over. */
    method ReadClusterLine(clusters: seq<nat>, line: string) returns (ok: bool)
      requires Valid() && ClusterLineFits(clusters, line) && !HasPolicy(line)
      requires var l := ClusterLine(clusters, line, core.helper.onBattery);
               l.Some? ==> Indexable(ClusterState(), l.value)
      modifies this`lastClusterTimeMap, this`clusterTimeMap, core`uidPowerMap
      ensures Valid() && Widened(old(core.uidPowerMap), core.uidPowerMap)
      ensures match ClusterLine(clusters, line, core.helper.onBattery)
              case None => ok && ClusterState() == old(ClusterState()) && core.uidPowerMap == old(core.uidPowerMap)
              case Some(l) =>
                && ClusterState() == ReadLine(old(ClusterState()), l) && ok == Accepted(old(ClusterState()), l)
                && core.uidPowerMap.Keys == old(core.uidPowerMap.Keys) + if l.uid > INVALID_VALUE then {l.uid} else {}
    {
      var splitedLine := Split(line, ':');
      var parsed, result := ParseStrtollResult(splitedLine[0]);
      if !parsed {
        return true;
      }
      var uid := ToInt32(result);
      Register(uid);
      ok := ReadUidLine(clusters, uid, splitedLine[1]);
    }

    /** The loop body: a policy line extends the layout, any other line may be a uid's. */
    method ReadFileLine(clusters: seq<nat>, line: string) returns (ok: bool, layout: seq<nat>)
      requires Valid() && ClusterLineFits(clusters, line)
      requires var l := ClusterLine(clusters, line, core.helper.onBattery);
               l.Some? ==> Indexable(ClusterState(), l.value)
      modifies this`lastClusterTimeMap, this`clusterTimeMap, core`uidPowerMap
      ensures Valid() && Widened(old(core.uidPowerMap), core.uidPowerMap) && layout == LayoutAfter(clusters, line)
      ensures match ClusterLine(clusters, line, core.helper.onBattery)
              case None => ok && ClusterState() == old(ClusterState())
              case Some(l) =>
                ClusterState() == ReadLine(old(ClusterState()), l) && ok == Accepted(old(ClusterState()), l)
    {
      layout := clusters;
      if HasPolicy(line) {
        layout := ReadPolicy(clusters, line);
        return true, layout;
      }
      ok := ReadClusterLine(clusters, line);
    }

    /** The next line of a file that is being read. */
    method ReadNextLine(clusters: seq<nat>, rest: seq<string>, ghost s0: Clusters, ghost all: seq<Line>)
      returns (ok: bool, layout: seq<nat>)
      requires Valid() && rest != [] && AtLine(s0, all, ClusterState(), clusters, rest, core.helper.onBattery)
      modifies this`lastClusterTimeMap, this`clusterTimeMap, core`uidPowerMap
      ensures Valid() && Widened(old(core.uidPowerMap), core.uidPowerMap)
      ensures if ok then AtLine(s0, all, ClusterState(), layout, rest[1..], core.helper.onBattery)
              else LineRefusedAt(s0, all, ClusterState())
    {
      LineOutcome(s0, all, ClusterState(), clusters, rest, core.helper.onBattery);
      ok, layout := ReadFileLine(clusters, rest[0]);
    }

    /** The whole file; reading stops at the first refused line, and its later lines are left unread. */
    method ReadUidCpuClusterTime(lines: seq<string>) returns (ok: bool)
      requires Valid() && ClusterFileFits(ClusterState(), [], lines, core.helper.onBattery)
      modifies this`lastClusterTimeMap, this`clusterTimeMap, core`uidPowerMap
      ensures Valid() && Widened(old(core.uidPowerMap), core.uidPowerMap)
      ensures var ls := TakenLines(old(ClusterState()), [], lines, core.helper.onBattery);
              && ClusterState() == ReadLines(old(ClusterState()), ls)
              && ok == AllAccepted(old(ClusterState()), ls)
    {
      var clusters: seq<nat> := [];
      var input := lines;
      ghost var s0 := ClusterState();
      ghost var all := TakenLines(s0, [], lines, core.helper.onBattery);
      while input != []
        invariant Valid() && Widened(old(core.uidPowerMap), core.uidPowerMap)
        invariant AtLine(s0, all, ClusterState(), clusters, input, core.helper.onBattery)
        decreases |input|
      {
        ok, clusters := ReadNextLine(clusters, input, s0, all);
        if !ok {
          return;
        }
        input := input[1..];
      }
      ok := true;
    }
  }
}
