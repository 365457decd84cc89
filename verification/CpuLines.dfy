/** What the lines of the kernel's per-uid cpu time files say, and a file read line by line. */
module CpuLines {
  import opened StatsTypes
  import opened Numbers
  import opened Tokeniser
  import opened CpuLedger

  // ---- The uids the reader makes known ----

  ghost predicate Registered(known: map<int, real>, uids: set<int>) {
    forall u :: u in uids && u > INVALID_VALUE ==> u in known
  }

  ghost predicate Widened(before: map<int, real>, after: map<int, real>) {
    forall u :: u in before ==> u in after && after[u] == before[u]
  }

  // ---- What a line says ----

  ghost function Units(token: string): int {
    match Parsed(token) case Some(n) => n * 10 case None => 0
  }

  /** The sum of the first n tokens from `from` on, in milliseconds; a token that is no number adds nothing. */
  ghost function TimeMs(tokens: seq<string>, from: nat, n: nat): int
    requires from + n <= |tokens|
  {
    if n == 0 then 0 else TimeMs(tokens, from, n - 1) + Units(tokens[from + n - 1])
  }

  /** The uid a line starts with. */
  ghost function LineUid(line: string): Option<int>
    requires |Tokens(line, ':')| >= 1
  {
    match Parsed(Tokens(line, ':')[0]) case Some(n) => Some(ToInt32(n)) case None => None
  }

  /** A line of the active time file: a first token that is "cpus" or no number makes it none. */
  ghost predicate ActiveLineFits(line: string) {
    var tokens := Tokens(line, ':');
    |tokens| >= 1 && (tokens[0] != "cpus" && LineUid(line).Some? ==> |tokens| >= 2)
  }

  ghost function ActiveReading(line: string, onBattery: bool): Option<Reading>
    requires ActiveLineFits(line)
  {
    var tokens := Tokens(line, ':');
    if tokens[0] == "cpus" || LineUid(line).None? then None
    else var times := Tokens(tokens[1], ' ');
         Some(Reading(LineUid(line).value, TimeMs(times, 0, |times|), onBattery))
  }

  /** Every line up to the first refused one fits; what lies behind that one is never read. */
  ghost predicate ActiveFileFits(s: Active, lines: seq<string>, onBattery: bool)
    decreases |lines|
  {
    lines == []
    || (ActiveLineFits(lines[0])
        && match ActiveReading(lines[0], onBattery)
           case None => ActiveFileFits(s, lines[1..], onBattery)
           case Some(r) => Rejected(s, r) || ActiveFileFits(ReadActive(s, r), lines[1..], onBattery))
  }

  /** The readings taken from a file: all up to the first refused one, that one included. */
  ghost function TakenReadings(s: Active, lines: seq<string>, onBattery: bool): seq<Reading>
    requires ActiveFileFits(s, lines, onBattery)
    decreases |lines|
  {
    if lines == [] then []
    else match ActiveReading(lines[0], onBattery)
         case None => TakenReadings(s, lines[1..], onBattery)
         case Some(r) =>
           [r] + if Rejected(s, r) then [] else TakenReadings(ReadActive(s, r), lines[1..], onBattery)
  }

  /** Where the loop stands: the rest of the file taken from s completes `all` taken from s0. */
  ghost predicate AtReading(s0: Active, all: seq<Reading>, s: Active, rest: seq<string>, onBattery: bool) {
    && ActiveFileFits(s, rest, onBattery)
    && ReadActives(s0, all) == ReadActives(s, TakenReadings(s, rest, onBattery))
    && NoneRejected(s0, all) == NoneRejected(s, TakenReadings(s, rest, onBattery))
  }

  ghost predicate ReadingRefusedAt(s0: Active, all: seq<Reading>, s: Active) {
    ReadActives(s0, all) == s && !NoneRejected(s0, all)
  }

  lemma OneReading(s: Active, r: Reading, rest: seq<Reading>)
    ensures ReadActives(s, [r] + rest) == ReadActives(ReadActive(s, r), rest)
    ensures NoneRejected(s, [r] + rest) == (!Rejected(s, r) && NoneRejected(ReadActive(s, r), rest))
  {
    assert ([r] + rest)[1..] == rest;
  }

  /** One more line: nothing read, or a reading accepted, or refused and then the file is over. */
  lemma ReadingOutcome(s0: Active, all: seq<Reading>, s: Active, rest: seq<string>, onBattery: bool)
    requires rest != [] && AtReading(s0, all, s, rest, onBattery)
    ensures ActiveLineFits(rest[0])
    ensures match ActiveReading(rest[0], onBattery)
            case None => AtReading(s0, all, s, rest[1..], onBattery)
            case Some(r) => if Rejected(s, r) then ReadingRefusedAt(s0, all, s)
                            else AtReading(s0, all, ReadActive(s, r), rest[1..], onBattery)
  {
    var reading := ActiveReading(rest[0], onBattery);
    if reading.Some? {
      var r := reading.value;
      var more := if Rejected(s, r) then [] else TakenReadings(ReadActive(s, r), rest[1..], onBattery);
      OneReading(s, r, more);
    }
  }

  ghost function Uids(rs: seq<Reading>): set<int> {
    set r | r in rs && r.uid > INVALID_VALUE :: r.uid
  }

  // ---- Clusters ----

  /** line.find("policy") != npos. */
  predicate HasPolicy(line: string) {
    exists i :: 0 <= i <= |line| - 6 && PolicyAt(line, i)
  }

  predicate PolicyAt(line: string, i: nat)
    requires i + 6 <= |line|
  {
    line[i..i + 6] == "policy"
  }

  /** static_cast<uint16_t>. */
  function ToUint16(n: int): nat { n % 0x1_0000 }

  /** The core counts of the first n pairs of tokens; a count that is no number is left out. */
  ghost function CoreCounts(tokens: seq<string>, n: nat): seq<nat>
    requires 2 * n <= |tokens|
  {
    if n == 0 then []
    else CoreCounts(tokens, n - 1)
         + match Parsed(tokens[2 * n - 1]) case Some(k) => [ToUint16(k)] case None => []
  }

  lemma CoreCountsStep(clusters: seq<nat>, tokens: seq<string>, n: nat)
    requires 2 * n + 2 <= |tokens|
    ensures clusters + CoreCounts(tokens, n + 1) ==
            match Parsed(tokens[2 * n + 1])
            case Some(k) => clusters + CoreCounts(tokens, n) + [ToUint16(k)]
            case None => clusters + CoreCounts(tokens, n)
  {}

  function Cores(clusters: seq<nat>, n: nat): nat
    requires n <= |clusters|
  {
    if n == 0 then 0 else Cores(clusters, n - 1) + clusters[n - 1]
  }

  lemma {:induction false} CoresGrow(clusters: seq<nat>, n: nat, m: nat)
    requires n <= m <= |clusters|
    ensures Cores(clusters, n) <= Cores(clusters, m)
  {
    if n < m { CoresGrow(clusters, n, m - 1); }
  }

  /** Each cluster's time is the sum of as many tokens as it has cores. */
  ghost function ClusterTimes(clusters: seq<nat>, tokens: seq<string>, n: nat): (times: seq<int>)
    requires n <= |clusters| && Cores(clusters, n) <= |tokens|
    ensures |times| == n
  {
    if n == 0 then []
    else ClusterTimes(clusters, tokens, n - 1) + [TimeMs(tokens, Cores(clusters, n - 1), clusters[n - 1])]
  }

  /** What the reader's own indexing needs of a line, the layout so far being `clusters`. */
  ghost predicate ClusterLineFits(clusters: seq<nat>, line: string) {
    var tokens := Tokens(line, ':');
    if HasPolicy(line) then |Tokens(line, ' ')| % 2 == 0
    else && |tokens| >= 1
         && (LineUid(line).Some? ==> |tokens| >= 2 && Cores(clusters, |clusters|) <= |Tokens(tokens[1], ' ')|)
  }

  /** What a uid's part of a line says in a layout. */
  ghost function LineOf(clusters: seq<nat>, uid: int, timeLine: string, onBattery: bool): Line
    requires Cores(clusters, |clusters|) <= |Tokens(timeLine, ' ')|
  {
    Line(uid, ClusterTimes(clusters, Tokens(timeLine, ' '), |clusters|), onBattery)
  }

  ghost function LayoutAfter(clusters: seq<nat>, line: string): seq<nat> {
    var tokens := Tokens(line, ' ');
    if HasPolicy(line) then clusters + CoreCounts(tokens, |tokens| / 2) else clusters
  }

  ghost function ClusterLine(clusters: seq<nat>, line: string, onBattery: bool): Option<Line>
    requires ClusterLineFits(clusters, line)
  {
    if HasPolicy(line) || LineUid(line).None? then None
    else Some(LineOf(clusters, LineUid(line).value, Tokens(line, ':')[1], onBattery))
  }

  /**
   * Every line up to the first refused one fits, and its times can be compared with and added to
   * the vectors stored by then; what lies behind the refused one is never read.
   */
  ghost predicate ClusterFileFits(s: Clusters, clusters: seq<nat>, lines: seq<string>, onBattery: bool)
    decreases |lines|
  {
    lines == []
    || (ClusterLineFits(clusters, lines[0])
        && var layout := LayoutAfter(clusters, lines[0]);
           match ClusterLine(clusters, lines[0], onBattery)
           case None => ClusterFileFits(s, layout, lines[1..], onBattery)
           case Some(l) =>
             Indexable(s, l) && (Accepted(s, l) ==> ClusterFileFits(ReadLine(s, l), layout, lines[1..], onBattery)))
  }

  /** The uid lines taken from a file: all up to the first refused one, that one included. */
  ghost function TakenLines(s: Clusters, clusters: seq<nat>, lines: seq<string>, onBattery: bool): seq<Line>
    requires ClusterFileFits(s, clusters, lines, onBattery)
    decreases |lines|
  {
    if lines == [] then []
    else
      var layout := LayoutAfter(clusters, lines[0]);
      match ClusterLine(clusters, lines[0], onBattery)
      case None => TakenLines(s, layout, lines[1..], onBattery)
      case Some(l) =>
        [l] + if Accepted(s, l) then TakenLines(ReadLine(s, l), layout, lines[1..], onBattery) else []
  }

  lemma OneLine(s: Clusters, l: Line, rest: seq<Line>)
    ensures ReadLines(s, [l] + rest) == ReadLines(ReadLine(s, l), rest)
    ensures AllAccepted(s, [l] + rest) == (Accepted(s, l) && AllAccepted(ReadLine(s, l), rest))
    ensures AllIndexable(s, [l] + rest) == (Indexable(s, l) && AllIndexable(ReadLine(s, l), rest))
  {
    assert ([l] + rest)[1..] == rest;
  }

  /** The lines taken are a continuation of the run that CpuLedger.ReadLinesContinue accepts. */
  lemma {:induction false} TakenIndexable(s: Clusters, clusters: seq<nat>, lines: seq<string>, onBattery: bool)
    requires ClusterFileFits(s, clusters, lines, onBattery)
    ensures AllIndexable(s, TakenLines(s, clusters, lines, onBattery))
    decreases |lines|
  {
    if lines != [] {
      var layout, line := LayoutAfter(clusters, lines[0]), ClusterLine(clusters, lines[0], onBattery);
      if line.None? {
        TakenIndexable(s, layout, lines[1..], onBattery);
      } else if Accepted(s, line.value) {
        TakenIndexable(ReadLine(s, line.value), layout, lines[1..], onBattery);
        OneLine(s, line.value, TakenLines(ReadLine(s, line.value), layout, lines[1..], onBattery));
      } else {
        OneLine(s, line.value, []);
      }
    }
  }

  // ---- The loop over a cluster time file ----

  /** Where the loop stands: the rest of the file, taken from s in this layout, completes `all` taken from s0. */
  ghost predicate AtLine(
    s0: Clusters, all: seq<Line>, s: Clusters, clusters: seq<nat>, rest: seq<string>, onBattery: bool)
  {
    && ClusterFileFits(s, clusters, rest, onBattery)
    && ReadLines(s0, all) == ReadLines(s, TakenLines(s, clusters, rest, onBattery))
    && AllAccepted(s0, all) == AllAccepted(s, TakenLines(s, clusters, rest, onBattery))
  }

  /** Reading `all` from s0 ends with a refused line and leaves s. */
  ghost predicate LineRefusedAt(s0: Clusters, all: seq<Line>, s: Clusters) {
    ReadLines(s0, all) == s && !AllAccepted(s0, all)
  }

  /** One more line of the file: passed over, or accepted, or refused and then the file is over. */
  lemma LineOutcome(
    s0: Clusters, all: seq<Line>, s: Clusters, clusters: seq<nat>, rest: seq<string>, onBattery: bool)
    requires rest != [] && AtLine(s0, all, s, clusters, rest, onBattery)
    ensures ClusterLineFits(clusters, rest[0])
    ensures var layout := LayoutAfter(clusters, rest[0]);
            match ClusterLine(clusters, rest[0], onBattery)
            case None => AtLine(s0, all, s, layout, rest[1..], onBattery)
            case Some(l) =>
              && Indexable(s, l)
              && if Accepted(s, l) then AtLine(s0, all, ReadLine(s, l), layout, rest[1..], onBattery)
                 else LineRefusedAt(s0, all, ReadLine(s, l))
  {
    var layout, line := LayoutAfter(clusters, rest[0]), ClusterLine(clusters, rest[0], onBattery);
    if line.Some? {
      var l := line.value;
      OneLine(s, l, if Accepted(s, l) then TakenLines(ReadLine(s, l), layout, rest[1..], onBattery) else []);
    }
  }
}
