/**
 * What the kernel's lines mean, said of the numbers written in them: a line is a uid, a colon and
 * numbers set apart by blanks, and each number counts ten milliseconds.
 */
module CpuText {
  import opened StatsTypes
  import opened Numbers
  import opened Tokeniser
  import opened CpuLedger
  import opened CpuLines

  // ---- Numbers as text ----

  function Texts(ns: seq<int>): (ts: seq<string>)
    ensures |ts| == |ns| && forall i :: 0 <= i < |ns| ==> ts[i] == ToString(ns[i])
  {
    if ns == [] then [] else [ToString(ns[0])] + Texts(ns[1..])
  }

  function Total(ns: seq<int>): int {
    if ns == [] then 0 else ns[0] + Total(ns[1..])
  }

  ghost predicate AllInt64(ns: seq<int>) { forall i :: 0 <= i < |ns| ==> IsInt64(ns[i]) }

  lemma NumberText(n: int, c: char)
    ensures ToString(n) != ""
    ensures !IsDigit(c) && c != '-' ==> Free(ToString(n), c)
  {
    var digits := Digits(if n < 0 then -n else n);
    assert forall i :: 0 <= i < |digits| ==> IsDigit(digits[i]);
  }

  lemma TextsAreTokens(ns: seq<int>)
    ensures AllTokens(Texts(ns), ' ')
  {
    forall i | 0 <= i < |ns| ensures Texts(ns)[i] != "" && Free(Texts(ns)[i], ' ') { NumberText(ns[i], ' '); }
  }

  lemma {:induction false} TotalSnoc(ns: seq<int>, n: int)
    ensures Total(ns + [n]) == Total(ns) + n
  {
    if ns == [] {
      assert [n][1..] == [];
    } else {
      assert (ns + [n])[1..] == ns[1..] + [n];
      TotalSnoc(ns[1..], n);
    }
  }

  lemma {:induction false} TotalConcat(a: seq<int>, b: seq<int>)
    ensures Total(a + b) == Total(a) + Total(b)
  {
    if a == [] {
      assert a + b == b;
    } else {
      assert (a + b)[1..] == a[1..] + b;
      TotalConcat(a[1..], b);
    }
  }

  /** The numbers, in this order, set apart by blanks in any way. */
  ghost predicate Spells(times: string, ns: seq<int>) {
    exists gaps :: |gaps| == |ns| + 1 && Gaps(gaps, ' ') && Weave(gaps, Texts(ns)) == times
  }

  lemma {:induction false} WeaveFree(gaps: seq<string>, ts: seq<string>, d: char, c: char)
    requires |gaps| == |ts| + 1 && c != d
    requires forall i :: 0 <= i < |gaps| ==> Only(gaps[i], d)
    requires forall i :: 0 <= i < |ts| ==> Free(ts[i], c)
    ensures Free(Weave(gaps, ts), c)
    decreases |ts|
  {
    assert Only(gaps[0], d);
    if ts != [] {
      assert Free(ts[0], c);
      WeaveFree(gaps[1..], ts[1..], d, c);
    }
  }

  /** A spelling splits into the numbers' texts and holds nothing but them and blanks. */
  lemma SpellsMeaning(times: string, ns: seq<int>, c: char)
    requires Spells(times, ns)
    ensures Tokens(times, ' ') == Texts(ns)
    ensures c != ' ' && c != '-' && !IsDigit(c) ==> Free(times, c)
  {
    var gaps :| |gaps| == |ns| + 1 && Gaps(gaps, ' ') && Weave(gaps, Texts(ns)) == times;
    TextsAreTokens(ns);
    SplitWeave(gaps, Texts(ns), ' ');
    if c != ' ' && c != '-' && !IsDigit(c) {
      forall i | 0 <= i < |ns| ensures Free(Texts(ns)[i], c) { NumberText(ns[i], c); }
      WeaveFree(gaps, Texts(ns), ' ', c);
    }
  }

  /** Single blanks are one such spelling. */
  lemma JoinSpells(ns: seq<int>)
    ensures Spells(Join(Texts(ns), ' '), ns)
    ensures ns != [] ==> Join(Texts(ns), ' ') != ""
  {
    var ts := Texts(ns);
    TextsAreTokens(ns);
    SplitJoin(ts, ' ');
    TokensExactly(Join(ts, ' '), ' ', ts);
  }

  /** What a token counts: the 64-bit number it denotes, and nothing when it denotes none. */
  ghost predicate Worth(token: string, n: int) {
    if exists m :: IsInt64(m) && Denotes(token, m) then Denotes(token, n) else n == 0
  }

  lemma UnitsOfWorth(token: string, n: int)
    requires Worth(token, n)
    ensures Units(token) == 10 * n
  {
    var parsed := Parsed(token);
    if parsed.Some? { DenotesOne(token, parsed.value, n); }
  }

  lemma NumberIsWorth(n: int)
    requires IsInt64(n)
    ensures Worth(ToString(n), n)
  {
    ToStringDenotes(n);
  }

  ghost predicate IsUnits(tokens: seq<string>, from: nat, ns: seq<int>, j: nat)
    requires j < |ns| && from + |ns| <= |tokens|
  {
    Units(tokens[from + j]) == 10 * ns[j]
  }

  lemma {:induction false} SumOfUnits(tokens: seq<string>, from: nat, ns: seq<int>, n: nat)
    requires n <= |ns| && from + |ns| <= |tokens|
    requires forall j :: 0 <= j < |ns| ==> IsUnits(tokens, from, ns, j)
    ensures TimeMs(tokens, from, n) == 10 * Total(ns[..n])
  {
    if n > 0 {
      SumOfUnits(tokens, from, ns, n - 1);
      assert IsUnits(tokens, from, ns, n - 1);
      TotalSnoc(ns[..n - 1], ns[n - 1]);
      assert ns[..n] == ns[..n - 1] + [ns[n - 1]];
    }
  }

  /** A row of tokens is worth ten milliseconds for each unit of what they denote together. */
  lemma TimeByMeaning(tokens: seq<string>, from: nat, ns: seq<int>)
    requires from + |ns| <= |tokens| && forall j :: 0 <= j < |ns| ==> Worth(tokens[from + j], ns[j])
    ensures TimeMs(tokens, from, |ns|) == 10 * Total(ns)
  {
    forall j | 0 <= j < |ns| ensures IsUnits(tokens, from, ns, j) { UnitsOfWorth(tokens[from + j], ns[j]); }
    SumOfUnits(tokens, from, ns, |ns|);
    assert ns[..|ns|] == ns;
  }

  lemma TimeOfNumbers(tokens: seq<string>, from: nat, ns: seq<int>)
    requires AllInt64(ns) && from + |ns| <= |tokens|
    requires forall j :: 0 <= j < |ns| ==> tokens[from + j] == ToString(ns[j])
    ensures TimeMs(tokens, from, |ns|) == 10 * Total(ns)
  {
    forall j | 0 <= j < |ns| ensures Worth(tokens[from + j], ns[j]) { NumberIsWorth(ns[j]); }
    TimeByMeaning(tokens, from, ns);
  }

  // ---- A uid's line ----

  function LineText(uid: int, times: string): string {
    ToString(uid) + ":" + times
  }

  lemma LineTokens(uid: int, times: string)
    requires times != "" && Free(times, ':')
    ensures Tokens(LineText(uid, times), ':') == [ToString(uid), times]
  {
    NumberText(uid, ':');
    TwoTokens(ToString(uid), times);
  }

  lemma UidText(uid: int, times: string)
    requires IsInt32(uid) && times != "" && Free(times, ':')
    ensures |Tokens(LineText(uid, times), ':')| == 2 && LineUid(LineText(uid, times)) == Some(uid)
  {
    LineTokens(uid, times);
    ToStringParses(uid);
  }

  lemma NotTheHeader(uid: int)
    ensures ToString(uid) != "cpus"
  {
    NumberText(uid, 'c');
    assert "cpus"[0] == 'c';
  }

  lemma TwoTokens(head: string, times: string)
    requires head != "" && times != "" && Free(head, ':') && Free(times, ':')
    ensures Tokens(head + ":" + times, ':') == [head, times]
  {
    var ts := [head, times];
    SplitJoin(ts, ':');
    assert ts[1..] == [times];
    assert Join(ts, ':') == head + [':'] + times;
  }

  /**
   * A line of the active time file, whatever its texts: before the colon a number, behind it tokens
   * that count what they denote; one that denotes no 64-bit number counts nothing.
   */
  lemma ActiveLineByMeaning(head: string, uid: int, times: string, ns: seq<int>, onBattery: bool)
    requires head != "" && head != "cpus" && Free(head, ':') && IsInt64(uid) && Denotes(head, uid)
    requires times != "" && Free(times, ':')
    requires |Tokens(times, ' ')| == |ns| && forall j :: 0 <= j < |ns| ==> Worth(Tokens(times, ' ')[j], ns[j])
    ensures var line := head + ":" + times;
            && ActiveLineFits(line)
            && ActiveReading(line, onBattery) == Some(Reading(ToInt32(uid), 10 * Total(ns), onBattery))
  {
    TwoTokens(head, times);
    DenotesOne(head, uid, Parsed(head).value);
    TimeByMeaning(Tokens(times, ' '), 0, ns);
  }

  /** A line that starts with no number is passed over. */
  lemma UnnumberedLine(head: string, times: string, onBattery: bool)
    requires head != "" && times != "" && Free(head, ':') && Free(times, ':')
    requires forall n :: IsInt64(n) ==> !Denotes(head, n)
    ensures ActiveLineFits(head + ":" + times) && ActiveReading(head + ":" + times, onBattery) == None
  {
    TwoTokens(head, times);
  }

  /** A uid's line of the active time file reads as ten milliseconds for each unit of its numbers' sum. */
  lemma ActiveLineByText(uid: int, ns: seq<int>, times: string, onBattery: bool)
    requires IsInt32(uid) && AllInt64(ns) && times != "" && Spells(times, ns)
    ensures var line := LineText(uid, times);
            ActiveLineFits(line) && ActiveReading(line, onBattery) == Some(Reading(uid, 10 * Total(ns), onBattery))
  {
    SpellsMeaning(times, ns, ':');
    UidText(uid, times);
    LineTokens(uid, times);
    NotTheHeader(uid);
    TimeOfNumbers(Tokens(times, ' '), 0, ns);
  }

  /** The numbers joined by single blanks in particular. */
  lemma ActiveJoinByText(uid: int, ns: seq<int>, onBattery: bool)
    requires IsInt32(uid) && AllInt64(ns) && ns != []
    ensures var line := ToString(uid) + ":" + Join(Texts(ns), ' ');
            ActiveLineFits(line) && ActiveReading(line, onBattery) == Some(Reading(uid, 10 * Total(ns), onBattery))
  {
    JoinSpells(ns);
    ActiveLineByText(uid, ns, Join(Texts(ns), ' '), onBattery);
  }

  /** The header line gives no reading, whatever follows its name. */
  lemma HeaderByText(rest: string, onBattery: bool)
    ensures var line := "cpus:" + rest;
            ActiveLineFits(line) && ActiveReading(line, onBattery) == None
  {
    var line := "cpus:" + rest;
    assert line == "cpus" + ([':'] + rest);
    BareToken("cpus", [':'] + rest, ':');
    assert Tokens(line, ':')[0] == "cpus";
  }

  // ---- Clusters ----

  function Flat(groups: seq<seq<int>>): seq<int> {
    if groups == [] then [] else groups[0] + Flat(groups[1..])
  }

  /** Ten milliseconds for each unit of each group's sum. */
  function Tenfold(groups: seq<seq<int>>): seq<int> {
    seq(|groups|, i requires 0 <= i < |groups| => 10 * Total(groups[i]))
  }

  ghost predicate Sized(clusters: seq<nat>, groups: seq<seq<int>>) {
    |clusters| == |groups| && forall i :: 0 <= i < |groups| ==> |groups[i]| == clusters[i]
  }

  lemma {:induction false} FlatConcat(a: seq<seq<int>>, b: seq<seq<int>>)
    ensures Flat(a + b) == Flat(a) + Flat(b)
  {
    if a == [] {
      assert a + b == b;
    } else {
      var both := a + b;
      assert both[0] == a[0] && both[1..] == a[1..] + b;
      FlatConcat(a[1..], b);
      assert a[0] + (Flat(a[1..]) + Flat(b)) == a[0] + Flat(a[1..]) + Flat(b);
    }
  }

  lemma FlatOne(g: seq<int>)
    ensures Flat([g]) == g
  {
    assert [g][1..] == [];
  }

  lemma {:induction false} CoresAreNumbers(clusters: seq<nat>, groups: seq<seq<int>>, i: nat)
    requires Sized(clusters, groups) && i <= |groups|
    ensures Cores(clusters, i) == |Flat(groups[..i])|
  {
    if i > 0 {
      CoresAreNumbers(clusters, groups, i - 1);
      FlatConcat(groups[..i - 1], [groups[i - 1]]);
      FlatOne(groups[i - 1]);
      assert groups[..i] == groups[..i - 1] + [groups[i - 1]];
    }
  }

  /** The group's numbers stand in ns one after the other. */
  ghost predicate Stands(ns: seq<int>, from: nat, group: seq<int>) {
    from + |group| <= |ns| && ns[from..from + |group|] == group
  }

  lemma GroupAt(groups: seq<seq<int>>, extra: seq<int>, i: nat)
    requires i < |groups|
    ensures Stands(Flat(groups) + extra, |Flat(groups[..i])|, groups[i])
  {
    FlatConcat(groups[..i], groups[i..]);
    assert groups == groups[..i] + groups[i..];
    assert Flat(groups[i..]) == groups[i] + Flat(groups[i..][1..]);
    StandsBetween(Flat(groups[..i]), groups[i], Flat(groups[i..][1..]), extra);
  }

  lemma StandsBetween(a: seq<int>, group: seq<int>, b: seq<int>, c: seq<int>)
    ensures Stands(a + (group + b) + c, |a|, group)
  {}

  lemma StandsInt64(ns: seq<int>, from: nat, group: seq<int>)
    requires Stands(ns, from, group) && AllInt64(ns)
    ensures AllInt64(group)
  {
    forall j | 0 <= j < |group| ensures IsInt64(group[j]) {
      assert ns[from..from + |group|][j] == ns[from + j];
      assert IsInt64(ns[from + j]);
    }
  }

  lemma NumbersOfTexts(ns: seq<int>, from: nat, group: seq<int>)
    requires AllInt64(group) && Stands(ns, from, group)
    ensures TimeMs(Texts(ns), from, |group|) == 10 * Total(group)
  {
    var tokens := Texts(ns);
    forall j | 0 <= j < |group| ensures tokens[from + j] == ToString(group[j]) {
      assert ns[from..from + |group|][j] == ns[from + j];
    }
    TimeOfNumbers(tokens, from, group);
  }

  lemma GroupTime(clusters: seq<nat>, groups: seq<seq<int>>, extra: seq<int>, i: nat)
    requires Sized(clusters, groups) && i < |groups| && AllInt64(Flat(groups))
    ensures var tokens := Texts(Flat(groups) + extra);
            Cores(clusters, i) + clusters[i] <= |tokens|
            && TimeMs(tokens, Cores(clusters, i), clusters[i]) == 10 * Total(groups[i])
  {
    CoresAreNumbers(clusters, groups, i);
    GroupAt(groups, [], i);
    assert Flat(groups) + [] == Flat(groups);
    StandsInt64(Flat(groups), |Flat(groups[..i])|, groups[i]);
    GroupAt(groups, extra, i);
    NumbersOfTexts(Flat(groups) + extra, |Flat(groups[..i])|, groups[i]);
  }

  /** Cluster i's stretch of the tokens is there and is worth times[i]. */
  ghost predicate TimeAt(clusters: seq<nat>, tokens: seq<string>, times: seq<int>, i: nat)
    requires i < |clusters| == |times|
  {
    Cores(clusters, i) + clusters[i] <= |tokens| && TimeMs(tokens, Cores(clusters, i), clusters[i]) == times[i]
  }

  lemma {:induction false} TimesOfStretches(clusters: seq<nat>, tokens: seq<string>, times: seq<int>, n: nat)
    requires n <= |clusters| == |times| && forall i :: 0 <= i < n ==> TimeAt(clusters, tokens, times, i)
    ensures Cores(clusters, n) <= |tokens| && ClusterTimes(clusters, tokens, n) == times[..n]
  {
    if n > 0 {
      TimesOfStretches(clusters, tokens, times, n - 1);
      assert TimeAt(clusters, tokens, times, n - 1);
    }
  }

  lemma ClusterTimesByGroup(clusters: seq<nat>, groups: seq<seq<int>>, extra: seq<int>)
    requires Sized(clusters, groups) && AllInt64(Flat(groups))
    ensures var tokens := Texts(Flat(groups) + extra);
            && Cores(clusters, |clusters|) <= |tokens|
            && ClusterTimes(clusters, tokens, |clusters|) == Tenfold(groups)
  {
    var tokens, times := Texts(Flat(groups) + extra), Tenfold(groups);
    forall i | 0 <= i < |clusters| ensures TimeAt(clusters, tokens, times, i) { GroupTime(clusters, groups, extra, i); }
    TimesOfStretches(clusters, tokens, times, |clusters|);
    assert times[..|clusters|] == times;
  }

  /** The letters of "policy" do not occur in a uid's line. */
  lemma NoPolicy(uid: int, times: string)
    requires Free(times, 'p')
    ensures !HasPolicy(LineText(uid, times))
  {
    var line := LineText(uid, times);
    NumberText(uid, 'p');
    assert Free(line, 'p');
    forall i | 0 <= i <= |line| - 6 ensures !PolicyAt(line, i) { assert line[i..i + 6][0] != "policy"[0]; }
  }

  /**
   * A uid's line of the cluster time file: its numbers, taken in groups of as many as each cluster
   * has cores, one group after the other, give each cluster ten times its own group's sum; numbers
   * behind the last group do not matter.
   */
  lemma ClusterLineByText(
    clusters: seq<nat>, uid: int, groups: seq<seq<int>>, extra: seq<int>, times: string, onBattery: bool)
    requires IsInt32(uid) && Sized(clusters, groups) && AllInt64(Flat(groups))
    requires times != "" && Spells(times, Flat(groups) + extra)
    ensures var line := LineText(uid, times);
            && ClusterLineFits(clusters, line) && LayoutAfter(clusters, line) == clusters
            && ClusterLine(clusters, line, onBattery) == Some(Line(uid, Tenfold(groups), onBattery))
  {
    SpellsMeaning(times, Flat(groups) + extra, ':');
    SpellsMeaning(times, Flat(groups) + extra, 'p');
    NoPolicy(uid, times);
    UidText(uid, times);
    LineTokens(uid, times);
    ClusterTimesByGroup(clusters, groups, extra);
  }

  /** Nothing of the grouped numbers is left out or taken twice. */
  lemma {:induction false} TenfoldTotal(groups: seq<seq<int>>)
    ensures Total(Tenfold(groups)) == 10 * Total(Flat(groups))
  {
    if groups != [] {
      TenfoldTotal(groups[1..]);
      TotalConcat(groups[0], Flat(groups[1..]));
      assert Tenfold(groups)[1..] == Tenfold(groups[1..]);
    }
  }

  // ---- A policy line ----

  /** Each name followed by its core count. */
  function Pairs(names: seq<string>, counts: seq<int>): (ts: seq<string>)
    requires |names| == |counts|
    ensures |ts| == 2 * |names|
  {
    if names == [] then [] else [names[0], ToString(counts[0])] + Pairs(names[1..], counts[1..])
  }

  lemma {:induction false} PairAt(names: seq<string>, counts: seq<int>, i: nat)
    requires |names| == |counts| && i < |names|
    ensures Pairs(names, counts)[2 * i] == names[i] && Pairs(names, counts)[2 * i + 1] == ToString(counts[i])
  {
    if i > 0 { PairAt(names[1..], counts[1..], i - 1); }
  }

  /** static_cast<uint16_t> of each count. */
  function Shorts(counts: seq<int>): seq<nat> {
    seq(|counts|, i requires 0 <= i < |counts| => counts[i] % 0x1_0000)
  }

  /** The n-th pair appends this core count. */
  ghost predicate CountAt(tokens: seq<string>, n: nat, count: nat)
    requires 2 * n + 2 <= |tokens|
  {
    CoreCounts(tokens, n + 1) == CoreCounts(tokens, n) + [count]
  }

  lemma OneCount(tokens: seq<string>, n: nat, count: int)
    requires 2 * n + 2 <= |tokens| && tokens[2 * n + 1] == ToString(count) && IsInt64(count)
    ensures CountAt(tokens, n, count % 0x1_0000)
  {
    ToStringParses(count);
  }

  lemma {:induction false} CountsOf(tokens: seq<string>, shorts: seq<nat>, n: nat)
    requires |tokens| == 2 * |shorts| && n <= |shorts|
    requires forall i :: 0 <= i < |shorts| ==> CountAt(tokens, i, shorts[i])
    ensures CoreCounts(tokens, n) == shorts[..n]
  {
    if n > 0 {
      CountsOf(tokens, shorts, n - 1);
      assert CountAt(tokens, n - 1, shorts[n - 1]);
      assert shorts[..n] == shorts[..n - 1] + [shorts[n - 1]];
    }
  }

  lemma CountsOfPairs(names: seq<string>, counts: seq<int>)
    requires |names| == |counts| && AllInt64(counts)
    ensures CoreCounts(Pairs(names, counts), |names|) == Shorts(counts)
  {
    var tokens, shorts := Pairs(names, counts), Shorts(counts);
    forall i | 0 <= i < |shorts| ensures CountAt(tokens, i, shorts[i]) {
      PairAt(names, counts, i);
      OneCount(tokens, i, counts[i]);
    }
    CountsOf(tokens, shorts, |shorts|);
    assert shorts[..|names|] == shorts;
  }

  lemma PairsAreTokens(names: seq<string>, counts: seq<int>)
    requires |names| == |counts| && AllTokens(names, ' ')
    ensures AllTokens(Pairs(names, counts), ' ')
  {
    var ts := Pairs(names, counts);
    forall i | 0 <= i < |ts| ensures ts[i] != "" && Free(ts[i], ' ') {
      PairAt(names, counts, i / 2);
      NumberText(counts[i / 2], ' ');
      assert i == 2 * (i / 2) || i == 2 * (i / 2) + 1;
    }
  }

  /** A line of "policy..." names and core counts, set apart by blanks in any way, appends the counts to the layout. */
  lemma PolicyLineByText(clusters: seq<nat>, names: seq<string>, counts: seq<int>, gaps: seq<string>, suffix: string)
    requires |names| == |counts| > 0 && AllTokens(names, ' ') && AllInt64(counts) && names[0] == "policy" + suffix
    requires |gaps| == 2 * |names| + 1 && Gaps(gaps, ' ')
    ensures var line := Weave(gaps, Pairs(names, counts));
            && HasPolicy(line) && ClusterLineFits(clusters, line)
            && LayoutAfter(clusters, line) == clusters + Shorts(counts)
  {
    var ts := Pairs(names, counts);
    var line := Weave(gaps, ts);
    PairsAreTokens(names, counts);
    SplitWeave(gaps, ts, ' ');
    PolicyTokens(clusters, names, counts, line);
    PairAt(names, counts, 0);
    PolicyFound(gaps[0], suffix, Weave(gaps[1..], ts[1..]), line);
  }

  lemma PolicyTokens(clusters: seq<nat>, names: seq<string>, counts: seq<int>, line: string)
    requires |names| == |counts| && AllInt64(counts) && Tokens(line, ' ') == Pairs(names, counts)
    ensures |Tokens(line, ' ')| % 2 == 0
    ensures HasPolicy(line) ==> LayoutAfter(clusters, line) == clusters + Shorts(counts)
  {
    CountsOfPairs(names, counts);
    LayoutOf(clusters, line, Tokens(line, ' '), |names|);
  }

  lemma LayoutOf(clusters: seq<nat>, line: string, tokens: seq<string>, n: nat)
    requires tokens == Tokens(line, ' ') && |tokens| == 2 * n
    ensures |tokens| % 2 == 0
    ensures HasPolicy(line) ==> LayoutAfter(clusters, line) == clusters + CoreCounts(tokens, n)
  {}

  lemma PolicyFound(gap: string, suffix: string, rest: string, line: string)
    requires line == gap + ("policy" + suffix) + rest
    ensures HasPolicy(line)
  {
    assert line[|gap|..|gap| + 6] == "policy";
    assert PolicyAt(line, |gap|);
  }
}
