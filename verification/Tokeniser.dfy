/** CpuTimeReader::Split: the tokens between delimiters, however many delimiters there are. */
module Tokeniser {

  ghost predicate Free(t: string, d: char) { forall i :: 0 <= i < |t| ==> t[i] != d }

  ghost predicate Only(g: string, d: char) { forall i :: 0 <= i < |g| ==> g[i] == d }

  /** Length of the stretch without d that s starts with. */
  function Stretch(s: string, d: char): (n: nat)
    ensures n <= |s| && Free(s[..n], d) && (n < |s| ==> s[n] == d)
  {
    if s == "" || s[0] == d then 0
    else
      var n := 1 + Stretch(s[1..], d);
      assert forall i :: 0 < i < n ==> s[i] == s[1..][i - 1];
      n
  }

  function Tokens(s: string, d: char): seq<string>
    decreases |s|
  {
    if s == "" then []
    else if s[0] == d then Tokens(s[1..], d)
    else [s[..Stretch(s, d)]] + Tokens(s[Stretch(s, d)..], d)
  }

  // ---- The loop ----

  /** std::string::find_first_not_of, |s| standing for npos. */
  method FindFirstNotOf(s: string, d: char, from: nat) returns (at: nat)
    requires from <= |s|
    ensures from <= at <= |s| && Only(s[from..at], d) && (at < |s| ==> s[at] != d)
  {
    at := from;
    while at < |s| && s[at] == d
      invariant from <= at <= |s| && Only(s[from..at], d)
    {
      assert s[from..at + 1] == s[from..at] + [s[at]];
      at := at + 1;
    }
  }

  /** std::string::find, |s| standing for npos. */
  method Find(s: string, d: char, from: nat) returns (at: nat)
    requires from <= |s|
    ensures from <= at <= |s| && Free(s[from..at], d) && (at < |s| ==> s[at] == d)
  {
    at := from;
    while at < |s| && s[at] != d
      invariant from <= at <= |s| && Free(s[from..at], d)
    {
      assert s[from..at + 1] == s[from..at] + [s[at]];
      at := at + 1;
    }
  }

  method Split(origin: string, delimiter: char) returns (splited: seq<string>)
    ensures splited == Tokens(origin, delimiter)
  {
    splited := [];
    var end: nat := 0;
    var start := FindFirstNotOf(origin, delimiter, end);
    SkipGap(origin, delimiter, 0, start);
    while start < |origin|
      invariant end <= start <= |origin| && (start < |origin| ==> origin[start] != delimiter)
      invariant splited + Tokens(origin[start..], delimiter) == Tokens(origin, delimiter)
      decreases |origin| - start
    {
      end := Find(origin, delimiter, start);
      TakeToken(origin, delimiter, start, end);
      splited := splited + [origin[start..end]];
      start := FindFirstNotOf(origin, delimiter, end);
      SkipGap(origin, delimiter, end, start);
    }
    assert origin[start..] == "";
  }

  lemma {:induction false} SkipGap(s: string, d: char, from: nat, to: nat)
    requires from <= to <= |s| && Only(s[from..to], d)
    ensures Tokens(s[from..], d) == Tokens(s[to..], d)
    decreases |s| - from
  {
    if from < to {
      assert s[from..to][0] == d;
      assert s[from..][1..] == s[from + 1..];
      assert s[from + 1..to] == s[from..to][1..];
      SkipGap(s, d, from + 1, to);
    }
  }

  lemma {:induction false} StretchIs(t: string, rest: string, d: char)
    requires Free(t, d) && (rest == "" || rest[0] == d)
    ensures Stretch(t + rest, d) == |t|
  {
    if t == "" {
      assert t + rest == rest;
    } else {
      assert (t + rest)[1..] == t[1..] + rest;
      StretchIs(t[1..], rest, d);
    }
  }

  lemma TakeToken(s: string, d: char, start: nat, end: nat)
    requires start < |s| && s[start] != d && start <= end <= |s|
    requires Free(s[start..end], d) && (end < |s| ==> s[end] == d)
    ensures start < end
    ensures Tokens(s[start..], d) == [s[start..end]] + Tokens(s[end..], d)
  {
    assert s[start..] == s[start..end] + s[end..];
    StretchIs(s[start..end], s[end..], d);
  }

  // ---- What the tokens are ----

  ghost predicate AllTokens(ts: seq<string>, d: char) {
    forall i :: 0 <= i < |ts| ==> ts[i] != "" && Free(ts[i], d)
  }

  function Concat(ts: seq<string>): string {
    if ts == [] then "" else ts[0] + Concat(ts[1..])
  }

  function Without(s: string, d: char): string {
    if s == "" then "" else (if s[0] == d then "" else [s[0]]) + Without(s[1..], d)
  }

  lemma {:induction false} WithoutConcat(a: string, b: string, d: char)
    ensures Without(a + b, d) == Without(a, d) + Without(b, d)
  {
    if a == "" {
      assert a + b == b;
    } else {
      assert (a + b)[1..] == a[1..] + b;
      WithoutConcat(a[1..], b, d);
    }
  }

  lemma {:induction false} WithoutFree(t: string, d: char)
    requires Free(t, d)
    ensures Without(t, d) == t
  {
    if t != "" { WithoutFree(t[1..], d); }
  }

  /** Tokens are non-empty, hold no delimiter, and together are the string with the delimiters removed. */
  lemma {:induction false} TokensMeaning(s: string, d: char)
    ensures AllTokens(Tokens(s, d), d)
    ensures Concat(Tokens(s, d)) == Without(s, d)
    decreases |s|
  {
    if s == "" {
    } else if s[0] == d {
      TokensMeaning(s[1..], d);
    } else {
      var n := Stretch(s, d);
      TokensMeaning(s[n..], d);
      assert s == s[..n] + s[n..];
      WithoutConcat(s[..n], s[n..], d);
      WithoutFree(s[..n], d);
      assert ([s[..n]] + Tokens(s[n..], d))[1..] == Tokens(s[n..], d);
    }
  }

  /** gaps[0] ts[0] gaps[1] ts[1] ... gaps[n]. */
  function Weave(gaps: seq<string>, ts: seq<string>): string
    requires |gaps| == |ts| + 1
  {
    if ts == [] then gaps[0] else gaps[0] + ts[0] + Weave(gaps[1..], ts[1..])
  }

  /** Gaps of delimiters, none empty between two tokens. */
  ghost predicate Gaps(gaps: seq<string>, d: char) {
    && (forall i :: 0 <= i < |gaps| ==> Only(gaps[i], d))
    && (forall i :: 0 < i < |gaps| - 1 ==> gaps[i] != "")
  }

  lemma OneToken(g: string, t: string, rest: string, d: char)
    requires Only(g, d) && t != "" && Free(t, d) && (rest == "" || rest[0] == d)
    ensures Tokens(g + t + rest, d) == [t] + Tokens(rest, d)
  {
    var s := g + t + rest;
    assert s[0..|g|] == g;
    SkipGap(s, d, 0, |g|);
    assert s[0..] == s;
    var e := |g| + |t|;
    assert s[|g|..e] == t && s[e..] == rest;
    TakeToken(s, d, |g|, e);
  }

  /** Splitting undoes every way of setting tokens apart by one or more delimiters. */
  lemma {:induction false} SplitWeave(gaps: seq<string>, ts: seq<string>, d: char)
    requires |gaps| == |ts| + 1 && Gaps(gaps, d) && AllTokens(ts, d)
    ensures Tokens(Weave(gaps, ts), d) == ts
    decreases |ts|
  {
    if ts == [] {
      SkipGap(gaps[0], d, 0, |gaps[0]|);
      assert gaps[0][0..] == gaps[0] && gaps[0][|gaps[0]|..] == "";
    } else {
      var rest := Weave(gaps[1..], ts[1..]);
      SplitWeave(gaps[1..], ts[1..], d);
      assert rest != "" ==> rest[0] == d by { WeaveStart(gaps[1..], ts[1..], d); }
      OneToken(gaps[0], ts[0], rest, d);
    }
  }

  lemma WeaveStart(gaps: seq<string>, ts: seq<string>, d: char)
    requires |gaps| == |ts| + 1 && (forall i :: 0 <= i < |gaps| ==> Only(gaps[i], d))
    requires ts != [] ==> gaps[0] != ""
    ensures Weave(gaps, ts) != "" ==> Weave(gaps, ts)[0] == d
  {
    assert Only(gaps[0], d);
  }

  /** And every string is its tokens set apart in such a way: Split loses only the delimiters. */
  lemma {:induction false} WeaveTokens(s: string, d: char) returns (gaps: seq<string>)
    ensures |gaps| == |Tokens(s, d)| + 1 && Gaps(gaps, d)
    ensures Weave(gaps, Tokens(s, d)) == s
    ensures s != "" && s[0] != d ==> gaps[0] == ""
    ensures s != "" && s[0] == d ==> gaps[0] != ""
    decreases |s|
  {
    if s == "" {
      gaps := [""];
    } else if s[0] == d {
      var inner := WeaveTokens(s[1..], d);
      gaps := [[d] + inner[0]] + inner[1..];
      WeaveDelimiter(d, inner, Tokens(s, d));
      assert s == [d] + s[1..];
    } else {
      var n := Stretch(s, d);
      var inner := WeaveTokens(s[n..], d);
      gaps := [""] + inner;
      WeaveToken(s[..n], inner, Tokens(s[n..], d));
      assert s == s[..n] + s[n..];
    }
  }

  lemma WeaveDelimiter(d: char, gaps: seq<string>, ts: seq<string>)
    requires |gaps| == |ts| + 1
    ensures Weave([[d] + gaps[0]] + gaps[1..], ts) == [d] + Weave(gaps, ts)
  {
    var more := [[d] + gaps[0]] + gaps[1..];
    assert more[1..] == gaps[1..];
    if ts != [] {
      assert [d] + gaps[0] + ts[0] + Weave(gaps[1..], ts[1..]) == [d] + (gaps[0] + ts[0] + Weave(gaps[1..], ts[1..]));
    }
  }

  lemma WeaveToken(t: string, gaps: seq<string>, ts: seq<string>)
    requires |gaps| == |ts| + 1
    ensures Weave([""] + gaps, [t] + ts) == t + Weave(gaps, ts)
  {
    assert ([""] + gaps)[1..] == gaps && ([t] + ts)[1..] == ts;
    assert "" + t == t;
  }

  /** So the tokens of s are exactly the texts that s is woven of. */
  lemma {:induction false} TokensExactly(s: string, d: char, ts: seq<string>)
    requires AllTokens(ts, d)
    ensures Tokens(s, d) == ts <==> exists gaps :: |gaps| == |ts| + 1 && Gaps(gaps, d) && Weave(gaps, ts) == s
  {
    if Tokens(s, d) == ts {
      var gaps := WeaveTokens(s, d);
    }
    if gaps :| |gaps| == |ts| + 1 && Gaps(gaps, d) && Weave(gaps, ts) == s {
      SplitWeave(gaps, ts, d);
    }
  }

  // ---- Join ----

  function Join(ts: seq<string>, d: char): string {
    if ts == [] then "" else if |ts| == 1 then ts[0] else ts[0] + [d] + Join(ts[1..], d)
  }

  lemma BareToken(t: string, rest: string, d: char)
    requires t != "" && Free(t, d) && (rest == "" || rest[0] == d)
    ensures Tokens(t + rest, d) == [t] + Tokens(rest, d)
  {
    OneToken("", t, rest, d);
    assert "" + t == t;
  }

  lemma AfterDelimiter(s: string, d: char)
    ensures Tokens([d] + s, d) == Tokens(s, d)
  {
    assert ([d] + s)[1..] == s;
  }

  /** Single delimiters in particular. */
  lemma {:induction false} SplitJoin(ts: seq<string>, d: char)
    requires AllTokens(ts, d)
    ensures Tokens(Join(ts, d), d) == ts
  {
    if |ts| == 1 {
      BareToken(ts[0], "", d);
      assert ts[0] + "" == ts[0];
    } else if |ts| > 1 {
      var rest := Join(ts[1..], d);
      SplitJoin(ts[1..], d);
      BareToken(ts[0], [d] + rest, d);
      AfterDelimiter(rest, d);
      assert ts[0] + ([d] + rest) == Join(ts, d);
    }
  }
}
