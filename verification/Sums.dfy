/** Finite sums over sets, and the ascending key order in which a std::map is walked. */
module Sums {

  /** The sum of f over a finite set; the order of the picks does not matter (SumPick). */
  ghost function Sum<T(!new)>(s: set<T>, f: T -> int): int {
    if s == {} then 0 else
    var x :| x in s;
    f(x) + Sum(s - {x}, f)
  }

  lemma {:induction false} SumPick<T(!new)>(s: set<T>, f: T -> int, x: T)
    requires x in s
    ensures Sum(s, f) == f(x) + Sum(s - {x}, f)
    decreases s
  {
    var y :| y in s && Sum(s, f) == f(y) + Sum(s - {y}, f);
    if y != x {
      SumPick(s - {y}, f, x);
      SumPick(s - {x}, f, y);
      assert s - {y} - {x} == s - {x} - {y};
    }
  }

  /** Only the members where f is non-zero matter. */
  lemma {:induction false} SumWiden<T(!new)>(s: set<T>, t: set<T>, f: T -> int)
    requires s <= t
    requires forall x :: x in t && x !in s ==> f(x) == 0
    ensures Sum(s, f) == Sum(t, f)
    decreases t - s
  {
    if s == t {
    } else {
      var x :| x in t && x !in s;
      SumPick(s + {x}, f, x);
      assert s + {x} - {x} == s;
      SumWiden(s + {x}, t, f);
    }
  }

  lemma {:induction false} SumEqual<T(!new)>(s: set<T>, f: T -> int, g: T -> int)
    requires forall x :: x in s ==> f(x) == g(x)
    ensures Sum(s, f) == Sum(s, g)
    decreases s
  {
    if s == {} {
    } else {
      var x :| x in s;
      SumPick(s, f, x);
      SumPick(s, g, x);
      SumEqual(s - {x}, f, g);
    }
  }

  lemma {:induction false} SumAddScaled<T(!new)>(s: set<T>, f: T -> int, g: T -> int, h: T -> int, b: int)
    requires forall x :: x in s ==> h(x) == f(x) + b * g(x)
    ensures Sum(s, h) == Sum(s, f) + b * Sum(s, g)
    decreases s
  {
    if s == {} {
    } else {
      var x :| x in s;
      SumPick(s, f, x);
      SumPick(s, g, x);
      SumPick(s, h, x);
      SumAddScaled(s - {x}, f, g, h, b);
      assert b * (g(x) + Sum(s - {x}, g)) == b * g(x) + b * Sum(s - {x}, g);
    }
  }

  /** Only x contributes. */
  lemma {:induction false} SumOnly<T(!new)>(s: set<T>, f: T -> int, x: T)
    requires x in s && forall y :: y in s && y != x ==> f(y) == 0
    ensures Sum(s, f) == f(x)
  {
    SumPick(s, f, x);
    SumZero(s - {x}, f);
  }

  lemma {:induction false} SumZero<T(!new)>(s: set<T>, f: T -> int)
    requires forall x :: x in s ==> f(x) == 0
    ensures Sum(s, f) == 0
  {
    SumWiden({}, s, f);
  }

  lemma Associate<T>(a: seq<T>, b: seq<T>, c: seq<T>)
    ensures a + (b + c) == (a + b) + c
  {}

  // ---- Ascending order ----

  ghost predicate Ascending(q: seq<int>) {
    forall i, j :: 0 <= i < j < |q| ==> q[i] < q[j]
  }

  lemma LeastExists(s: set<int>)
    requires s != {}
    ensures exists x :: x in s && forall y :: y in s ==> x <= y
  {
    assert (forall x :: x !in s) ==> s == {};
    var x :| x in s;
    if exists y :: y in s && y < x {
      var y :| y in s && y < x;
      assert y in s - {x};
      LeastExists(s - {x});
      var z :| z in s - {x} && forall y :: y in s - {x} ==> z <= y;
      assert forall y :: y in s ==> y == x || y in s - {x};
    }
  }

  /** The keys of a std::map<int32_t, ...> in the order a range-for visits them. */
  function Sorted(s: set<int>): (q: seq<int>)
    ensures Ascending(q)
    ensures forall x :: x in q <==> x in s
    decreases s
  {
    if s == {} then [] else
      LeastExists(s);
      var x :| x in s && forall y :: y in s ==> x <= y;
      [x] + Sorted(s - {x})
  }

  /** Two ascending listings of the same members start alike. */
  lemma SameFirst(p: seq<int>, q: seq<int>)
    requires Ascending(p) && Ascending(q) && p != []
    requires forall x :: x in p <==> x in q
    ensures q != [] && p[0] == q[0]
  {
    assert p[0] in p && p[0] in q;
    var j :| 0 <= j < |q| && q[j] == p[0];
    assert q[0] <= q[j];
    assert q[0] in q && q[0] in p;
    var i :| 0 <= i < |p| && p[i] == q[0];
    assert p[0] <= p[i];
  }

  lemma TailMembers(q: seq<int>)
    requires Ascending(q) && q != []
    ensures forall x :: x in q[1..] <==> x in q && x != q[0]
  {
    assert q == [q[0]] + q[1..];
    assert forall i :: 0 <= i < |q[1..]| ==> q[1..][i] == q[i + 1] > q[0];
  }

  /** An ascending listing is determined by its members. */
  lemma {:induction false} AscendingUnique(p: seq<int>, q: seq<int>)
    requires Ascending(p) && Ascending(q)
    requires forall x :: x in p <==> x in q
    ensures p == q
    decreases |p|
  {
    forall i | 0 <= i < |q| ensures q[i] in p { assert q[i] in q; }
    assert |q| > 0 ==> q[0] in p;
    if p != [] {
      SameFirst(p, q);
      TailMembers(p);
      TailMembers(q);
      AscendingUnique(p[1..], q[1..]);
    }
  }

  lemma {:induction false} AscendingSize(q: seq<int>, s: set<int>)
    requires Ascending(q) && forall x :: x in q <==> x in s
    ensures |q| == |s|
    decreases |q|
  {
    if q == [] {
      assert forall x :: x in s ==> x in q;
      assert forall x :: x !in s;
    } else {
      TailMembers(q);
      AscendingSize(q[1..], s - {q[0]});
      assert q[0] in s;
      assert |s - {q[0]}| == |s| - 1;
    }
  }
}
