/** `sorted(xs, key=lambda x: x[1], reverse=True)` on `(id, score)` pairs, as the executor
    selection of `Agent` and the suggestions of `SoftCoordinator` use it: a stable sort by
    descending score, where pairs of equal score keep their input order. */
module Ranking {

  /** An `(id, score)` pair. */
  type Scored = (string, real)

  /** Scores never increase from left to right. */
  predicate SortedDesc(s: seq<Scored>)
  {
    forall i, j :: 0 <= i < j < |s| ==> s[i].1 >= s[j].1
  }

  /** The pairs of `s` whose score is `v`, in the order of `s`. */
  function WithScore(s: seq<Scored>, v: real): seq<Scored>
  {
    if s == [] then [] else (if s[0].1 == v then [s[0]] else []) + WithScore(s[1..], v)
  }

  /** Puts `x` after every pair of the sorted `s` whose score is at least `x`'s. */
  function Insert(s: seq<Scored>, x: Scored): (r: seq<Scored>)
    ensures |r| == |s| + 1
  {
    if s == [] then [x]
    else if s[0].1 >= x.1 then [s[0]] + Insert(s[1..], x)
    else [x] + s
  }

  /** The stable descending sort: each pair in turn is inserted after its equals. */
  function SortDesc(s: seq<Scored>): (r: seq<Scored>)
    ensures |r| == |s|
  {
    if s == [] then [] else Insert(SortDesc(s[..|s| - 1]), s[|s| - 1])
  }

  lemma {:induction false} WithScoreAppend(a: seq<Scored>, b: seq<Scored>, v: real)
    ensures WithScore(a + b, v) == WithScore(a, v) + WithScore(b, v)
    decreases |a|
  {
    if a == [] {
      assert a + b == b;
    } else {
      var head := if a[0].1 == v then [a[0]] else [];
      assert (a + b)[0] == a[0] && (a + b)[1..] == a[1..] + b;
      WithScoreAppend(a[1..], b, v);
      assert WithScore(a + b, v) == head + (WithScore(a[1..], v) + WithScore(b, v));
      assert head + (WithScore(a[1..], v) + WithScore(b, v)) == (head + WithScore(a[1..], v)) + WithScore(b, v);
    }
  }

  /** No pair scores `v` when every score is below it. */
  lemma {:induction false} WithScoreNone(s: seq<Scored>, v: real)
    requires forall i :: 0 <= i < |s| ==> s[i].1 < v
    ensures WithScore(s, v) == []
    decreases |s|
  {
    if s != [] {
      WithScoreNone(s[1..], v);
    }
  }

  /** Inserting under a bound every score respects keeps every score under it. */
  lemma {:induction false} InsertBounded(s: seq<Scored>, x: Scored, b: real)
    requires x.1 <= b && forall i :: 0 <= i < |s| ==> s[i].1 <= b
    ensures forall k :: 0 <= k < |Insert(s, x)| ==> Insert(s, x)[k].1 <= b
    decreases |s|
  {
    if s != [] && s[0].1 >= x.1 {
      InsertBounded(s[1..], x, b);
    }
  }

  lemma {:induction false} InsertSorted(s: seq<Scored>, x: Scored)
    requires SortedDesc(s)
    ensures SortedDesc(Insert(s, x))
    decreases |s|
  {
    if s != [] && s[0].1 >= x.1 {
      var rest := Insert(s[1..], x);
      InsertSorted(s[1..], x);
      InsertBounded(s[1..], x, s[0].1);
      assert Insert(s, x) == [s[0]] + rest;
    }
  }

  lemma {:induction false} InsertMultiset(s: seq<Scored>, x: Scored)
    ensures multiset(Insert(s, x)) == multiset(s) + multiset{x}
    decreases |s|
  {
    if s != [] {
      assert s == [s[0]] + s[1..];
      if s[0].1 >= x.1 {
        InsertMultiset(s[1..], x);
      }
    }
  }

  lemma {:induction false} InsertWithScore(s: seq<Scored>, x: Scored, v: real)
    requires SortedDesc(s)
    ensures WithScore(Insert(s, x), v) == WithScore(s, v) + (if x.1 == v then [x] else [])
    decreases |s|
  {
    if s == [] {
    } else if s[0].1 >= x.1 {
      var head := if s[0].1 == v then [s[0]] else [];
      var tail := if x.1 == v then [x] else [];
      assert SortedDesc(s[1..]);
      InsertWithScore(s[1..], x, v);
      var r := Insert(s, x);
      assert r[0] == s[0] && r[1..] == Insert(s[1..], x);
      calc {
        WithScore(r, v);
        head + WithScore(Insert(s[1..], x), v);
        head + (WithScore(s[1..], v) + tail);
        (head + WithScore(s[1..], v)) + tail;
      }
    } else {
      var r := [x] + s;
      assert r[0] == x && r[1..] == s;
      if x.1 == v {
        WithScoreNone(s, v);
      }
    }
  }

  /** The sort yields its input in descending order of score, as a permutation, and keeps pairs
      of equal score in their input order. */
  lemma {:induction false} SortDescSpec(s: seq<Scored>)
    ensures SortedDesc(SortDesc(s))
    ensures multiset(SortDesc(s)) == multiset(s)
    ensures forall v :: WithScore(SortDesc(s), v) == WithScore(s, v)
    decreases |s|
  {
    if s != [] {
      var init, last := s[..|s| - 1], s[|s| - 1];
      SortDescSpec(init);
      InsertSorted(SortDesc(init), last);
      InsertMultiset(SortDesc(init), last);
      assert s == init + [last];
      forall v ensures WithScore(SortDesc(s), v) == WithScore(s, v) {
        InsertWithScore(SortDesc(init), last, v);
        WithScoreAppend(init, [last], v);
        assert [last][1..] == [];
      }
    }
  }
}
