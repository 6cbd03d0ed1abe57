/**
 * `difflib.SequenceMatcher(None, a, b).ratio()`: the Ratcliff/Obershelp similarity. The longest
 * common block is found (earliest in `a`, then earliest in `b`, among the longest), then the same
 * is done recursively left and right of it; the ratio is twice the matched length over the
 * total length. No element is treated as junk: `isjunk` is None and the automatic "popular
 * element" heuristic only engages for a second string of 200 characters or more.
 */
module Similarity {

  /** A matching block: `a[i..i+k] == b[j..j+k]`. */
  datatype Block = Block(i: nat, j: nat, k: nat)

  /** The length of the common run starting at `a[i]` and `b[j]`. */
  function MatchLen(a: string, b: string, i: nat, j: nat): (k: nat)
    requires i <= |a| && j <= |b|
    ensures i + k <= |a| && j + k <= |b|
    decreases |a| - i
  {
    if i < |a| && j < |b| && a[i] == b[j] then 1 + MatchLen(a, b, i + 1, j + 1) else 0
  }

  /** The run is common to both strings and cannot be extended to the right. */
  lemma {:induction false} MatchLenRun(a: string, b: string, i: nat, j: nat)
    requires i <= |a| && j <= |b|
    ensures var k := MatchLen(a, b, i, j);
            a[i..i + k] == b[j..j + k] && (i + k < |a| && j + k < |b| ==> a[i + k] != b[j + k])
    decreases |a| - i
  {
    var k := MatchLen(a, b, i, j);
    if k > 0 {
      MatchLenRun(a, b, i + 1, j + 1);
      assert a[i..i + k] == [a[i]] + a[i + 1..i + k];
      assert b[j..j + k] == [b[j]] + b[j + 1..j + k];
    }
  }

  /** Pair (i1, j1) comes before (i2, j2) in the scan order. */
  predicate Before(i1: nat, j1: nat, i2: nat, j2: nat)
  {
    i1 < i2 || (i1 == i2 && j1 < j2)
  }

  /** `best` is a block the scan may hold: a real run, or the empty block at the origin. */
  predicate Candidate(a: string, b: string, best: Block)
  {
    && best.i <= |a| && best.j <= |b|
    && (best.k > 0 ==> best.k == MatchLen(a, b, best.i, best.j))
    && (best.k == 0 ==> best == Block(0, 0, 0))
  }

  /** The invariant of the scan at cursor (i, j): no scanned pair starts a longer run than
      `best`, and every pair scanned before `best` starts a strictly shorter one. */
  ghost predicate ScanInv(a: string, b: string, i: nat, j: nat, best: Block)
  {
    && Candidate(a, b, best)
    && (forall i': nat, j': nat :: i' < |a| && j' < |b| && Before(i', j', i, j) ==> MatchLen(a, b, i', j') <= best.k)
    && (forall i': nat, j': nat :: i' < |a| && j' < |b| && Before(i', j', best.i, best.j) ==> MatchLen(a, b, i', j') < best.k)
  }

  /** Scans row `i` from column `j`, keeping the first longest block. */
  function ScanRow(a: string, b: string, i: nat, j: nat, best: Block): (r: Block)
    requires i < |a| && j <= |b|
    decreases |b| - j
  {
    if j == |b| then best
    else
      var k := MatchLen(a, b, i, j);
      ScanRow(a, b, i, j + 1, if k > best.k then Block(i, j, k) else best)
  }

  lemma {:induction false} ScanRowInv(a: string, b: string, i: nat, j: nat, best: Block)
    requires i < |a| && j <= |b| && ScanInv(a, b, i, j, best)
    ensures ScanInv(a, b, i + 1, 0, ScanRow(a, b, i, j, best))
    decreases |b| - j
  {
    if j == |b| {
      assert forall i': nat, j': nat :: i' < |a| && j' < |b| && Before(i', j', i + 1, 0) ==> Before(i', j', i, j);
    } else {
      var k := MatchLen(a, b, i, j);
      var next := if k > best.k then Block(i, j, k) else best;
      assert ScanInv(a, b, i, j + 1, next);
      ScanRowInv(a, b, i, j + 1, next);
    }
  }

  /** Scans rows `i..` of the table of start pairs. */
  function ScanFrom(a: string, b: string, i: nat, best: Block): (r: Block)
    requires i <= |a|
    decreases |a| - i
  {
    if i == |a| then best else ScanFrom(a, b, i + 1, ScanRow(a, b, i, 0, best))
  }

  lemma {:induction false} ScanFromInv(a: string, b: string, i: nat, best: Block)
    requires i <= |a| && ScanInv(a, b, i, 0, best)
    ensures ScanInv(a, b, |a|, 0, ScanFrom(a, b, i, best))
    decreases |a| - i
  {
    if i < |a| {
      ScanRowInv(a, b, i, 0, best);
      ScanFromInv(a, b, i + 1, ScanRow(a, b, i, 0, best));
    }
  }

  /** `find_longest_match` over the whole of both strings: a common block (see
      `LongestMatchIsFirstLongest` for which one); `(0, 0, 0)` when nothing matches. */
  function LongestMatch(a: string, b: string): (r: Block)
    ensures r.i + r.k <= |a| && r.j + r.k <= |b|
    ensures r.k > 0 ==> r.k == MatchLen(a, b, r.i, r.j)
    ensures r.k == 0 ==> r == Block(0, 0, 0)
  {
    ScanFromInv(a, b, 0, Block(0, 0, 0));
    ScanFrom(a, b, 0, Block(0, 0, 0))
  }

  /** The block found is a longest one, and the first of the longest in scan order: earliest in
      `a`, then earliest in `b`. */
  lemma LongestMatchIsFirstLongest(a: string, b: string)
    ensures var r := LongestMatch(a, b);
            (forall i': nat, j': nat :: i' < |a| && j' < |b| ==> MatchLen(a, b, i', j') <= r.k)
            && (forall i': nat, j': nat :: i' < |a| && j' < |b| && Before(i', j', r.i, r.j) ==> MatchLen(a, b, i', j') < r.k)
  {
    ScanFromInv(a, b, 0, Block(0, 0, 0));
    assert forall i': nat, j': nat :: i' < |a| && j' < |b| ==> Before(i', j', |a|, 0);
  }

  /** The total size of the matching blocks (`sum(m.size for m in get_matching_blocks())`). */
  function MatchCount(a: string, b: string): (m: nat)
    ensures m <= |a| && m <= |b|
    decreases |a| + |b|, 2
  {
    if a == [] || b == [] then 0 else MatchSplit(a, b)
  }

  /** The block `find_longest_match` picks, and the blocks around it. */
  function MatchSplit(a: string, b: string): (m: nat)
    ensures m <= |a| && m <= |b|
    decreases |a| + |b|, 1
  {
    MatchAround(a, b, LongestMatch(a, b))
  }

  /** The matching blocks around `blk`: `blk` itself and those found left and right of it. */
  function MatchAround(a: string, b: string, blk: Block): (m: nat)
    requires blk.i + blk.k <= |a| && blk.j + blk.k <= |b|
    ensures m <= |a| && m <= |b|
    decreases |a| + |b|, 0
  {
    if blk.k == 0 then 0
    else blk.k + MatchCount(a[..blk.i], b[..blk.j]) + MatchCount(a[blk.i + blk.k..], b[blk.j + blk.k..])
  }

  /** `ratio()`: 2·M / (|a| + |b|), and 1.0 for two empty strings. */
  function Ratio(a: string, b: string): (r: real)
    ensures 0.0 <= r <= 1.0
  {
    if |a| + |b| == 0 then 1.0
    else
      var m := MatchCount(a, b);
      FractionInUnit(2 * m, |a| + |b|);
      (2 * m) as real / (|a| + |b|) as real
  }

  lemma FractionInUnit(x: nat, y: nat)
    requires x <= y && y > 0
    ensures 0.0 <= x as real / y as real <= 1.0
  {
  }

  /** A string matched against itself is one block of its full length. */
  lemma MatchCountSelf(a: string)
    ensures MatchCount(a, a) == |a|
  {
    if a != [] {
      var blk := LongestMatch(a, a);
      LongestMatchIsFirstLongest(a, a);
      MatchLenSelf(a, 0);
      assert blk.k == |a|;
      assert blk.i == 0 && blk.j == 0;
      assert a[..0] == [] && a[|a|..] == [];
      assert MatchAround(a, a, blk) == |a|;
      assert MatchCount(a, a) == MatchSplit(a, a);
    }
  }

  lemma {:induction false} MatchLenSelf(a: string, i: nat)
    requires i <= |a|
    ensures MatchLen(a, a, i, i) == |a| - i
    decreases |a| - i
  {
    if i < |a| {
      MatchLenSelf(a, i + 1);
    }
  }

  /** Equal strings have ratio 1. */
  lemma RatioSelf(a: string)
    ensures Ratio(a, a) == 1.0
  {
    if |a| > 0 {
      MatchCountSelf(a);
      HalfOfDouble(|a|);
    }
  }

  lemma HalfOfDouble(n: nat)
    requires n > 0
    ensures (2 * n) as real / (n + n) as real == 1.0
  {
  }

  /** The number of positions of `a` whose character occurs somewhere in `b`. */
  function CountIn(a: string, b: string): (n: nat)
    ensures n <= |a|
  {
    if a == [] then 0 else (if a[0] in b then 1 else 0) + CountIn(a[1..], b)
  }

  lemma {:induction false} CountInAppend(x: string, y: string, b: string)
    ensures CountIn(x + y, b) == CountIn(x, b) + CountIn(y, b)
  {
    if x != [] {
      assert (x + y)[1..] == x[1..] + y;
      CountInAppend(x[1..], y, b);
    } else {
      assert x + y == y;
    }
  }

  lemma {:induction false} CountInOfCommon(x: string, b: string)
    requires forall t :: 0 <= t < |x| ==> x[t] in b
    ensures CountIn(x, b) == |x|
  {
    if x != [] {
      CountInOfCommon(x[1..], b);
    }
  }

  /** Counting over `a` cut into three pieces at `i` and `i + k`. */
  lemma CountInSplit3(a: string, i: nat, k: nat, b: string)
    requires i + k <= |a|
    ensures CountIn(a, b) == CountIn(a[..i], b) + CountIn(a[i..i + k], b) + CountIn(a[i + k..], b)
  {
    assert a == (a[..i] + a[i..i + k]) + a[i + k..];
    CountInAppend(a[..i] + a[i..i + k], a[i + k..], b);
    CountInAppend(a[..i], a[i..i + k], b);
  }

  /** Every character of `b` occurs in `c`. */
  predicate Within(b: string, c: string)
  {
    forall ch :: ch in b ==> ch in c
  }

  /** Every character of a matched block occurs in `b`, hence in any `c` that `b` is within. */
  lemma BlockCountIn(a: string, b: string, blk: Block, c: string)
    requires blk.k > 0 && blk.i + blk.k <= |a| && blk.j + blk.k <= |b|
    requires blk.k == MatchLen(a, b, blk.i, blk.j)
    requires Within(b, c)
    ensures CountIn(a[blk.i..blk.i + blk.k], c) == blk.k
  {
    var mid := a[blk.i..blk.i + blk.k];
    MatchLenRun(a, b, blk.i, blk.j);
    forall t | 0 <= t < |mid|
      ensures mid[t] in c
    {
      assert mid[t] == b[blk.j..blk.j + blk.k][t];
      assert mid[t] in b;
    }
    CountInOfCommon(mid, c);
  }

  /** The characters of a slice are among those of the whole. */
  lemma SliceWithin(b: string, lo: nat, hi: nat, c: string)
    requires lo <= hi <= |b| && Within(b, c)
    ensures Within(b[lo..hi], c)
  {
    forall ch | ch in b[lo..hi]
      ensures ch in c
    {
      var t :| lo <= t < hi && b[t] == ch;
    }
  }

  /** The parts of `b` left and right of a block are within `c` too. */
  lemma SidesWithin(b: string, j: nat, k: nat, c: string)
    requires j + k <= |b| && Within(b, c)
    ensures Within(b[..j], c) && Within(b[j + k..], c)
  {
    SliceWithin(b, 0, j, c);
    SliceWithin(b, j + k, |b|, c);
    assert b[0..j] == b[..j] && b[j + k..|b|] == b[j + k..];
  }

  /** Only characters of `a` that also occur in `b` can be matched. */
  lemma MatchCountBound(a: string, b: string)
    ensures MatchCount(a, b) <= CountIn(a, b)
  {
    MatchCountWithin(a, b, b);
  }

  /** The same, counting against any `c` holding every character of `b`. */
  lemma {:induction false} MatchCountWithin(a: string, b: string, c: string)
    requires Within(b, c)
    ensures MatchCount(a, b) <= CountIn(a, c)
    decreases |a| + |b|, 1
  {
    if a != [] && b != [] {
      MatchAroundWithin(a, b, LongestMatch(a, b), c);
    }
  }

  lemma {:induction false} MatchAroundWithin(a: string, b: string, blk: Block, c: string)
    requires blk.i + blk.k <= |a| && blk.j + blk.k <= |b|
    requires blk.k > 0 ==> blk.k == MatchLen(a, b, blk.i, blk.j)
    requires Within(b, c)
    ensures MatchAround(a, b, blk) <= CountIn(a, c)
    decreases |a| + |b|, 0
  {
    if blk.k > 0 {
      SidesWithin(b, blk.j, blk.k, c);
      MatchCountWithin(a[..blk.i], b[..blk.j], c);
      MatchCountWithin(a[blk.i + blk.k..], b[blk.j + blk.k..], c);
      BlockCountIn(a, b, blk, c);
      CountInSplit3(a, blk.i, blk.k, c);
      var left, right := MatchCount(a[..blk.i], b[..blk.j]), MatchCount(a[blk.i + blk.k..], b[blk.j + blk.k..]);
      assert MatchAround(a, b, blk) == blk.k + left + right;
    }
  }

  /** Hence an upper bound on the ratio from the shared characters alone. */
  lemma RatioBound(a: string, b: string)
    requires |a| + |b| > 0
    ensures Ratio(a, b) <= (2 * CountIn(a, b)) as real / (|a| + |b|) as real
  {
    MatchCountBound(a, b);
    DivMonotone((2 * MatchCount(a, b)) as real, (2 * CountIn(a, b)) as real, (|a| + |b|) as real);
  }

  /** And from the length of the second string alone. */
  lemma RatioByLength(a: string, b: string)
    requires |a| + |b| > 0
    ensures Ratio(a, b) <= (2 * |b|) as real / (|a| + |b|) as real
  {
    DivMonotone((2 * MatchCount(a, b)) as real, (2 * |b|) as real, (|a| + |b|) as real);
  }

  lemma DivMonotone(x: real, y: real, t: real)
    requires x <= y && t > 0.0
    ensures x / t <= y / t
  {
  }
}
