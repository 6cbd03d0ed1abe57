/** `ReputationManager` (core/reputation.py): a bounded history of scores per node and a trust
    score that weights recent entries more. */
module Reputation {
  import opened Numeric
  import opened Lists

  /** The per-step decay of the weights. */
  const Decay: real := 0.95

  /** `decay ** i` */
  function Pow(d: real, i: nat): (r: real)
    requires 0.0 < d
    ensures r > 0.0
  {
    if i == 0 then 1.0 else d * Pow(d, i - 1)
  }

  /** All entries lie in [lo, hi]. */
  predicate Within(scores: seq<real>, lo: real, hi: real)
  {
    forall v :: v in scores ==> lo <= v <= hi
  }

  /** `reversed(scores)`: the most recent entry first. */
  function Reversed(scores: seq<real>): (r: seq<real>)
    ensures |r| == |scores|
    ensures forall i :: 0 <= i < |r| ==> r[i] == scores[|scores| - 1 - i]
  {
    if scores == [] then [] else [scores[|scores| - 1]] + Reversed(scores[..|scores| - 1])
  }

  /** `sum(score * decay ** i for i, score in enumerate(r) if i >= from)` */
  function WeightedFrom(r: seq<real>, from: nat): real
    requires from <= |r|
    decreases |r| - from
  {
    if from == |r| then 0.0 else r[from] * Pow(Decay, from) + WeightedFrom(r, from + 1)
  }

  /** `sum(decay ** i for i in range(from, n))` */
  function NormFrom(n: nat, from: nat): (s: real)
    requires from <= n
    ensures from < n ==> s > 0.0
    decreases n - from
  {
    if from == n then 0.0 else Pow(Decay, from) + NormFrom(n, from + 1)
  }

  /** Scaling by a positive weight keeps a value between its bounds. */
  lemma ScaleBetween(lo: real, x: real, hi: real, w: real)
    requires lo <= x <= hi && w > 0.0
    ensures lo * w <= x * w <= hi * w
  {
  }

  /** Entries between `lo` and `hi` give a weighted sum between `lo` and `hi` times the weights. */
  lemma {:induction false} WeightedBetween(r: seq<real>, from: nat, lo: real, hi: real)
    requires from <= |r| && Within(r, lo, hi)
    ensures lo * NormFrom(|r|, from) <= WeightedFrom(r, from) <= hi * NormFrom(|r|, from)
    decreases |r| - from
  {
    if from < |r| {
      WeightedBetween(r, from + 1, lo, hi);
      var w, n1, s1 := Pow(Decay, from), NormFrom(|r|, from + 1), WeightedFrom(r, from + 1);
      assert r[from] in r;
      ScaleBetween(lo, r[from], hi, w);
      assert lo * (w + n1) == lo * w + lo * n1;
      assert hi * (w + n1) == hi * w + hi * n1;
    }
  }

  /** `get_trust_score` on a history: 0.5 when empty, otherwise the decayed average, rounded. */
  function TrustOf(scores: seq<real>): real
  {
    if scores == [] then 0.5
    else Round3(WeightedFrom(Reversed(scores), 0) / NormFrom(|scores|, 0))
  }

  /** A weighted sum between `lo·n` and `hi·n` over a positive `n` gives an average in [lo, hi]. */
  lemma AverageBetween(w: real, n: real, lo: real, hi: real)
    requires n > 0.0 && lo * n <= w <= hi * n
    ensures lo <= w / n <= hi
  {
  }

  /** A stored (clamped) history has a trust score in [0, 1]. */
  lemma TrustInUnit(scores: seq<real>)
    requires Within(scores, 0.0, 1.0)
    ensures 0.0 <= TrustOf(scores) <= 1.0
  {
    if scores != [] {
      var r := Reversed(scores);
      assert Within(r, 0.0, 1.0) by {
        forall v | v in r ensures v in scores {
          var i :| 0 <= i < |r| && r[i] == v;
          assert scores[|scores| - 1 - i] == v;
        }
      }
      WeightedBetween(r, 0, 0.0, 1.0);
      AverageBetween(WeightedFrom(r, 0), NormFrom(|scores|, 0), 0.0, 1.0);
      Round3Unit(WeightedFrom(r, 0) / NormFrom(|scores|, 0));
    }
  }

  /** A history whose entries all equal `c` has trust Round3(c); in particular a single entry. */
  lemma TrustOfConstant(scores: seq<real>, c: real)
    requires scores != [] && Within(scores, c, c)
    ensures TrustOf(scores) == Round3(c)
  {
    var r := Reversed(scores);
    assert Within(r, c, c) by {
      forall v | v in r ensures v in scores {
        var i :| 0 <= i < |r| && r[i] == v;
        assert scores[|scores| - 1 - i] == v;
      }
    }
    WeightedBetween(r, 0, c, c);
    AverageBetween(WeightedFrom(r, 0), NormFrom(|scores|, 0), c, c);
  }

  lemma TrustOfSingle(s: real)
    ensures TrustOf([s]) == Round3(s)
  {
    TrustOfConstant([s], s);
  }

  /** The history of a node, an absent one reading as the empty deque `defaultdict` creates. */
  function HistoryOf(history: map<string, seq<real>>, nodeId: string): seq<real>
  {
    if nodeId in history then history[nodeId] else []
  }

  class ReputationManager {
    const maxRecords: nat
    var history: map<string, seq<real>>
    var lastUpdate: map<string, int>

    /** Every history is within its bound and holds clamped scores. */
    predicate Valid()
      reads this
    {
      forall nodeId :: nodeId in history ==> |history[nodeId]| <= maxRecords && Within(history[nodeId], 0.0, 1.0)
    }

    /** `ReputationManager(max_records)` */
    constructor(maxRecords: nat)
      ensures this.maxRecords == maxRecords
      ensures history == map[] && lastUpdate == map[]
      ensures Valid()
    {
      this.maxRecords := maxRecords;
      history := map[];
      lastUpdate := map[];
    }

    /** `update_score(node_id, score)`, with `int(time.time())` as `now`. */
    method UpdateScore(nodeId: string, score: real, now: int)
      requires Valid()
      modifies this
      ensures history == old(history)[nodeId := AppendBounded(HistoryOf(old(history), nodeId), Clamp(score, 0.0, 1.0), maxRecords)]
      ensures lastUpdate == old(lastUpdate)[nodeId := now]
      ensures Valid()
    {
      var s := Clamp(score, 0.0, 1.0);
      var h := HistoryOf(history, nodeId);
      AppendBoundedKeepsBound(h, s, maxRecords);
      AppendBoundedElements(h, s, maxRecords);
      var h' := AppendBounded(h, s, maxRecords);
      assert |h'| <= maxRecords && Within(h', 0.0, 1.0);
      history := history[nodeId := h'];
      lastUpdate := lastUpdate[nodeId := now];
    }

    /** `get_trust_score(node_id)`: reading an unknown node records an empty history for it. */
    method GetTrustScore(nodeId: string) returns (trust: real)
      requires Valid()
      modifies this
      ensures trust == TrustOf(HistoryOf(old(history), nodeId))
      ensures history == old(history)[nodeId := HistoryOf(old(history), nodeId)]
      ensures lastUpdate == old(lastUpdate)
      ensures Valid()
      ensures 0.0 <= trust <= 1.0
      ensures nodeId !in old(history) ==> trust == 0.5 && history[nodeId] == []
    {
      var scores := HistoryOf(history, nodeId);
      history := history[nodeId := scores];
      TrustInUnit(scores);
      trust := TrustOf(scores);
    }

    /** `get_all_scores()`: the trust score of exactly the nodes with a history. */
    function AllScores(): (m: map<string, real>)
      reads this
      requires Valid()
      ensures m.Keys == history.Keys
      ensures forall nodeId :: nodeId in m ==> 0.0 <= m[nodeId] <= 1.0
      ensures forall nodeId :: nodeId in m ==> m[nodeId] == TrustOf(history[nodeId])
    {
      assert forall nodeId :: nodeId in history ==> 0.0 <= TrustOf(history[nodeId]) <= 1.0 by {
        forall nodeId | nodeId in history {
          TrustInUnit(history[nodeId]);
        }
      }
      map nodeId | nodeId in history :: TrustOf(history[nodeId])
    }
  }
}
