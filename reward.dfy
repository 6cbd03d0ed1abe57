/** `RewardModel` (models/reward_model.py): three placeholder scorings of a model output, picked by
    the method name given at construction. */
module Reward {
  import opened Wrappers
  import opened Text
  import opened Numeric

  /** The keywords whose presence `_rule_based_score` rewards. */
  const Keywords: seq<string> := ["step", "result", "complete"]

  /** `sum(1 for kw in kws if kw in low)` */
  function KeywordHits(kws: seq<string>, low: string): (k: nat)
    ensures k <= |kws|
    ensures k == 0 <== forall i :: 0 <= i < |kws| ==> !Contains(low, kws[i])
    ensures k == |kws| <== forall i :: 0 <= i < |kws| ==> Contains(low, kws[i])
  {
    if kws == [] then 0
    else KeywordHits(kws[..|kws| - 1], low) + (if Contains(low, kws[|kws| - 1]) then 1 else 0)
  }

  /** `min(len(output) / 100, 1.0)` */
  function LengthScore(output: string): (s: real)
    ensures 0.0 <= s <= 1.0
    ensures |output| >= 100 ==> s == 1.0
  {
    if |output| as real / 100.0 < 1.0 then |output| as real / 100.0 else 1.0
  }

  /** `0.4 * match_score / n + 0.6 * length_score`, rounded to three decimals. */
  function Blend(hits: nat, n: nat, lengthScore: real): real
    requires n > 0
  {
    Round3(0.4 * hits as real / n as real + 0.6 * lengthScore)
  }

  /** A share of at most `c` per unit of a positive `n` is at most `c`. */
  lemma DivAtMost(a: real, n: real, c: real)
    requires n > 0.0 && 0.0 <= a <= c * n
    ensures 0.0 <= a / n <= c
  {
  }

  /** A positive number divided by itself is one. */
  lemma DivSelf(n: real)
    requires n > 0.0
    ensures n / n == 1.0
  {
  }

  /** A blend of at most `n` hits out of `n` and a length score in [0, 1] lies in [0, 1]; it is
      1.0 for all hits and a full length score, and 0.0 for no hit and a zero length score. */
  lemma BlendBounds(hits: nat, n: nat, lengthScore: real)
    requires 0 < n && hits <= n && 0.0 <= lengthScore <= 1.0
    ensures 0.0 <= Blend(hits, n, lengthScore) <= 1.0
    ensures hits == n && lengthScore == 1.0 ==> Blend(hits, n, lengthScore) == 1.0
    ensures hits == 0 && lengthScore == 0.0 ==> Blend(hits, n, lengthScore) == 0.0
  {
    var a := 0.4 * hits as real;
    var q := a / n as real;
    DivAtMost(a, n as real, 0.4);
    var x := q + 0.6 * lengthScore;
    Round3Unit(x);
    if hits == n && lengthScore == 1.0 {
      assert q == 0.4;
      assert x == 1000 as real / 1000.0;
      Round3Exact(1000);
    }
    if hits == 0 && lengthScore == 0.0 {
      assert x == 0 as real / 1000.0;
      Round3Exact(0);
    }
  }

  /** `_rule_based_score(task_input, output)`: the task input plays no part. */
  function RuleScore(output: string): real
  {
    Blend(KeywordHits(Keywords, Lower(output)), |Keywords|, LengthScore(output))
  }

  /** The bounds of the rule score, for any list of non-empty keywords. */
  lemma {:induction false} RuleScoreBoundsFor(kws: seq<string>, output: string)
    requires |kws| > 0 && forall i :: 0 <= i < |kws| ==> kws[i] != []
    ensures var s := Blend(KeywordHits(kws, Lower(output)), |kws|, LengthScore(output));
      && 0.0 <= s <= 1.0
      && (|output| >= 100 && (forall i :: 0 <= i < |kws| ==> Contains(Lower(output), kws[i])) ==> s == 1.0)
      && (output == [] ==> s == 0.0)
  {
    BlendBounds(KeywordHits(kws, Lower(output)), |kws|, LengthScore(output));
    if output == [] {
      assert forall i :: 0 <= i < |kws| ==> !Contains(Lower(output), kws[i]);
    }
  }

  /** The rule score lies in [0, 1]; it is 1.0 for an output of 100 characters or more naming all
      three keywords, and 0.0 for an empty output. */
  lemma RuleScoreBounds(output: string)
    ensures 0.0 <= RuleScore(output) <= 1.0
    ensures (|output| >= 100 && forall i :: 0 <= i < |Keywords| ==> Contains(Lower(output), Keywords[i]))
      ==> RuleScore(output) == 1.0
    ensures output == [] ==> RuleScore(output) == 0.0
  {
    RuleScoreBoundsFor(Keywords, output);
  }

  /** `set(s.split())` */
  function Tokens(s: string): set<string>
  {
    set w | w in Words(s)
  }

  /** A part of a finite set is no larger than the set. */
  lemma {:induction false} SubsetCard(a: set<string>, b: set<string>)
    requires a <= b
    ensures |a| <= |b|
    decreases |b|
  {
    if b != {} {
      var x :| x in b;
      SubsetCard(a - {x}, b - {x});
    }
  }

  /** `_dpo_pairwise_score(output, reference)`: the share of reference tokens found in the output. */
  function PairwiseScore(output: string, reference: string): real
  {
    var overlap := Tokens(output) * Tokens(reference);
    Round3(|overlap| as real / (if |Tokens(reference)| > 1 then |Tokens(reference)| else 1) as real)
  }

  /** The pairwise score lies in [0, 1], is 0.0 for a reference with no tokens, and is 1.0 when
      the reference has tokens and all of them occur in the output. */
  lemma PairwiseScoreBounds(output: string, reference: string)
    ensures 0.0 <= PairwiseScore(output, reference) <= 1.0
    ensures Tokens(reference) == {} ==> PairwiseScore(output, reference) == 0.0
    ensures Tokens(reference) != {} && Tokens(reference) <= Tokens(output) ==> PairwiseScore(output, reference) == 1.0
  {
    var ref := Tokens(reference);
    var overlap := Tokens(output) * ref;
    SubsetCard(overlap, ref);
    var d := (if |ref| > 1 then |ref| else 1) as real;
    var q := |overlap| as real / d;
    DivAtMost(|overlap| as real, d, 1.0);
    Round3Unit(q);
    if ref == {} {
      assert overlap == {};
      assert q == 0 as real / 1000.0;
      Round3Exact(0);
    }
    if ref != {} && ref <= Tokens(output) {
      assert overlap == ref;
      assert |overlap| as real == d;
      DivSelf(d);
      assert q == 1000 as real / 1000.0;
      Round3Exact(1000);
    }
  }

  /** `_grpo_group_score(task_input, output)`, with `random.uniform(-0.05, 0.05)` as `noise`. */
  function GroupScore(output: string, noise: real): (s: real)
    ensures 0.0 <= s <= 1.0
  {
    var c := Clamp(RuleScore(output) + noise, 0.0, 1.0);
    Round3Unit(c);
    Round3(c)
  }

  /** `score(task_input, model_output, reference_output)`: the method named at construction picks
      the scoring; `dpo` without a reference fails, since `None` has no `split`; any other name
      raises ValueError. */
  function Score(methodName: string, taskInput: string, output: string, reference: Option<string>, noise: real): (r: Result<real>)
    ensures methodName !in {"rule", "dpo", "grpo"} ==> r == Raise(ValueError)
    ensures methodName == "dpo" && reference.None? ==> r == Raise(AttributeError)
    ensures r.Ok? ==> 0.0 <= r.value <= 1.0
  {
    if methodName == "rule" then
      RuleScoreBounds(output);
      Ok(RuleScore(output))
    else if methodName == "dpo" then
      match reference
      case None => Raise(AttributeError)
      case Some(ref) =>
        PairwiseScoreBounds(output, ref);
        Ok(PairwiseScore(output, ref))
    else if methodName == "grpo" then Ok(GroupScore(output, noise))
    else Raise(ValueError)
  }

  /** The rule-based score does not depend on the task input. */
  lemma RuleIgnoresTaskInput(t1: string, t2: string, output: string, reference: Option<string>, noise: real)
    ensures Score("rule", t1, output, reference, noise) == Score("rule", t2, output, reference, noise)
    ensures Score("rule", t1, output, reference, noise) == Ok(RuleScore(output))
  {
  }
}
