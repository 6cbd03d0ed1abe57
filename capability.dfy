/** `CapabilityManager` (ECN/core/capability.py): a node's capability tags and how well they match
    a requirement. */
module Capability {
  import opened Text
  import opened Similarity
  import opened Numeric
  import opened Lists

  /** The invariant of the tag list: lower case and free of duplicates. */
  predicate WellFormed(tags: seq<string>)
  {
    NoDup(tags) && forall p :: 0 <= p < |tags| ==> IsLower(tags[p])
  }

  /** `[t.lower() for t in tags]` */
  function LowerAll(tags: seq<string>): (r: seq<string>)
    ensures |r| == |tags|
    ensures forall p :: 0 <= p < |r| ==> r[p] == Lower(tags[p])
  {
    if tags == [] then [] else [Lower(tags[0])] + LowerAll(tags[1..])
  }

  /** `list(set(tags))`, keeping each tag where it first occurs. */
  function Dedup(tags: seq<string>): (r: seq<string>)
    ensures NoDup(r)
    ensures forall t :: t in r <==> t in tags
  {
    if tags == [] then []
    else
      var rest := Dedup(tags[..|tags| - 1]);
      var t := tags[|tags| - 1];
      if t in rest then rest else rest + [t]
  }

  /** `add_capability`: the lower-cased tag, appended unless already present. */
  function AddTag(tags: seq<string>, tag: string): (r: seq<string>)
    ensures Lower(tag) in r
    ensures WellFormed(tags) ==> WellFormed(r)
    ensures forall t :: t in r <==> t in tags || t == Lower(tag)
  {
    var t := Lower(tag);
    if t in tags then tags else tags + [t]
  }

  /** The position of the first occurrence of `t`, where `list.remove(t)` deletes. */
  function FirstIndex(tags: seq<string>, t: string): (p: nat)
    requires t in tags
    ensures p < |tags| && tags[p] == t
    ensures forall q :: 0 <= q < p ==> tags[q] != t
  {
    if tags[0] == t then 0 else 1 + FirstIndex(tags[1..], t)
  }

  /** `list.remove(t)`: drops the first occurrence of `t` and exactly one occurrence. */
  function RemoveFirst(tags: seq<string>, t: string): (r: seq<string>)
    requires t in tags
    ensures |r| == |tags| - 1
    ensures multiset(r) == multiset(tags) - multiset{t}
  {
    var p := FirstIndex(tags, t);
    assert tags == tags[..p] + [t] + tags[p + 1..];
    tags[..p] + tags[p + 1..]
  }

  /** `remove_capability`: the lower-cased tag is dropped if present, otherwise nothing changes. */
  function RemoveTag(tags: seq<string>, tag: string): (r: seq<string>)
    ensures Lower(tag) !in tags ==> r == tags
    ensures forall t :: t in r ==> t in tags
  {
    var t := Lower(tag);
    if t in tags then RemoveFirst(tags, t) else tags
  }

  /** Dropping one position keeps every other element and, without duplicates, only those. */
  lemma RemoveAtSpec(tags: seq<string>, p: nat)
    requires p < |tags| && NoDup(tags)
    ensures NoDup(tags[..p] + tags[p + 1..])
    ensures forall x :: x in tags[..p] + tags[p + 1..] <==> x in tags && x != tags[p]
  {
    var r := tags[..p] + tags[p + 1..];
    assert forall q :: 0 <= q < |r| ==> r[q] == tags[if q < p then q else q + 1];
    forall x | x in tags && x != tags[p]
      ensures x in r
    {
      var q :| 0 <= q < |tags| && tags[q] == x;
      assert r[if q < p then q else q - 1] == x;
    }
  }

  /** On a well-formed list removal takes the tag out entirely and keeps every other tag and the
      invariant. */
  lemma RemoveTagSpec(tags: seq<string>, tag: string)
    requires WellFormed(tags)
    ensures WellFormed(RemoveTag(tags, tag))
    ensures forall t :: t in RemoveTag(tags, tag) <==> t in tags && t != Lower(tag)
  {
    var t := Lower(tag);
    if t in tags {
      RemoveAtSpec(tags, FirstIndex(tags, t));
    }
  }

  /** Adding a tag twice is adding it once. */
  lemma AddTagIdempotent(tags: seq<string>, tag: string)
    ensures AddTag(AddTag(tags, tag), tag) == AddTag(tags, tag)
  {
  }

  /** The running maximum of `match`, over the tags in list order, starting from 0.0. */
  function BestRatio(tags: seq<string>, req: string): (best: real)
    ensures 0.0 <= best <= 1.0
  {
    if tags == [] then 0.0
    else
      var prev := BestRatio(tags[..|tags| - 1], req);
      var ratio := Ratio(tags[|tags| - 1], req);
      if ratio > prev then ratio else prev
  }

  /** The fold is the largest ratio of any tag, and is attained by one when there are tags. */
  lemma {:induction false} BestRatioIsMax(tags: seq<string>, req: string)
    ensures forall t :: t in tags ==> Ratio(t, req) <= BestRatio(tags, req)
    ensures tags != [] ==> exists t :: t in tags && BestRatio(tags, req) == Ratio(t, req)
    ensures tags == [] ==> BestRatio(tags, req) == 0.0
  {
    if tags != [] {
      var init := tags[..|tags| - 1];
      BestRatioIsMax(init, req);
      assert tags == init + [tags[|tags| - 1]];
      if init != [] {
        var t :| t in init && BestRatio(init, req) == Ratio(t, req);
        assert t in tags;
      }
    }
  }

  /** The fold does not depend on the order, or the repetitions, of the tags. */
  lemma BestRatioOrderFree(tags1: seq<string>, tags2: seq<string>, req: string)
    requires forall t :: t in tags1 <==> t in tags2
    ensures BestRatio(tags1, req) == BestRatio(tags2, req)
  {
    BestRatioIsMax(tags1, req);
    BestRatioIsMax(tags2, req);
    assert tags1 == [] <==> tags2 == [] by {
      if tags1 != [] { assert tags1[0] in tags2; }
      if tags2 != [] { assert tags2[0] in tags1; }
    }
    if tags1 != [] {
      var t1 :| t1 in tags1 && BestRatio(tags1, req) == Ratio(t1, req);
      var t2 :| t2 in tags2 && BestRatio(tags2, req) == Ratio(t2, req);
      assert Ratio(t1, req) <= BestRatio(tags2, req);
      assert Ratio(t2, req) <= BestRatio(tags1, req);
    }
  }

  /** A tag equal to the requirement gives the highest possible fold. */
  lemma BestRatioOfExactTag(tags: seq<string>, req: string)
    requires req in tags
    ensures BestRatio(tags, req) == 1.0
  {
    BestRatioIsMax(tags, req);
    RatioSelf(req);
  }

  class CapabilityManager {
    var capabilities: seq<string>

    predicate Valid()
      reads this
    {
      WellFormed(capabilities)
    }

    /** `CapabilityManager(capability_tags)` */
    constructor(capabilityTags: seq<string>)
      ensures capabilities == Dedup(LowerAll(capabilityTags))
      ensures Valid()
    {
      var tags := LowerAll(capabilityTags);
      var unique := Dedup(tags);
      assert forall t :: t in unique ==> t in tags;
      assert forall t :: t in tags ==> IsLower(t);
      capabilities := unique;
    }

    /** `add_capability(tag)` */
    method AddCapability(tag: string)
      requires Valid()
      modifies this
      ensures capabilities == AddTag(old(capabilities), tag)
      ensures Valid()
    {
      var t := Lower(tag);
      if t !in capabilities {
        capabilities := capabilities + [t];
      }
    }

    /** `remove_capability(tag)` */
    method RemoveCapability(tag: string)
      requires Valid()
      modifies this
      ensures capabilities == RemoveTag(old(capabilities), tag)
      ensures Valid()
      ensures forall t :: t in capabilities <==> t in old(capabilities) && t != Lower(tag)
    {
      RemoveTagSpec(capabilities, tag);
      var t := Lower(tag);
      if t in capabilities {
        capabilities := RemoveFirst(capabilities, t);
      }
    }

    /** `match(requirement, threshold)`: the best ratio of any tag against the lower-cased
        requirement, rounded to three decimals. `threshold` is not consulted. */
    method Match(requirement: string, threshold: real) returns (score: real)
      ensures score == Round3(BestRatio(capabilities, Lower(requirement)))
    {
      var req := Lower(requirement);
      var best := 0.0;
      var i := 0;
      while i < |capabilities|
        invariant 0 <= i <= |capabilities|
        invariant best == BestRatio(capabilities[..i], req)
      {
        var ratio := Ratio(capabilities[i], req);
        assert capabilities[..i + 1][..i] == capabilities[..i];
        if ratio > best {
          best := ratio;
        }
        i := i + 1;
      }
      assert capabilities[..i] == capabilities;
      score := Round3(best);
    }

    /** `match_and_filter(requirement, threshold)` */
    method MatchAndFilter(requirement: string, threshold: real) returns (ok: bool)
      ensures ok <==> Round3(BestRatio(capabilities, Lower(requirement))) >= threshold
    {
      var score := Match(requirement, threshold);
      ok := score >= threshold;
    }
  }

  /** What `match` returns: in [0, 1], 0.0 without tags, 1.0 for a tag equal to the lower-cased
      requirement, and the same for any reordering of the tags. */
  lemma MatchScoreFacts(tags: seq<string>, requirement: string)
    ensures 0.0 <= Round3(BestRatio(tags, Lower(requirement))) <= 1.0
    ensures tags == [] ==> Round3(BestRatio(tags, Lower(requirement))) == 0.0
    ensures Lower(requirement) in tags ==> Round3(BestRatio(tags, Lower(requirement))) == 1.0
  {
    var req := Lower(requirement);
    Round3Unit(BestRatio(tags, req));
    if req in tags {
      BestRatioOfExactTag(tags, req);
    }
  }

  /** Two distinct lower-case tags are stored as given, in the order given. */
  lemma StoredAsGiven(x: string, y: string)
    requires IsLower(x) && IsLower(y) && x != y
    ensures Dedup(LowerAll([x, y])) == [x, y]
  {
    var tags := LowerAll([x, y]);
    assert tags == [x, y];
    assert tags[..1] == [x];
    assert Dedup([x]) == [x] by {
      assert [x][..0] == [];
    }
  }

  /** The fold over two tags is the larger of their two ratios. */
  lemma BestRatioOfTwo(x: string, y: string, req: string)
    ensures BestRatio([x, y], req) == if Ratio(y, req) > Ratio(x, req) then Ratio(y, req) else Ratio(x, req)
  {
    assert [x, y][..1] == [x];
    assert BestRatio([x], req) == Ratio(x, req) by {
      assert [x][..0] == [];
      assert BestRatio([], req) == 0.0;
    }
  }

  /** "image" shares two characters with "math". */
  lemma ImageCount()
    ensures CountIn("image", "math") == 2
  {
  }

  /** A requirement equal to the first of two distinct lower-case tags scores 1.0. */
  lemma FirstTagScoresOne(x: string, y: string)
    requires IsLower(x) && IsLower(y) && x != y
    ensures Round3(BestRatio(Dedup(LowerAll([x, y])), Lower(x))) == 1.0
  {
    StoredAsGiven(x, y);
    MatchScoreFacts([x, y], x);
  }

  /** A node declaring "math" and "translation" clears 0.5 for the requirement "math". */
  lemma MathMatchesMathNode()
    ensures Round3(BestRatio(Dedup(LowerAll(["math", "translation"])), Lower("math"))) > 0.5
  {
    assert IsLower("math") && IsLower("translation");
    FirstTagScoresOne("math", "translation");
  }

  /** Two lower-case tags of five and fourteen characters against a four-character requirement,
      the first sharing two characters with it: at most 2·2/9 and 2·4/18 can match, so the score
      stays below 0.5. */
  lemma ShortAndLongBelowHalf(x: string, y: string, req: string)
    requires IsLower(x) && IsLower(y) && IsLower(req) && x != y
    requires |x| == 5 && |y| == 14 && |req| == 4 && CountIn(x, req) == 2
    ensures Round3(BestRatio(Dedup(LowerAll([x, y])), Lower(req))) < 0.5
  {
    StoredAsGiven(x, y);
    RatioBound(x, req);
    RatioByLength(y, req);
    BestRatioOfTwo(x, y, req);
    var best := BestRatio([x, y], req);
    assert best <= 4.0 / 9.0;
    Round3Near(best);
  }

  /** A node declaring "image" and "style-transfer" stays below 0.5 for "math". */
  lemma MathMissesImageNode()
    ensures Round3(BestRatio(Dedup(LowerAll(["image", "style-transfer"])), Lower("math"))) < 0.5
  {
    assert IsLower("math") && IsLower("image") && IsLower("style-transfer");
    ImageCount();
    ShortAndLongBelowHalf("image", "style-transfer", "math");
  }
}
