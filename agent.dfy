/** The worker node (`Agent`, agents/agent.py): choosing an executor among the responders,
    answering beacons, and advancing a task chain by one step with the language model's text. */
module Agents {
  import opened Wrappers
  import opened Values
  import opened Text
  import opened Lists
  import opened Ranking
  import Numeric
  import Capability
  import Beacons
  import Responses

  /** The task record handed along the chain. `steps` maps the decimal step number to the list
      `[instruction, requirement]` the planner produced. */
  datatype Task = Task(subtaskId: int, steps: map<string, seq<string>>, previousResults: seq<string>,
                       originalProblem: string, finalResult: string, userId: string)

  /** The first position at or after `i` holding `selfId` with the top score `c[0].1`. */
  function SelfFrom(c: seq<Scored>, selfId: string, i: nat): (r: Option<nat>)
    ensures r.Some? ==> i <= r.value < |c| && c[r.value].0 == selfId && c[r.value].1 == c[0].1
    ensures r.Some? ==> forall j :: i <= j < r.value ==> !(c[j].0 == selfId && c[j].1 == c[0].1)
    ensures r.None? ==> forall j :: i <= j < |c| ==> !(c[j].0 == selfId && c[j].1 == c[0].1)
    decreases |c| - i
  {
    if i >= |c| then None
    else if c[i].0 == selfId && c[i].1 == c[0].1 then Some(i)
    else SelfFrom(c, selfId, i + 1)
  }

  /** The sorted list with the node's own first top-scored entry swapped to the front. */
  function PreferSelf(c: seq<Scored>, selfId: string): seq<Scored>
  {
    match SelfFrom(c, selfId, 0)
    case None => c
    case Some(i) => c[i := c[0]][0 := c[i]]
  }

  /** What `select_executor(candidates, num)` returns. */
  function Selected(candidates: seq<Scored>, num: int, selfId: string): seq<Scored>
  {
    Prefix(PreferSelf(SortDesc(candidates), selfId), num)
  }

  /** Swapping the entry at `i` with the first, when both have the same score, keeps every
      position's score and the entries held. */
  lemma SwapFront(c: seq<Scored>, i: nat)
    requires i < |c| && c[i].1 == c[0].1
    ensures var p := c[i := c[0]][0 := c[i]];
      && |p| == |c| && p[0] == c[i]
      && (forall k :: 0 <= k < |c| ==> p[k].1 == c[k].1)
      && multiset(p) == multiset(c)
  {
  }

  /** The swap exchanges two entries of equal score, so the list stays sorted and holds the same
      entries; the node comes first when it has a top score, and nothing moves otherwise. */
  lemma PreferSelfSpec(c: seq<Scored>, selfId: string)
    requires SortedDesc(c)
    ensures SortedDesc(PreferSelf(c, selfId))
    ensures multiset(PreferSelf(c, selfId)) == multiset(c)
    ensures (exists k :: 0 <= k < |c| && c[k].0 == selfId && c[k].1 == c[0].1) ==> PreferSelf(c, selfId)[0].0 == selfId
    ensures (forall k :: 0 <= k < |c| ==> !(c[k].0 == selfId && c[k].1 == c[0].1)) ==> PreferSelf(c, selfId) == c
  {
    match SelfFrom(c, selfId, 0)
    case None =>
    case Some(i) =>
      SwapFront(c, i);
      var p := c[i := c[0]][0 := c[i]];
      forall a, b | 0 <= a < b < |p| ensures p[a].1 >= p[b].1 {
        assert p[a].1 == c[a].1 && p[b].1 == c[b].1;
      }
  }

  /** The first `num` entries of a sorted list are sorted and drawn from it. */
  lemma PrefixOfSorted(p: seq<Scored>, num: int)
    requires SortedDesc(p)
    ensures SortedDesc(Prefix(p, num))
    ensures multiset(Prefix(p, num)) <= multiset(p)
  {
    var r := Prefix(p, num);
    assert p == r + p[|r|..];
  }

  /** A candidate with the highest score has the score the sort puts first. */
  lemma TopScoreFirst(candidates: seq<Scored>, k: nat)
    requires k < |candidates| && forall j :: 0 <= j < |candidates| ==> candidates[j].1 <= candidates[k].1
    ensures exists m :: 0 <= m < |SortDesc(candidates)| && SortDesc(candidates)[m] == candidates[k]
    ensures SortDesc(candidates)[0].1 == candidates[k].1
  {
    var c := SortDesc(candidates);
    SortDescSpec(candidates);
    assert candidates[k] in multiset(c);
    var m :| 0 <= m < |c| && c[m] == candidates[k];
    assert c[0] in multiset(candidates);
    var j :| 0 <= j < |candidates| && candidates[j] == c[0];
    assert c[0].1 >= c[m].1;
  }

  /** `select_executor` returns `min(num, len(candidates))` of the candidates, best first; the
      node itself leads when its score equals the highest, and otherwise the result is a prefix
      of the stable descending sort. */
  lemma SelectedSpec(candidates: seq<Scored>, num: int, selfId: string)
    ensures num >= 0 ==> |Selected(candidates, num, selfId)| == if num <= |candidates| then num else |candidates|
    ensures SortedDesc(Selected(candidates, num, selfId))
    ensures multiset(Selected(candidates, num, selfId)) <= multiset(candidates)
    ensures num >= 1 && (exists k :: 0 <= k < |candidates| && candidates[k].0 == selfId
                                      && forall j :: 0 <= j < |candidates| ==> candidates[j].1 <= candidates[k].1)
            ==> Selected(candidates, num, selfId)[0].0 == selfId
    ensures (forall k :: 0 <= k < |candidates| ==> candidates[k].0 != selfId)
            ==> Selected(candidates, num, selfId) == Prefix(SortDesc(candidates), num)
  {
    var c := SortDesc(candidates);
    SortDescSpec(candidates);
    PreferSelfSpec(c, selfId);
    PrefixOfSorted(PreferSelf(c, selfId), num);
    if num >= 1 && exists k :: 0 <= k < |candidates| && candidates[k].0 == selfId
                              && forall j :: 0 <= j < |candidates| ==> candidates[j].1 <= candidates[k].1 {
      var k :| 0 <= k < |candidates| && candidates[k].0 == selfId
               && forall j :: 0 <= j < |candidates| ==> candidates[j].1 <= candidates[k].1;
      TopScoreFirst(candidates, k);
    }
    if forall k :: 0 <= k < |candidates| ==> candidates[k].0 != selfId {
      forall k | 0 <= k < |c| ensures c[k].0 != selfId {
        assert c[k] in multiset(candidates);
      }
    }
  }

  /** The text before the first `pat`, stripped; the whole text when `pat` does not occur. */
  function CutAt(raw: string, pat: string): (c: string)
    requires pat != []
    ensures !Contains(c, pat)
    ensures !Contains(raw, pat) ==> c == raw
  {
    match Find(raw, pat)
    case None => raw
    case Some(pos) =>
      NotContainsPrefix(raw, pat, pos);
      StripAvoids(raw[..pos], pat);
      Strip(raw[..pos])
  }

  /** `text.split(sep)[1].strip()`: IndexError when `sep` does not occur. */
  function PieceAfter(text: string, sep: string): (r: Result<string>)
    requires sep != []
    ensures r.Raise? <==> !Contains(text, sep)
    ensures r.Raise? ==> r.exc == IndexError
    ensures r.Ok? ==> !Contains(r.value, sep)
  {
    match SecondPiece(text, sep)
    case None => Raise(IndexError)
    case Some(piece) =>
      StripAvoids(piece, sep);
      Ok(Strip(piece))
  }

  /** The answer `execute` extracts from the model's raw text: the text is cut at the first
      "DO NOT", and the answer is what follows the first "Output:" up to the next one, stripped. */
  function ExtractResult(raw: string): (r: Result<string>)
    ensures r.Raise? <==> !Contains(CutAt(raw, "DO NOT"), "Output:")
    ensures r.Ok? ==> !Contains(r.value, "Output:")
  {
    PieceAfter(CutAt(raw, "DO NOT"), "Output:")
  }

  /** Neither marker can overlap an earlier copy of itself, and "Output:" starts and ends with
      non-space characters. */
  lemma Markers()
    ensures HeadUnique("DO NOT") && HeadUnique("Output:")
    ensures !IsSpace("Output:"[0]) && !IsSpace("Output:"[6])
  {
  }

  /** The cut keeps the stripped text before the first `pat`. */
  lemma CutAtFirst(a: string, pat: string, b: string)
    requires HeadUnique(pat) && !Contains(a, pat)
    ensures CutAt(a + pat + b, pat) == Strip(a)
  {
    FindAfterAvoiding(a, pat, b);
    assert (a + pat + b)[..|a|] == a;
  }

  /** The piece taken is the text after the first `sep` up to the next one, stripped. */
  lemma PieceAfterSecond(a: string, sep: string, p: string, rest: string)
    requires HeadUnique(sep) && !Contains(a, sep) && !Contains(p, sep)
    requires rest == [] || (|rest| >= |sep| && rest[..|sep|] == sep)
    ensures PieceAfter(a + sep + p + rest, sep) == Ok(Strip(p))
  {
    SecondPieceOf(a, sep, p, rest);
  }

  /** A reply without "DO NOT" yields the stripped text between the first "Output:" and the next. */
  lemma ExtractResultUncut(a: string, p: string, rest: string)
    requires !Contains(a + "Output:" + p + rest, "DO NOT")
    requires !Contains(a, "Output:") && !Contains(p, "Output:")
    requires rest == [] || (|rest| >= 7 && rest[..7] == "Output:")
    ensures ExtractResult(a + "Output:" + p + rest) == Ok(Strip(p))
  {
    Markers();
    PieceAfterSecond(a, "Output:", p, rest);
  }

  /** A reply is first cut at its first "DO NOT", and the answer is looked for in what precedes it. */
  lemma ExtractResultCut(body: string, tail: string)
    requires !Contains(body, "DO NOT")
    ensures ExtractResult(body + "DO NOT" + tail) == PieceAfter(Strip(body), "Output:")
  {
    Markers();
    CutAtFirst(body, "DO NOT", tail);
  }

  /** Stripping the text around two separators leaves the piece between them intact. */
  lemma {:induction false} PieceAfterStripped(a: string, sep: string, p: string, q: string)
    requires HeadUnique(sep) && !IsSpace(sep[0]) && !IsSpace(sep[|sep| - 1])
    requires !Contains(a, sep) && !Contains(p, sep)
    ensures PieceAfter(Strip(a + sep + p + sep + q), sep) == Ok(Strip(p))
  {
    StripAroundPiece(a, sep, p, q);
    StripLeftAvoids(a, sep);
    var rest := sep + StripRight(q);
    assert rest[..|sep|] == sep;
    PieceAfterSecond(StripLeft(a), sep, p, rest);
  }

  /** Stripping leading spaces cannot create an occurrence. */
  lemma StripLeftAvoids(a: string, sep: string)
    requires !Contains(a, sep)
    ensures !Contains(StripLeft(a), sep)
  {
    var k := |a| - |StripLeft(a)|;
    NotContainsSlice(a, sep, k, |a|);
    assert a[k..|a|] == StripLeft(a);
  }

  /** Both rules together: in `a Output: p Output: q DO NOT tail` the answer is `p`, stripped. */
  lemma ExtractResultCutSecond(a: string, p: string, q: string, tail: string)
    requires !Contains(a + "Output:" + p + "Output:" + q, "DO NOT")
    requires !Contains(a, "Output:") && !Contains(p, "Output:")
    ensures ExtractResult(a + "Output:" + p + "Output:" + q + "DO NOT" + tail) == Ok(Strip(p))
  {
    var body := a + "Output:" + p + "Output:" + q;
    ExtractResultCut(body, tail);
    Markers();
    PieceAfterStripped(a, "Output:", p, q);
  }

  /** The step branch of `execute`, with the model's raw reply as `raw`: one line
      "{instruction} Answer: {result}" is appended, the step counter advances by one, and the
      final result is recorded when the counter was the number of steps. */
  function ExecuteStep(task: Task, raw: string): (r: Result<Task>)
    ensures IntToString(task.subtaskId) !in task.steps ==> r == Raise(KeyError(IntToString(task.subtaskId)))
    ensures r.Ok? ==> var key := IntToString(task.subtaskId);
      && key in task.steps && task.steps[key] != [] && ExtractResult(raw).Ok?
      && r.value.subtaskId == task.subtaskId + 1
      && r.value.previousResults == task.previousResults + [task.steps[key][0] + " Answer: " + ExtractResult(raw).value]
      && r.value.finalResult == (if task.subtaskId == |task.steps| then ExtractResult(raw).value else task.finalResult)
      && r.value.steps == task.steps && r.value.originalProblem == task.originalProblem && r.value.userId == task.userId
    ensures r.Raise? ==> r.exc.KeyError? || r.exc == IndexError
    ensures var key := IntToString(task.subtaskId);
      r.Ok? <==> key in task.steps && task.steps[key] != [] && ExtractResult(raw).Ok?
    ensures var key := IntToString(task.subtaskId);
      key in task.steps && (task.steps[key] == [] || ExtractResult(raw).Raise?) ==> r == Raise(IndexError)
  {
    var key := IntToString(task.subtaskId);
    if key !in task.steps then Raise(KeyError(key))
    else if task.steps[key] == [] then Raise(IndexError)
    else
      var instruction := task.steps[key][0];
      match ExtractResult(raw)
      case Raise(e) => Raise(e)
      case Ok(result) =>
        Ok(task.(previousResults := task.previousResults + [instruction + " Answer: " + result],
                 finalResult := if task.subtaskId == |task.steps| then result else task.finalResult,
                 subtaskId := task.subtaskId + 1))
  }

  /** The decomposition branch of `execute`: the model's plan replaces `steps` only when both the
      task extraction (`extracted`) and the plan generation (`generated`) succeeded. */
  function Decompose(task: Task, extracted: bool, plan: map<string, seq<string>>, generated: bool): (t: Task)
    ensures t.subtaskId == task.subtaskId + 1
    ensures t.steps == if extracted && generated then plan else task.steps
    ensures t.previousResults == task.previousResults && t.finalResult == task.finalResult
    ensures t.originalProblem == task.originalProblem && t.userId == task.userId
  {
    task.(steps := if extracted && generated then plan else task.steps, subtaskId := task.subtaskId + 1)
  }

  /** What the language model answers during one `execute` call. */
  datatype ModelReplies = ModelReplies(extracted: bool, plan: map<string, seq<string>>, generated: bool, raw: string)

  /** `execute(task)` */
  function Execute(task: Task, replies: ModelReplies): Result<Task>
  {
    if task.subtaskId == 0 then Ok(Decompose(task, replies.extracted, replies.plan, replies.generated))
    else ExecuteStep(task, replies.raw)
  }

  /** Running a chain of steps from step `task.subtaskId` on, one raw reply per step, stopping at
      the first failure; the chain starts after the decomposition, at step 1 or later. */
  function RunSteps(task: Task, raws: seq<string>): Result<Task>
    requires task.subtaskId >= 1
    decreases |raws|
  {
    if raws == [] then Ok(task)
    else
      match ExecuteStep(task, raws[0])
      case Raise(e) => Raise(e)
      case Ok(next) => RunSteps(next, raws[1..])
  }

  /** A chain of successful steps advances the counter once per step, leaves the plan alone,
      and every reply in it held an answer. */
  lemma {:induction false} RunStepsAdvance(task: Task, raws: seq<string>)
    requires task.subtaskId >= 1 && RunSteps(task, raws).Ok?
    ensures RunSteps(task, raws).value.subtaskId == task.subtaskId + |raws|
    ensures RunSteps(task, raws).value.steps == task.steps
    ensures forall i :: 0 <= i < |raws| ==> ExtractResult(raws[i]).Ok?
    decreases |raws|
  {
    if raws != [] {
      var next := ExecuteStep(task, raws[0]).value;
      RunStepsAdvance(next, raws[1..]);
      forall i | 0 <= i < |raws| ensures ExtractResult(raws[i]).Ok? {
        if i > 0 {
          assert raws[i] == raws[1..][i - 1];
        }
      }
    }
  }

  /** A chain of successful steps appends one line per step and keeps the earlier lines. */
  lemma {:induction false} RunStepsHistory(task: Task, raws: seq<string>)
    requires task.subtaskId >= 1 && RunSteps(task, raws).Ok?
    ensures |RunSteps(task, raws).value.previousResults| == |task.previousResults| + |raws|
    ensures RunSteps(task, raws).value.previousResults[..|task.previousResults|] == task.previousResults
    decreases |raws|
  {
    if raws != [] {
      var next := ExecuteStep(task, raws[0]).value;
      RunStepsHistory(next, raws[1..]);
      var done := RunSteps(next, raws[1..]).value.previousResults;
      var n := |task.previousResults|;
      assert next.previousResults[..n] == task.previousResults;
      assert done[..n] == done[..|next.previousResults|][..n];
    }
  }

  /** A chain that runs through the last step of the plan ends with the final result set to the
      answer of its last reply. */
  lemma {:induction false} RunStepsFinal(task: Task, raws: seq<string>)
    requires task.subtaskId >= 1 && RunSteps(task, raws).Ok? && raws != []
    requires task.subtaskId + |raws| == |task.steps| + 1
    ensures ExtractResult(raws[|raws| - 1]).Ok?
    ensures RunSteps(task, raws).value.finalResult == ExtractResult(raws[|raws| - 1]).value
    decreases |raws|
  {
    var next := ExecuteStep(task, raws[0]).value;
    if |raws| > 1 {
      RunStepsFinal(next, raws[1..]);
      assert raws[1..][|raws[1..]| - 1] == raws[|raws| - 1];
    }
  }

  /** The final result is only ever written by the step whose number is the plan's size. */
  lemma FinalResultOnlyAtLastStep(task: Task, raw: string)
    requires ExecuteStep(task, raw).Ok?
    requires task.subtaskId != |task.steps|
    ensures ExecuteStep(task, raw).value.finalResult == task.finalResult
  {
  }

  /** An `Agent` as the decision logic sees it: its id and its capability manager. */
  class Agent {
    const id: string
    const capabManager: Capability.CapabilityManager

    /** `Agent(config)`: the capability manager is built from the configured tags. */
    constructor (id: string, capabilities: seq<string>)
      ensures this.id == id
      ensures capabManager.capabilities == Capability.Dedup(Capability.LowerAll(capabilities))
    {
      this.id := id;
      capabManager := new Capability.CapabilityManager(capabilities);
    }

    /** `select_executor(candidates, num)`: the stable descending sort by score, then the first
        entry holding this node with the top score swapped to the front, then the first `num`. */
    method SelectExecutor(candidates: seq<Scored>, num: int) returns (chosen: seq<Scored>)
      ensures chosen == Selected(candidates, num, id)
    {
      var c := SortDesc(candidates);
      ghost var sorted := c;
      var i := 0;
      while i < |c|
        invariant 0 <= i <= |c| && c == sorted
        invariant SelfFrom(sorted, id, 0) == SelfFrom(sorted, id, i)
      {
        var candidate := c[i];
        if candidate.0 == id {
          if candidate.1 == c[0].1 {
            c := c[i := c[0]];
            c := c[0 := candidate];
            break;
          }
        }
        i := i + 1;
      }
      chosen := Prefix(c, num);
    }

    /** `assign_task(task)`: the beacon announcing the current step, and the at most one executor
        the task is delegated to, chosen among `candidates`, the pairs `broadcast_and_collect`
        returned for that beacon. */
    method AssignTask(task: Task, uuid: string, now: int, candidates: seq<Scored>)
      returns (r: Result<(Beacons.Beacon, seq<string>)>)
      ensures var key := IntToString(task.subtaskId);
        && (key !in task.steps ==> r == Raise(KeyError(key)))
        && (key in task.steps && |task.steps[key]| < 2 ==> r == Raise(IndexError))
        && (r.Ok? ==> (&& key in task.steps && |task.steps[key]| >= 2
                       && r.value.0 == Beacons.NewBeacon(VStr(id), VStr(task.steps[key][1]), uuid, now, VStr(key), VInt(2))
                       && r.value.0.taskId == VStr(key) && r.value.0.ttl == VInt(2)
                       && r.value.1 == (if candidates == [] then [] else [Selected(candidates, 1, id)[0].0])))
        && (key in task.steps && |task.steps[key]| >= 2 ==> r.Ok?)
    {
      var key := IntToString(task.subtaskId);
      if key !in task.steps {
        return Raise(KeyError(key));
      }
      if |task.steps[key]| < 2 {
        return Raise(IndexError);
      }
      var beacon := Beacons.NewBeacon(VStr(id), VStr(task.steps[key][1]), uuid, now, VStr(key), VInt(2));
      var best := SelectExecutor(candidates, 1);
      SelectedSpec(candidates, 1, id);
      var executors := [];
      var k := 0;
      while k < |best|
        invariant 0 <= k <= |best| && |executors| == k
        invariant forall j :: 0 <= j < k ==> executors[j] == best[j].0
      {
        executors := executors + [best[k].0];
        k := k + 1;
      }
      r := Ok((beacon, executors));
    }

    /** `handle_beacon(sender_id, beacon)`: the response sent back to the sender carries this
        node's id, the beacon's task id and its match score for the requirement. */
    method HandleBeacon(senderId: string, beacon: Dict, uuid: string, now: int)
      returns (r: Result<(string, Responses.BeaconResponse)>)
      ensures "requirement" !in beacon ==> r == Raise(KeyError("requirement"))
      ensures "requirement" in beacon && !beacon["requirement"].VStr? ==> r == Raise(AttributeError)
      ensures "requirement" in beacon && beacon["requirement"].VStr? && "task_id" !in beacon ==> r == Raise(KeyError("task_id"))
      ensures "requirement" in beacon && beacon["requirement"].VStr? && "task_id" in beacon ==> r.Ok?
      ensures r.Ok? ==> && r.value.0 == senderId
                        && r.value.1.responderId == VStr(id) && r.value.1.taskId == beacon["task_id"]
                        && r.value.1.matchScore == Round3OfMatch(capabManager.capabilities, beacon["requirement"].s)
                        && 0.0 <= r.value.1.matchScore <= 1.0
    {
      if "requirement" !in beacon {
        return Raise(KeyError("requirement"));
      }
      var requirement := beacon["requirement"];
      if !requirement.VStr? {
        return Raise(AttributeError);
      }
      var score := capabManager.Match(requirement.s, 0.5);
      if "task_id" !in beacon {
        return Raise(KeyError("task_id"));
      }
      Capability.MatchScoreFacts(capabManager.capabilities, requirement.s);
      Numeric.Round3Idempotent(Capability.BestRatio(capabManager.capabilities, Lower(requirement.s)));
      var response := Responses.NewResponse(VStr(id), beacon["task_id"], uuid, now, score);
      r := Ok((senderId, response));
    }
  }

  /** The score `match` gives a requirement against a tag list. */
  function Round3OfMatch(tags: seq<string>, requirement: string): real
  {
    Numeric.Round3(Capability.BestRatio(tags, Lower(requirement)))
  }
}
