/** The user's result collector (`UserRunner`, user_register.py): answers arriving from the
    chains of thought are gathered, and once enough have arrived a majority vote picks the final
    result; a timer may declare a timeout first. The listening thread becomes one call of
    `ListenStep` per received message. */
module UserRegisters {
  import opened Wrappers
  import opened Values
  import Isep
  import TaskContracts

  /** How often `x` occurs in `xs`. */
  function Count(xs: seq<Value>, x: Value): nat
  {
    multiset(xs)[x]
  }

  /** Scans `xs` from position `i` on, keeping the leader at position `b` unless a later entry
      occurs strictly more often: the earliest of the most frequent entries wins. */
  function LeaderFrom(xs: seq<Value>, i: nat, b: nat): (p: nat)
    requires b < i <= |xs|
    ensures p < |xs|
    decreases |xs| - i
  {
    if i == |xs| then b
    else LeaderFrom(xs, i + 1, if Count(xs, xs[i]) > Count(xs, xs[b]) then i else b)
  }

  /** The position of the answer `Counter(now_answers).most_common(1)` reports. */
  function VotePosition(xs: seq<Value>): (p: nat)
    requires xs != []
    ensures p < |xs|
  {
    LeaderFrom(xs, 1, 0)
  }

  /** `Counter(now_answers).most_common(1)[0][0]`. */
  function Vote(xs: seq<Value>): Value
    requires xs != []
  {
    xs[VotePosition(xs)]
  }

  /** Scanning on from a leader that is the most frequent of `xs[..i]` and strictly more frequent
      than every entry before it ends with a leader with the same two properties for all of `xs`. */
  lemma {:induction false} LeaderFromSpec(xs: seq<Value>, i: nat, b: nat)
    requires b < i <= |xs|
    requires forall j :: 0 <= j < i ==> Count(xs, xs[j]) <= Count(xs, xs[b])
    requires forall j :: 0 <= j < b ==> Count(xs, xs[j]) < Count(xs, xs[b])
    ensures var p := LeaderFrom(xs, i, b);
      && (forall j :: 0 <= j < |xs| ==> Count(xs, xs[j]) <= Count(xs, xs[p]))
      && (forall j :: 0 <= j < p ==> Count(xs, xs[j]) < Count(xs, xs[p]))
    decreases |xs| - i
  {
    if i < |xs| {
      LeaderFromSpec(xs, i + 1, if Count(xs, xs[i]) > Count(xs, xs[b]) then i else b);
    }
  }

  /** The vote is one of the answers, no answer occurs more often, and every answer that arrived
      before the vote's first occurrence occurs strictly less often: ties go to the earliest. */
  lemma VoteSpec(xs: seq<Value>)
    requires xs != []
    ensures Vote(xs) in xs
    ensures forall j :: 0 <= j < |xs| ==> Count(xs, xs[j]) <= Count(xs, Vote(xs))
    ensures forall j :: 0 <= j < VotePosition(xs) ==> Count(xs, xs[j]) < Count(xs, Vote(xs))
    ensures forall j :: 0 <= j < VotePosition(xs) ==> xs[j] != Vote(xs)
  {
    LeaderFromSpec(xs, 1, 0);
  }

  /** An answer given by every chain wins the vote. */
  lemma UnanimousVote(xs: seq<Value>, a: Value)
    requires xs != [] && forall j :: 0 <= j < |xs| ==> xs[j] == a
    ensures Vote(xs) == a
  {
    VoteSpec(xs);
  }

  /** `Counter` accepts only hashable answers. */
  predicate AllHashable(xs: seq<Value>)
  {
    forall j :: 0 <= j < |xs| ==> Hashable(xs[j])
  }

  /** A `task_result` payload from which both `result` and `previous_results` can be read. */
  predicate Complete(payload: Value)
  {
    payload.VDict? && "result" in payload.fields && "previous_results" in payload.fields
  }

  /** The record `submit_result` sends has no `previous_results`, so a result delivered in that
      form never reaches the vote. */
  lemma SubmittedResultIsIncomplete(r: TaskContracts.TaskResult)
    ensures !Complete(VDict(TaskContracts.ResultToDict(r)))
    ensures VDict(TaskContracts.ResultToDict(r)).fields["result"] == r.result
  {
  }

  class UserRunner {
    const cotNum: int
    /** The final results of all tasks so far. */
    var answers: seq<Value>
    /** The answers of the chains of the current task. */
    var nowAnswers: seq<Value>
    var fullAnswers: seq<Value>
    var finalResult: Value
    /** Whether `result_event` is set. */
    var resultSet: bool

    constructor (cotNum: int)
      ensures this.cotNum == cotNum
      ensures answers == [] && nowAnswers == [] && fullAnswers == [] && finalResult == VStr("") && !resultSet
    {
      this.cotNum := cotNum;
      answers, nowAnswers, fullAnswers, finalResult, resultSet := [], [], [], VStr(""), false;
    }

    /** One pass of `_listen_result`: a `task_result` appends its answer and then its previous
        results; once `cot_num` answers are in, every further one triggers a vote whose winner is
        appended to `answers`. A failed read, or an unhashable answer reaching the vote, ends the
        pass where it failed. */
    method ListenStep(m: Option<Isep.Inbound>)
      modifies this
      ensures !(m.Some? && m.value.tag == "task_result" && m.value.payload.VDict? && "result" in m.value.payload.fields)
        ==> answers == old(answers) && nowAnswers == old(nowAnswers) && fullAnswers == old(fullAnswers)
            && finalResult == old(finalResult) && resultSet == old(resultSet)
      ensures m.Some? && m.value.tag == "task_result" && m.value.payload.VDict? && "result" in m.value.payload.fields
        ==> nowAnswers == old(nowAnswers) + [m.value.payload.fields["result"]]
      ensures m.Some? && m.value.tag == "task_result" && !Complete(m.value.payload)
        ==> answers == old(answers) && fullAnswers == old(fullAnswers)
            && finalResult == old(finalResult) && resultSet == old(resultSet)
      ensures m.Some? && m.value.tag == "task_result" && Complete(m.value.payload) ==>
        && fullAnswers == old(fullAnswers) + [m.value.payload.fields["previous_results"]]
        && (|nowAnswers| >= cotNum && AllHashable(nowAnswers) ==>
              answers == old(answers) + [Vote(nowAnswers)] && finalResult == Vote(nowAnswers) && resultSet)
        && (!(|nowAnswers| >= cotNum && AllHashable(nowAnswers)) ==>
              answers == old(answers) && finalResult == old(finalResult) && resultSet == old(resultSet))
    {
      if m.None? || m.value.tag != "task_result" {
        return;
      }
      var result := m.value.payload;
      if !result.VDict? || "result" !in result.fields {
        return;
      }
      nowAnswers := nowAnswers + [result.fields["result"]];
      if "previous_results" !in result.fields {
        return;
      }
      fullAnswers := fullAnswers + [result.fields["previous_results"]];
      if |nowAnswers| >= cotNum && AllHashable(nowAnswers) {
        finalResult := Vote(nowAnswers);
        answers := answers + [finalResult];
        resultSet := true;
      }
    }

    /** `timeout_handler`: the timeout is recorded only when no result was voted yet. */
    method Timeout()
      modifies this
      ensures old(resultSet) ==> finalResult == old(finalResult)
      ensures !old(resultSet) ==> finalResult == VStr("[TIMEOUT]")
      ensures resultSet
      ensures answers == old(answers) && nowAnswers == old(nowAnswers) && fullAnswers == old(fullAnswers)
    {
      if !resultSet {
        finalResult := VStr("[TIMEOUT]");
        resultSet := true;
      }
    }

    /** The start of each task in `loop_tasks`, with the event cleared by `address_task`: the
        per-task state is reset and the results of earlier tasks are kept. */
    method BeginTask()
      modifies this
      ensures nowAnswers == [] && fullAnswers == [] && finalResult == VStr("") && !resultSet
      ensures answers == old(answers)
    {
      nowAnswers, fullAnswers, finalResult, resultSet := [], [], VStr(""), false;
    }
  }
}
