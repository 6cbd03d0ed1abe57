/** The requester node (`TaskRequester`, agents/task_requester.py): it turns the model's plan into a
    DAG of subtasks and announces each subtask in turn, delegating it to the first responder. */
module TaskRequesters {
  import opened Wrappers
  import opened Values
  import Beacons
  import TaskContracts
  import Isep

  /** A `(responder_id, match_score)` pair as `broadcast_and_collect` returns it. */
  type Candidate = (Value, Value)

  /** `decompose_task`: the DAG built from the model's structure, which is empty when the
      structure is malformed. */
  function Decompose(structure: Value): (g: TaskContracts.TaskDAG)
    ensures !structure.VDict? ==> g == TaskContracts.EmptyDAG
    ensures structure.VDict? && "steps" !in structure.fields ==> g.subtasks == []
    ensures g == TaskContracts.EmptyDAG || (structure.VDict? && TaskContracts.DagFromDict(structure.fields) == Ok(g))
  {
    TaskContracts.DagFromStructure(structure)
  }

  /** `select_executor(candidates, subtask)`: the first candidate, or None when nobody answered. */
  function SelectExecutor(candidates: seq<Candidate>): (r: Option<Candidate>)
    ensures r.None? <==> candidates == []
    ensures r.Some? ==> r.value == candidates[0]
  {
    if candidates == [] then None else Some(candidates[0])
  }

  /** The beacon announcing a subtask: its id (or the fresh beacon id when that is falsy) and its
      requirement, with ttl 2. */
  function SubtaskBeacon(selfId: string, s: TaskContracts.SubTask, uuid: string, now: int): (b: Beacons.Beacon)
    ensures b.sender == VStr(selfId) && b.requirement == s.requirement && b.ttl == VInt(2)
    ensures b.taskId == if Truthy(s.id) then s.id else VStr(uuid)
  {
    Beacons.NewBeacon(VStr(selfId), s.requirement, uuid, now, s.id, VInt(2))
  }

  /** A Python tuple travels as a JSON list. */
  function TupleValue(p: Candidate): Value
  {
    VList([p.0, p.1])
  }

  /** The executor argument `assign_subtasks` passes as written: the whole pair `best_match`. */
  function ExecutorAsWritten(best: Candidate): (executor: Value)
    ensures executor.VList? && |executor.items| == 2 && executor.items[0] == best.0
    ensures forall id: string :: executor != VStr(id)
  {
    TupleValue(best)
  }

  /** The executor evidently intended: the responder id of the pair. */
  function ExecutorIntended(best: Candidate): (executor: Value)
    ensures executor == best.0
  {
    best.0
  }

  /** With the pairs built from the stored responses, the intended executor is the first
      responder, while the one passed as written is never a node id. */
  lemma ExecutorOfFirstResponse(responses: seq<Value>)
    requires Isep.Candidates(responses).Ok? && responses != []
    ensures ExecutorIntended(Isep.Candidates(responses).value[0]) == responses[0].fields["responder_id"]
    ensures forall id: string :: ExecutorAsWritten(Isep.Candidates(responses).value[0]) != VStr(id)
  {
  }

  /** What happens for one subtask: the beacon, and the executor it is delegated to, if any. */
  datatype Round = Round(beacon: Beacons.Beacon, delegatedTo: Option<Value>)

  /** One round as written. */
  function RoundFor(selfId: string, s: TaskContracts.SubTask, uuid: string, now: int,
                    collect: Beacons.Beacon -> seq<Candidate>): (r: Round)
    ensures r.beacon == SubtaskBeacon(selfId, s, uuid, now)
    ensures r.delegatedTo.None? <==> collect(r.beacon) == []
    ensures r.delegatedTo.Some? ==> r.delegatedTo.value == ExecutorAsWritten(collect(r.beacon)[0])
  {
    var beacon := SubtaskBeacon(selfId, s, uuid, now);
    match SelectExecutor(collect(beacon))
    case None => Round(beacon, None)
    case Some(best) => Round(beacon, Some(ExecutorAsWritten(best)))
  }

  /** One round with the intended executor. */
  function IntendedRoundFor(selfId: string, s: TaskContracts.SubTask, uuid: string, now: int,
                            collect: Beacons.Beacon -> seq<Candidate>): (r: Round)
    ensures r.beacon == SubtaskBeacon(selfId, s, uuid, now)
    ensures r.delegatedTo.None? <==> collect(r.beacon) == []
    ensures r.delegatedTo.Some? ==> r.delegatedTo.value == collect(r.beacon)[0].0
  {
    var beacon := SubtaskBeacon(selfId, s, uuid, now);
    match SelectExecutor(collect(beacon))
    case None => Round(beacon, None)
    case Some(best) => Round(beacon, Some(ExecutorIntended(best)))
  }

  /** Python's binding of positional arguments to `ISEPClient(node_id, network_adapter,
      response_timeout=1)`: the call succeeds only with two or three of them. */
  predicate IsepClientBinds(given: nat)
  {
    2 <= given <= 3
  }

  /** `TaskRequester.__init__` as written: the ISEP client is built from the node id alone, so
      the missing `network_adapter` raises TypeError whatever the id, and no requester (hence no
      `assign_subtasks`) is ever reached. The result is the id the requester would keep. */
  function NewTaskRequester(id: string): (r: Result<string>)
    ensures r == Raise(TypeError)
  {
    if IsepClientBinds(1) then Ok(id) else Raise(TypeError)  // ISEPClient(self.id)
  }

  /** Corrected: the client is given the node id and the network adapter, as the agent and the
      user build theirs, and construction keeps the id. */
  function NewTaskRequesterIntended(id: string): (r: Result<string>)
    ensures r == Ok(id)
  {
    if IsepClientBinds(2) then Ok(id) else Raise(TypeError)  // ISEPClient(self.id, network)
  }

  /** The requester built as `NewTaskRequesterIntended` builds it; the network client is left out. */
  class TaskRequester {
    const id: string

    constructor (id: string)
      ensures NewTaskRequesterIntended(id) == Ok(this.id)
    {
      this.id := id;
    }

    /** `assign_subtasks(task_dag)`: one beacon per subtask, in the DAG's order, and at most one
        delegation per subtask, made only when somebody answered. `uuids(i)` is the fresh id of
        the i-th beacon and `collect` stands for `broadcast_and_collect`. As written the loop is
        never reached, because construction raises (`NewTaskRequester`). */
    method AssignSubtasks(dag: TaskContracts.TaskDAG, uuids: nat -> string, now: int,
                          collect: Beacons.Beacon -> seq<Candidate>)
      returns (rounds: seq<Round>)
      ensures |rounds| == |dag.subtasks|
      ensures forall i :: 0 <= i < |rounds| ==> rounds[i] == RoundFor(id, dag.subtasks[i], uuids(i), now, collect)
      ensures forall i :: 0 <= i < |rounds| ==>
        && rounds[i].beacon.requirement == dag.subtasks[i].requirement && rounds[i].beacon.ttl == VInt(2)
        && (rounds[i].delegatedTo.Some? <==> collect(rounds[i].beacon) != [])
    {
      rounds := [];
      var i := 0;
      while i < |dag.subtasks|
        invariant 0 <= i <= |dag.subtasks| && |rounds| == i
        invariant forall k :: 0 <= k < i ==> rounds[k] == RoundFor(id, dag.subtasks[k], uuids(k), now, collect)
      {
        var subtask := dag.subtasks[i];
        var beacon := SubtaskBeacon(id, subtask, uuids(i), now);
        var candidates := collect(beacon);
        var best := SelectExecutor(candidates);
        var delegatedTo := None;
        if best.Some? {
          delegatedTo := Some(ExecutorAsWritten(best.value));
        }
        rounds := rounds + [Round(beacon, delegatedTo)];
        i := i + 1;
      }
    }

    /** The same loop with the intended executor: every delegation goes to the first responder. */
    method AssignSubtasksIntended(dag: TaskContracts.TaskDAG, uuids: nat -> string, now: int,
                                  collect: Beacons.Beacon -> seq<Candidate>)
      returns (rounds: seq<Round>)
      ensures |rounds| == |dag.subtasks|
      ensures forall i :: 0 <= i < |rounds| ==> rounds[i] == IntendedRoundFor(id, dag.subtasks[i], uuids(i), now, collect)
      ensures forall i :: 0 <= i < |rounds| ==>
        && rounds[i].beacon.requirement == dag.subtasks[i].requirement && rounds[i].beacon.ttl == VInt(2)
        && (collect(rounds[i].beacon) == [] ==> rounds[i].delegatedTo == None)
        && (collect(rounds[i].beacon) != [] ==> rounds[i].delegatedTo == Some(collect(rounds[i].beacon)[0].0))
    {
      rounds := [];
      var i := 0;
      while i < |dag.subtasks|
        invariant 0 <= i <= |dag.subtasks| && |rounds| == i
        invariant forall k :: 0 <= k < i ==> rounds[k] == IntendedRoundFor(id, dag.subtasks[k], uuids(k), now, collect)
      {
        var subtask := dag.subtasks[i];
        var beacon := SubtaskBeacon(id, subtask, uuids(i), now);
        var best := SelectExecutor(collect(beacon));
        var delegatedTo := None;
        if best.Some? {
          delegatedTo := Some(ExecutorIntended(best.value));
        }
        rounds := rounds + [Round(beacon, delegatedTo)];
        i := i + 1;
      }
    }
  }
}
