/** Contracts, results, allocations, subtasks and task DAGs exchanged between nodes
    (`protocol/task_contract.py`). */
module TaskContracts {
  import opened Wrappers
  import opened Values

  // ---------------------------------------------------------------- TaskContract

  datatype TaskContract = TaskContract(contractId: Value, taskId: Value, assignedTo: Value,
                                       originalProblem: Value, previousResults: Value,
                                       instructions: Value, decomposed: Value, timestamp: Value)

  /** The constructor, with the fresh uuid and the clock given. */
  function NewContract(taskId: Value, assignedTo: Value, originalProblem: Value, previousResults: Value,
                       instructions: Value, decomposed: Value, uuid: string, now: int): (c: TaskContract)
    ensures c.contractId == VStr(uuid) && c.timestamp == VInt(now)
    ensures c.taskId == taskId && c.assignedTo == assignedTo && c.originalProblem == originalProblem
    ensures c.previousResults == previousResults && c.instructions == instructions && c.decomposed == decomposed
  {
    TaskContract(VStr(uuid), taskId, assignedTo, originalProblem, previousResults, instructions, decomposed, VInt(now))
  }

  function ContractToDict(c: TaskContract): (d: Dict)
    ensures d.Keys == {"contract_id", "task_id", "assigned_to", "original_problem", "previous_results",
                       "instructions", "decomposed", "timestamp"}
  {
    map["contract_id" := c.contractId, "task_id" := c.taskId, "assigned_to" := c.assignedTo,
        "original_problem" := c.originalProblem, "previous_results" := c.previousResults,
        "instructions" := c.instructions, "decomposed" := c.decomposed, "timestamp" := c.timestamp]
  }

  /** The six keys `from_dict` reads with `data[key]`, in the order it reads them. */
  const ContractKeys := ["task_id", "assigned_to", "original_problem", "previous_results", "instructions", "decomposed"]

  /** `from_dict`: every key is read directly, so the first missing one raises KeyError; the
      contract id and the timestamp are new. */
  function ContractFromDict(d: Dict, uuid: string, now: int): (r: Result<TaskContract>)
    ensures r.Raise? <==> exists i :: 0 <= i < |ContractKeys| && ContractKeys[i] !in d
    ensures r.Raise? ==> r.exc.KeyError? && r.exc.key in ContractKeys && r.exc.key !in d
    ensures r.Ok? <==> forall k :: k in ContractKeys ==> k in d
    ensures r.Ok? ==> "task_id" in d && "assigned_to" in d && "original_problem" in d
                      && "previous_results" in d && "instructions" in d && "decomposed" in d
    ensures r.Ok? ==> r.value.contractId == VStr(uuid) && r.value.timestamp == VInt(now)
    ensures r.Ok? ==> r.value.taskId == d["task_id"] && r.value.assignedTo == d["assigned_to"]
    ensures r.Ok? ==> r.value.originalProblem == d["original_problem"] && r.value.previousResults == d["previous_results"]
    ensures r.Ok? ==> r.value.instructions == d["instructions"] && r.value.decomposed == d["decomposed"]
  {
    match FirstMissing(d, ContractKeys)
    case Some(k) => Raise(KeyError(k))
    case None =>
      assert ContractKeys[0] in d && ContractKeys[1] in d && ContractKeys[2] in d;
      assert ContractKeys[3] in d && ContractKeys[4] in d && ContractKeys[5] in d;
      Ok(NewContract(d["task_id"], d["assigned_to"], d["original_problem"], d["previous_results"],
                     d["instructions"], d["decomposed"], uuid, now))
  }

  /** Round trip: the six payload fields survive, the id and the timestamp are regenerated. */
  lemma ContractRoundTrip(c: TaskContract, uuid: string, now: int)
    ensures ContractFromDict(ContractToDict(c), uuid, now) == Ok(c.(contractId := VStr(uuid), timestamp := VInt(now)))
  {
    assert FirstMissing(ContractToDict(c), ContractKeys) == None;
  }

  // ---------------------------------------------------------------- TaskResult

  datatype TaskResult = TaskResult(targetId: Value, executerId: Value, result: Value)

  function ResultToDict(r: TaskResult): (d: Dict)
    ensures d.Keys == {"target_id", "executer_id", "result"}
    ensures d["target_id"] == r.targetId && d["executer_id"] == r.executerId && d["result"] == r.result
  {
    map["target_id" := r.targetId, "executer_id" := r.executerId, "result" := r.result]
  }

  /** `from_dict` reads `task_id`, `executer_id` and `result`, then calls the constructor with a
      `task_id` keyword it does not accept: a KeyError for the first missing key, a TypeError
      otherwise, and never a result. */
  function ResultFromDict(d: Dict): (r: Result<TaskResult>)
    ensures r.Raise?
    ensures "task_id" !in d ==> r.exc == KeyError("task_id")
    ensures r.exc == TypeError <==> "task_id" in d && "executer_id" in d && "result" in d
  {
    match FirstMissing(d, ["task_id", "executer_id", "result"])
    case Some(k) => Raise(KeyError(k))
    case None => Raise(TypeError)
  }

  /** A result's own dictionary has no `task_id`, so decoding it fails with KeyError('task_id'). */
  lemma ResultRoundTripFails(r: TaskResult)
    ensures ResultFromDict(ResultToDict(r)) == Raise(KeyError("task_id"))
  {
  }

  // ---------------------------------------------------------------- TaskAllocation

  /** An allocation only wraps the mapping it was built from. */
  datatype TaskAllocation = TaskAllocation(allocation: Value)

  /** `to_dict` hands back the stored mapping itself. */
  function AllocationToDict(a: TaskAllocation): (v: Value)
    ensures v == a.allocation
  {
    a.allocation
  }

  /** `from_dict` is the identity: it returns its argument, not a TaskAllocation. */
  function AllocationFromDict(data: Value): (v: Value)
    ensures v == data
  {
    data
  }

  // ---------------------------------------------------------------- SubTask

  datatype SubTask = SubTask(id: Value, requirement: Value, originalProblem: Value,
                             previousResults: Value, instructions: Value, decomposed: Value)

  /** The constructor with its defaults: id None, empty strings, an empty result list, decomposed. */
  function NewSubTask(id: Value := VNull, requirement: Value := VStr(""), originalProblem: Value := VStr(""),
                      previousResults: Value := VList([]), instructions: Value := VStr(""),
                      decomposed: Value := VBool(true)): (s: SubTask)
    ensures s.id == id && s.requirement == requirement && s.originalProblem == originalProblem
    ensures s.previousResults == previousResults && s.instructions == instructions && s.decomposed == decomposed
  {
    SubTask(id, requirement, originalProblem, previousResults, instructions, decomposed)
  }

  function SubTaskToDict(s: SubTask): (d: Dict)
    ensures d.Keys == {"id", "requirement", "original_problem", "previous_results", "instructions", "decomposed"}
  {
    map["id" := s.id, "requirement" := s.requirement, "original_problem" := s.originalProblem,
        "previous_results" := s.previousResults, "instructions" := s.instructions, "decomposed" := s.decomposed]
  }

  /** `from_dict`: every key is read with `get`, falling back to the constructor's defaults. */
  function SubTaskFromDict(d: Dict): (s: SubTask)
    ensures s.id == Get(d, "id", VNull)
    ensures s.requirement == Get(d, "requirement", VStr(""))
    ensures s.originalProblem == Get(d, "original_problem", VStr(""))
    ensures s.previousResults == Get(d, "previous_results", VList([]))
    ensures s.instructions == Get(d, "instructions", VStr(""))
    ensures s.decomposed == Get(d, "decomposed", VBool(true))
  {
    NewSubTask(Get(d, "id", VNull), Get(d, "requirement", VStr("")), Get(d, "original_problem", VStr("")),
               Get(d, "previous_results", VList([])), Get(d, "instructions", VStr("")),
               Get(d, "decomposed", VBool(true)))
  }

  /** Round trip: all six fields survive. */
  lemma SubTaskRoundTrip(s: SubTask)
    ensures SubTaskFromDict(SubTaskToDict(s)) == s
  {
  }

  /** An empty dictionary decodes to the default subtask. */
  lemma SubTaskDefaults()
    ensures SubTaskFromDict(map[]) == NewSubTask()
  {
  }

  // ---------------------------------------------------------------- TaskDAG

  datatype TaskDAG = TaskDAG(subtasks: seq<SubTask>, dependencies: Value)

  const EmptyDAG := TaskDAG([], VList([]))

  /** `[s.to_dict() for s in steps]` */
  function StepDicts(ss: seq<SubTask>): (vs: seq<Value>)
    ensures |vs| == |ss|
    ensures forall i :: 0 <= i < |ss| ==> vs[i] == VDict(SubTaskToDict(ss[i]))
  {
    if ss == [] then [] else [VDict(SubTaskToDict(ss[0]))] + StepDicts(ss[1..])
  }

  function DagToDict(g: TaskDAG): (d: Dict)
    ensures d.Keys == {"steps", "dependencies"}
    ensures d["steps"].VList? && |d["steps"].items| == |g.subtasks|
    ensures d["dependencies"] == g.dependencies
  {
    map["steps" := VList(StepDicts(g.subtasks)), "dependencies" := g.dependencies]
  }

  /** `[SubTask.from_dict(s) for s in xs]`: an element that is not a dict has no `get`. */
  function SubTasksOf(xs: seq<Value>): (r: Result<seq<SubTask>>)
    ensures r.Ok? <==> forall i :: 0 <= i < |xs| ==> xs[i].VDict?
    ensures r.Ok? ==> |r.value| == |xs| && forall i :: 0 <= i < |xs| ==> r.value[i] == SubTaskFromDict(xs[i].fields)
    ensures r.Raise? ==> r.exc == AttributeError
  {
    if xs == [] then Ok([])
    else match xs[0]
      case VDict(m) =>
        (match SubTasksOf(xs[1..])
         case Ok(rest) => Ok([SubTaskFromDict(m)] + rest)
         case Raise(e) => Raise(e))
      case _ => Raise(AttributeError)
  }

  /** The subtasks found by iterating over the `steps` value: iterating a dict yields its string
      keys, which have no `get`; a value that is not iterable raises TypeError. */
  function StepsOf(v: Value): (r: Result<seq<SubTask>>)
    ensures v.VList? ==> r == SubTasksOf(v.items)
  {
    match Iterate(v)
    case Items(xs) => SubTasksOf(xs)
    case KeysOf(m) => if m == map[] then Ok([]) else Raise(AttributeError)
    case NotIterable => Raise(TypeError)
  }

  /** `from_dict`: missing `steps` and `dependencies` are empty lists. */
  function DagFromDict(d: Dict): (r: Result<TaskDAG>)
    ensures "steps" !in d ==> r == Ok(TaskDAG([], Get(d, "dependencies", VList([]))))
    ensures r.Ok? ==> r.value.dependencies == Get(d, "dependencies", VList([]))
    ensures r.Ok? <==> StepsOf(Get(d, "steps", VList([]))).Ok?
  {
    match StepsOf(Get(d, "steps", VList([])))
    case Ok(ss) => Ok(TaskDAG(ss, Get(d, "dependencies", VList([]))))
    case Raise(e) => Raise(e)
  }

  /** `from_structure`: `from_dict` with every exception (a `raw` that is not a dict has no
      `get` either) turned into the empty DAG. */
  function DagFromStructure(raw: Value): (g: TaskDAG)
    ensures raw.VDict? && DagFromDict(raw.fields).Ok? ==> g == DagFromDict(raw.fields).value
    ensures !(raw.VDict? && DagFromDict(raw.fields).Ok?) ==> g == EmptyDAG
  {
    if raw.VDict? then
      match DagFromDict(raw.fields)
      case Ok(g) => g
      case Raise(_) => EmptyDAG
    else EmptyDAG
  }

  /** Decoding encoded steps gives the steps back, in order. */
  lemma {:induction false} SubTasksOfStepDicts(ss: seq<SubTask>)
    ensures SubTasksOf(StepDicts(ss)) == Ok(ss)
  {
    if ss != [] {
      SubTasksOfStepDicts(ss[1..]);
      SubTaskRoundTrip(ss[0]);
      assert StepDicts(ss)[1..] == StepDicts(ss[1..]);
      assert [ss[0]] + ss[1..] == ss;
    }
  }

  /** Round trip: step order, every step and the dependency list survive. */
  lemma DagRoundTrip(g: TaskDAG)
    ensures DagFromDict(DagToDict(g)) == Ok(g)
    ensures DagFromStructure(VDict(DagToDict(g))) == g
  {
    SubTasksOfStepDicts(g.subtasks);
  }

  /** A structure whose steps list holds something other than a dict yields the empty DAG. */
  lemma MalformedStepGivesEmptyDAG(d: Dict, i: nat)
    requires "steps" in d && d["steps"].VList? && i < |d["steps"].items| && !d["steps"].items[i].VDict?
    ensures DagFromStructure(VDict(d)) == EmptyDAG
  {
  }
}
