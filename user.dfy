/** The user node (`User`, agents/user.py): it opens a task chain by announcing a planning step and
    handing the initial task to the first `cot_num` responders, one chain of thought each. */
module Users {
  import opened Values
  import opened Text
  import opened Lists
  import Agents
  import Beacons

  /** `select_executor(candidates, num)`: the first `num` candidates in the order they answered,
      with no ranking at all. */
  function SelectExecutor<C>(candidates: seq<C>, num: int): (chosen: seq<C>)
    ensures |chosen| <= |candidates| && chosen == candidates[..|chosen|]
    ensures num >= 0 ==> |chosen| == if num <= |candidates| then num else |candidates|
  {
    Prefix(candidates, num)
  }

  /** The task `assign_original_task` starts with: step 0, no plan, no results, no final result. */
  function InitialTask(userInput: string, selfId: string): (t: Agents.Task)
    ensures t.subtaskId == 0 && t.steps == map[] && t.previousResults == [] && t.finalResult == ""
    ensures t.originalProblem == userInput && t.userId == selfId
  {
    Agents.Task(0, map[], [], userInput, "", selfId)
  }

  /** The discovery beacon for the planning step: requirement "Plan", task id `str(0)`, ttl 2. */
  function PlanBeacon(selfId: string, uuid: string, now: int): (b: Beacons.Beacon)
    ensures b.sender == VStr(selfId) && b.requirement == VStr("Plan")
    ensures b.taskId == VStr("0") && b.ttl == VInt(2)
    ensures b.beaconId == VStr(uuid) && b.timestamp == VInt(now)
  {
    assert IntToString(0) == "0";
    Beacons.NewBeacon(VStr(selfId), VStr("Plan"), uuid, now, VStr(IntToString(InitialTask("", selfId).subtaskId)), VInt(2))
  }

  /** The executors `assign_original_task` delegates the same task to: one for each of the first
      `min(cot_num, len(candidates))` responders, in the order they answered. */
  function Executors(candidates: seq<(Value, Value)>, cotNum: int): (ids: seq<Value>)
    ensures cotNum >= 0 ==> |ids| == if cotNum <= |candidates| then cotNum else |candidates|
    ensures |ids| <= |candidates|
    ensures forall i :: 0 <= i < |ids| ==> ids[i] == candidates[i].0
  {
    var chosen := SelectExecutor(candidates, cotNum);
    seq(|chosen|, i requires 0 <= i < |chosen| => chosen[i].0)
  }
}
