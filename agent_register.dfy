/** The worker's listeners (`AgentRunner`, agent_register.py): the beacon listener runs only while
    beacons are enabled, and the task listener runs one task at a time, pausing beacons meanwhile.
    Each listening thread becomes one call per received message; what `execute` yields for the
    task is a parameter. */
module AgentRegisters {
  import opened Wrappers
  import opened Values
  import Isep
  import Agents

  /** What one pass of the task listener does with a message. */
  datatype TaskOutcome =
    | Ignored                          // not a message the listener acts on
    | Failed(exc: Exception)           // an exception, caught and logged by the loop
    | Reassigned(task: Agents.Task)    // `assign_task(new_task)` for the next step

  /** The listener's flags after handling an accepted task, and what it did: `first` is
      `first_task_received`, `enabled` is `beacon_enabled`. */
  function TaskTransition(first: bool, enabled: bool, executed: Result<Agents.Task>): (r: (bool, bool, TaskOutcome))
    ensures first ==> r == (true, enabled, Failed(AttributeError))
    ensures !first && executed.Raise? ==> r == (true, false, Failed(executed.exc))
    ensures !first && executed.Ok? ==>
      if executed.value.subtaskId == |executed.value.steps| + 1
      then r == (true, false, Failed(TypeError))
      else r == (false, true, Reassigned(executed.value))
  {
    if first then
      // the relay branch logs `self.current_task_id`, which was never set
      (true, enabled, Failed(AttributeError))
    else
      match executed
      case Raise(e) => (true, false, Failed(e))
      case Ok(t) =>
        if t.subtaskId == |t.steps| + 1 then
          // `submit_result` is called with three arguments but takes two
          (true, false, Failed(TypeError))
        else (false, true, Reassigned(t))
  }

  /** After a final task the listener is stuck: beacons stay paused, every further task fails in
      the relay branch, and the flags no longer change. */
  lemma StuckAfterFinalTask(t: Agents.Task, later: seq<Result<Agents.Task>>)
    requires t.subtaskId == |t.steps| + 1
    ensures TaskTransition(false, true, Ok(t)) == (true, false, Failed(TypeError))
    ensures forall k :: 0 <= k < |later| ==> TaskTransition(true, false, later[k]) == (true, false, Failed(AttributeError))
  {
  }

  /** An intermediate step re-enables beacons and hands the task on. */
  lemma IntermediateStepIsReassigned(t: Agents.Task)
    requires t.subtaskId != |t.steps| + 1
    ensures TaskTransition(false, false, Ok(t)) == (false, true, Reassigned(t))
  {
  }

  class AgentRunner {
    var beaconEnabled: bool
    var firstTaskReceived: bool

    /** Beacons are enabled and no task was received yet. */
    constructor ()
      ensures beaconEnabled && !firstTaskReceived
    {
      beaconEnabled, firstTaskReceived := true, false;
    }

    /** One pass of `_listen_beacon`: the inbox is read only while beacons are enabled, and the
        message read is handed to `handle_beacon` when it is a beacon. */
    method ListenBeacon(client: Isep.IsepClient) returns (handled: Option<Isep.Inbound>)
      requires client.Valid()
      modifies client
      ensures client.Valid()
      ensures !beaconEnabled ==> handled == None && client.beaconQueue == old(client.beaconQueue)
      ensures beaconEnabled && old(client.beaconQueue) == [] ==> handled == None && client.beaconQueue == []
      ensures beaconEnabled && old(client.beaconQueue) != [] ==>
        && client.beaconQueue == old(client.beaconQueue)[1..]
        && (old(client.beaconQueue)[0].tag == "beacon" ==> handled == Some(old(client.beaconQueue)[0]))
        && (old(client.beaconQueue)[0].tag != "beacon" ==> handled == None)
      ensures client.subtaskQueue == old(client.subtaskQueue) && client.resultQueue == old(client.resultQueue)
    {
      handled := None;
      if beaconEnabled {
        var m := client.ReceiveBeacon();
        if m.Some? && m.value.tag == "beacon" {
          handled := m;
        }
      }
    }

    /** The part of `_listen_tasks` that runs for an accepted task. */
    method HandleTask(executed: Result<Agents.Task>) returns (outcome: TaskOutcome)
      modifies this
      ensures (firstTaskReceived, beaconEnabled, outcome) == TaskTransition(old(firstTaskReceived), old(beaconEnabled), executed)
    {
      if !firstTaskReceived {
        firstTaskReceived := true;
        beaconEnabled := false;
        match executed {
          case Raise(e) =>
            outcome := Failed(e);
          case Ok(t) =>
            if t.subtaskId == |t.steps| + 1 {
              outcome := Failed(TypeError);
            } else {
              beaconEnabled := true;
              firstTaskReceived := false;
              outcome := Reassigned(t);
            }
        }
      } else {
        outcome := Failed(AttributeError);
      }
    }

    /** One pass of `_listen_tasks` as written: the oldest queued contract is read, and only a
        message tagged "task" is acted on. Since the client queues every contract under
        "subtask", no queued contract is ever acted on. */
    method ListenTasks(client: Isep.IsepClient, executed: Result<Agents.Task>) returns (outcome: TaskOutcome)
      requires client.Valid()
      modifies this, client
      ensures client.Valid()
      ensures old(client.subtaskQueue) == [] ==> client.subtaskQueue == []
      ensures old(client.subtaskQueue) != [] ==> client.subtaskQueue == old(client.subtaskQueue)[1..]
      ensures !(old(client.subtaskQueue) != [] && old(client.subtaskQueue)[0].tag == "task") ==>
        outcome == Ignored && firstTaskReceived == old(firstTaskReceived) && beaconEnabled == old(beaconEnabled)
      ensures old(client.subtaskQueue) != [] && old(client.subtaskQueue)[0].tag == "task" ==>
        (firstTaskReceived, beaconEnabled, outcome) == TaskTransition(old(firstTaskReceived), old(beaconEnabled), executed)
      ensures Tagged(old(client.subtaskQueue), "subtask") ==>
        outcome == Ignored && firstTaskReceived == old(firstTaskReceived) && beaconEnabled == old(beaconEnabled)
      ensures client.beaconQueue == old(client.beaconQueue) && client.resultQueue == old(client.resultQueue)
    {
      var m := client.ReceiveTask();
      if m.Some? && m.value.tag == "task" {
        outcome := HandleTask(executed);
      } else {
        outcome := Ignored;
      }
    }

    /** The pass with the tag the client queues contracts under: every queued contract is acted
        on. */
    method ListenTasksIntended(client: Isep.IsepClient, executed: Result<Agents.Task>) returns (outcome: TaskOutcome)
      requires client.Valid()
      modifies this, client
      ensures client.Valid()
      ensures old(client.subtaskQueue) == [] ==> client.subtaskQueue == []
      ensures old(client.subtaskQueue) != [] ==> client.subtaskQueue == old(client.subtaskQueue)[1..]
      ensures old(client.subtaskQueue) == [] ==>
        outcome == Ignored && firstTaskReceived == old(firstTaskReceived) && beaconEnabled == old(beaconEnabled)
      ensures Tagged(old(client.subtaskQueue), "subtask") && old(client.subtaskQueue) != [] ==>
        (firstTaskReceived, beaconEnabled, outcome) == TaskTransition(old(firstTaskReceived), old(beaconEnabled), executed)
      ensures client.beaconQueue == old(client.beaconQueue) && client.resultQueue == old(client.resultQueue)
    {
      var m := client.ReceiveTask();
      if m.Some? && m.value.tag == "subtask" {
        outcome := HandleTask(executed);
      } else {
        outcome := Ignored;
      }
    }
  }

  /** Every entry of the queue carries `tag`. */
  predicate Tagged(q: seq<Isep.Inbound>, tag: string)
  {
    forall k :: 0 <= k < |q| ==> q[k].tag == tag
  }
}
