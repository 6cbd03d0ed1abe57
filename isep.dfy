/**
 * The discovery and delegation client (`ISEPClient`): responses collected per task id, three
 * FIFO inboxes fed by the transport's handlers, and the records sent for delegation and results.
 * The one-second sleep of `broadcast_and_collect` becomes the parameter `arrivals`: the
 * `beacon_response` payloads the transport delivered meanwhile, in arrival order.
 */
module Isep {
  import opened Wrappers
  import opened Values
  import opened Framing
  import opened Transport
  import Beacons
  import TaskContracts

  /** The five handlers the client registers on its transport. */
  datatype IsepHandler = OnBeacon | OnBeaconResponse | OnTaskAllocation | OnTask | OnTaskResult

  /** The routing of message types to handlers the constructor installs. */
  const IsepHandlers: map<string, IsepHandler> :=
    map["beacon" := OnBeacon, "beacon_response" := OnBeaconResponse, "task_allocation" := OnTaskAllocation,
        "task_contract" := OnTask, "task_result" := OnTaskResult]

  /** Registering the five handlers one after another is adding `IsepHandlers`. */
  lemma RegisterAll(h: map<string, IsepHandler>)
    ensures h["beacon" := OnBeacon]["beacon_response" := OnBeaconResponse]["task_allocation" := OnTaskAllocation]
             ["task_contract" := OnTask]["task_result" := OnTaskResult] == h + IsepHandlers
  {
  }

  /** A queued message: `(sender_id, tag, payload)`. */
  datatype Inbound = Inbound(sender: Value, tag: string, payload: Value)

  type Pending = map<Value, seq<Value>>

  /** `_handle_beacon_response`: `pending_tasks[response["task_id"]].append(response)`. */
  function StoreResponse(p: Pending, response: Value): (r: Result<Pending>)
    ensures r.Ok? <==> response.VDict? && "task_id" in response.fields
                       && Hashable(response.fields["task_id"]) && response.fields["task_id"] in p
    ensures r.Ok? ==> var k := response.fields["task_id"];
                      r.value == p[k := p[k] + [response]]
  {
    if !response.VDict? then Raise(TypeError)
    else if "task_id" !in response.fields then Raise(KeyError("task_id"))
    else
      var k := response.fields["task_id"];
      if !Hashable(k) then Raise(TypeError)
      else if k !in p then Raise(KeyError(KeyText(k)))
      else Ok(p[k := p[k] + [response]])
  }

  /** The table after a run of responses was handled; the accept loop swallows the exception of
      a response that could not be stored. */
  function StoreAll(p: Pending, responses: seq<Value>): (q: Pending)
    ensures q.Keys == p.Keys
  {
    if responses == [] then p
    else
      var before := StoreAll(p, responses[..|responses| - 1]);
      match StoreResponse(before, responses[|responses| - 1])
      case Ok(after) => after
      case Raise(_) => before
  }

  /** Does `response` carry the task id `k`? */
  predicate For(response: Value, k: Value)
  {
    response.VDict? && "task_id" in response.fields && response.fields["task_id"] == k
  }

  /** The responses of `responses` that carry the task id `k`, in arrival order. */
  function ResponsesFor(responses: seq<Value>, k: Value): (rs: seq<Value>)
    ensures forall i :: 0 <= i < |rs| ==> For(rs[i], k)
    ensures |rs| <= |responses|
  {
    if responses == [] then []
    else
      var last := responses[|responses| - 1];
      ResponsesFor(responses[..|responses| - 1], k) + (if For(last, k) then [last] else [])
  }

  /** Each pending list grows by exactly the responses that carry its task id, in order, and
      nothing else: a response for an id without a pending entry is lost. */
  lemma {:induction false} StoreAllSpec(p: Pending, responses: seq<Value>, k: Value)
    requires k in p && Hashable(k)
    ensures StoreAll(p, responses)[k] == p[k] + ResponsesFor(responses, k)
  {
    if responses != [] {
      var init := responses[..|responses| - 1];
      StoreAllSpec(p, init, k);
      var before := StoreAll(p, init);
      var last := responses[|responses| - 1];
      if For(last, k) {
        assert StoreResponse(before, last) == Ok(before[k := before[k] + [last]]);
      }
    }
  }

  /** `[(r["responder_id"], r["match_score"]) for r in responses]`. */
  function Candidates(responses: seq<Value>): (r: Result<seq<(Value, Value)>>)
    ensures r.Ok? <==> forall i :: 0 <= i < |responses| ==>
              responses[i].VDict? && "responder_id" in responses[i].fields && "match_score" in responses[i].fields
    ensures r.Ok? ==> |r.value| == |responses|
    ensures r.Ok? ==> forall i :: 0 <= i < |responses| ==>
              r.value[i] == (responses[i].fields["responder_id"], responses[i].fields["match_score"])
  {
    if responses == [] then Ok([])
    else
      match Candidates(responses[..|responses| - 1])
      case Raise(e) => Raise(e)
      case Ok(init) =>
        var last := responses[|responses| - 1];
        if !last.VDict? then Raise(TypeError)
        else if "responder_id" !in last.fields then Raise(KeyError("responder_id"))
        else if "match_score" !in last.fields then Raise(KeyError("match_score"))
        else Ok(init + [(last.fields["responder_id"], last.fields["match_score"])])
  }

  /** The contract `delegate_task` sends: the subtask's fields, assigned to the executor. */
  function DelegationContract(executorId: string, subtask: TaskContracts.SubTask, uuid: string, now: int)
    : (c: TaskContracts.TaskContract)
    ensures c.taskId == subtask.id && c.assignedTo == VStr(executorId)
    ensures c.originalProblem == subtask.originalProblem && c.previousResults == subtask.previousResults
    ensures c.instructions == subtask.instructions && c.decomposed == subtask.decomposed
  {
    TaskContracts.NewContract(subtask.id, VStr(executorId), subtask.originalProblem, subtask.previousResults,
                              subtask.instructions, subtask.decomposed, uuid, now)
  }

  class IsepClient {
    const nodeId: string
    const network: NetworkAdapter<IsepHandler>
    var pending: Pending
    var beaconQueue: seq<Inbound>
    var subtaskQueue: seq<Inbound>
    var resultQueue: seq<Inbound>
    var taskAllocation: Value
    var requesterId: Value

    ghost predicate Valid()
      reads this, network
    {
      network.Valid() && forall k :: k in pending ==> Hashable(k)
    }

    /** Registers the five handlers on the transport, replacing earlier ones for those types. */
    constructor (nodeId: string, network: NetworkAdapter<IsepHandler>)
      requires network.Valid()
      modifies network
      ensures Valid()
      ensures this.nodeId == nodeId && this.network == network
      ensures network.handlers == old(network.handlers) + IsepHandlers
      ensures network.neighbors == old(network.neighbors) && network.order == old(network.order)
      ensures pending == map[] && beaconQueue == [] && subtaskQueue == [] && resultQueue == []
      ensures taskAllocation == VDict(map[]) && requesterId == VStr("")
    {
      this.nodeId := nodeId;
      this.network := network;
      pending := map[];
      beaconQueue, subtaskQueue, resultQueue := [], [], [];
      taskAllocation, requesterId := VDict(map[]), VStr("");
      new;
      ghost var h0 := network.handlers;
      network.RegisterHandler("beacon", OnBeacon);
      network.RegisterHandler("beacon_response", OnBeaconResponse);
      network.RegisterHandler("task_allocation", OnTaskAllocation);
      network.RegisterHandler("task_contract", OnTask);
      network.RegisterHandler("task_result", OnTaskResult);
      RegisterAll(h0);
    }

    /** `_handle_beacon_response`; an exception leaves the table as it was. */
    method HandleBeaconResponse(response: Value) returns (r: Result<()>)
      requires Valid()
      modifies this
      ensures Valid()
      ensures r.Ok? <==> StoreResponse(old(pending), response).Ok?
      ensures pending == if r.Ok? then StoreResponse(old(pending), response).value else old(pending)
      ensures beaconQueue == old(beaconQueue) && subtaskQueue == old(subtaskQueue) && resultQueue == old(resultQueue)
      ensures taskAllocation == old(taskAllocation) && requesterId == old(requesterId)
    {
      var s := StoreResponse(pending, response);
      if s.Ok? {
        pending := s.value;
        r := Ok(());
      } else {
        r := Raise(s.exc);
      }
    }

    /** Runs the handler the transport chose for an inbound message. */
    method Deliver(d: Dispatch<IsepHandler>)
      requires Valid()
      modifies this
      ensures Valid()
      ensures d.Invoke? && d.handler == OnBeacon ==> beaconQueue == old(beaconQueue) + [Inbound(d.sender, "beacon", d.data)]
      ensures !(d.Invoke? && d.handler == OnBeacon) ==> beaconQueue == old(beaconQueue)
      ensures d.Invoke? && d.handler == OnTask ==> subtaskQueue == old(subtaskQueue) + [Inbound(d.sender, "subtask", d.data)]
      ensures !(d.Invoke? && d.handler == OnTask) ==> subtaskQueue == old(subtaskQueue)
      ensures d.Invoke? && d.handler == OnTaskResult ==> resultQueue == old(resultQueue) + [Inbound(d.sender, "task_result", d.data)]
      ensures !(d.Invoke? && d.handler == OnTaskResult) ==> resultQueue == old(resultQueue)
      ensures d.Invoke? && d.handler == OnTaskAllocation ==> requesterId == d.sender && taskAllocation == d.data
      ensures !(d.Invoke? && d.handler == OnTaskAllocation) ==> requesterId == old(requesterId) && taskAllocation == old(taskAllocation)
      ensures d.Invoke? && d.handler == OnBeaconResponse && StoreResponse(old(pending), d.data).Ok?
              ==> pending == StoreResponse(old(pending), d.data).value
      ensures !(d.Invoke? && d.handler == OnBeaconResponse && StoreResponse(old(pending), d.data).Ok?)
              ==> pending == old(pending)
    {
      if d.Invoke? {
        match d.handler
        case OnBeacon => beaconQueue := beaconQueue + [Inbound(d.sender, "beacon", d.data)];
        case OnBeaconResponse => var _ := HandleBeaconResponse(d.data);
        case OnTaskAllocation => requesterId, taskAllocation := d.sender, d.data;
        case OnTask => subtaskQueue := subtaskQueue + [Inbound(d.sender, "subtask", d.data)];
        case OnTaskResult => resultQueue := resultQueue + [Inbound(d.sender, "task_result", d.data)];
      }
    }

    /** `broadcast_and_collect`: resets the list for the beacon's task id, broadcasts the beacon,
        lets the transport store the responses that arrive, then pairs up what was stored. */
    method BroadcastAndCollect(beacon: Beacons.Beacon, now: real, links: string -> Link,
                               encode: Value -> seq<byte>, decode: seq<byte> -> Option<Value>,
                               arrivals: seq<Value>)
      returns (calls: seq<string>, sends: seq<Result<bool>>, r: Result<seq<(Value, Value)>>)
      requires Valid()
      requires forall id :: links(id).Connected? ==> WellFormed(links(id).reply)
      modifies this
      ensures Valid()
      ensures !Hashable(beacon.taskId) ==> r == Raise(TypeError) && pending == old(pending) && calls == []
      ensures Hashable(beacon.taskId) ==>
        (calls, sends) == BroadcastRun(network.nodeId, network.neighbors, network.order, [], "beacon",
                                       VDict(Beacons.ToDict(beacon)), now, links, encode, decode)
      ensures Hashable(beacon.taskId) && Raised(sends) ==>
        r == Raise(sends[|sends| - 1].exc) && pending == old(pending)[beacon.taskId := []]
      ensures Hashable(beacon.taskId) && !Raised(sends) ==>
        calls == Eligible(network.order, [])
        && pending == StoreAll(old(pending)[beacon.taskId := []], arrivals)
        && r == Candidates(ResponsesFor(arrivals, beacon.taskId))
      ensures beaconQueue == old(beaconQueue) && subtaskQueue == old(subtaskQueue) && resultQueue == old(resultQueue)
      ensures taskAllocation == old(taskAllocation) && requesterId == old(requesterId)
    {
      calls, sends := [], [];
      if !Hashable(beacon.taskId) {
        r := Raise(TypeError);
      } else {
        var k := beacon.taskId;
        pending := pending[k := []];
        calls, sends := network.Broadcast("beacon", VDict(Beacons.ToDict(beacon)), [], now, links, encode, decode);
        BroadcastRunStops(network.nodeId, network.neighbors, network.order, [], "beacon",
                          VDict(Beacons.ToDict(beacon)), now, links, encode, decode);
        if Raised(sends) {
          r := Raise(sends[|sends| - 1].exc);
        } else {
          r := Collect(k, arrivals);
        }
      }
    }

    /** The beacon responses the transport hands to `_handle_beacon_response` while
        `broadcast_and_collect` waits, in arrival order. */
    method StoreArrivals(arrivals: seq<Value>)
      requires Valid()
      modifies this
      ensures Valid()
      ensures pending == StoreAll(old(pending), arrivals)
      ensures beaconQueue == old(beaconQueue) && subtaskQueue == old(subtaskQueue) && resultQueue == old(resultQueue)
      ensures taskAllocation == old(taskAllocation) && requesterId == old(requesterId)
    {
      var i := 0;
      while i < |arrivals|
        invariant 0 <= i <= |arrivals|
        invariant Valid()
        invariant pending == StoreAll(old(pending), arrivals[..i])
        invariant beaconQueue == old(beaconQueue) && subtaskQueue == old(subtaskQueue) && resultQueue == old(resultQueue)
        invariant taskAllocation == old(taskAllocation) && requesterId == old(requesterId)
      {
        assert arrivals[..i + 1][..i] == arrivals[..i];
        var _ := HandleBeaconResponse(arrivals[i]);
        i := i + 1;
      }
      assert arrivals[..i] == arrivals;
    }

    /** Stores the arrivals under a freshly reset task id and pairs up what was stored for it. */
    method Collect(k: Value, arrivals: seq<Value>) returns (r: Result<seq<(Value, Value)>>)
      requires Valid() && k in pending && pending[k] == []
      modifies this
      ensures Valid()
      ensures pending == StoreAll(old(pending), arrivals)
      ensures r == Candidates(ResponsesFor(arrivals, k))
      ensures beaconQueue == old(beaconQueue) && subtaskQueue == old(subtaskQueue) && resultQueue == old(resultQueue)
      ensures taskAllocation == old(taskAllocation) && requesterId == old(requesterId)
    {
      ghost var reset := pending;
      StoreArrivals(arrivals);
      StoreAllSpec(reset, arrivals, k);
      assert [] + ResponsesFor(arrivals, k) == ResponsesFor(arrivals, k);
      r := Candidates(pending[k]);
    }

    /** `delegate_task`: one "task_contract" to the executor. Python discards the boolean. */
    method DelegateTask(executorId: string, subtask: TaskContracts.SubTask, uuid: string, now: int,
                        sendTime: real, link: Link, encode: Value -> seq<byte>, decode: seq<byte> -> Option<Value>)
      returns (r: Result<bool>)
      requires link.Connected? ==> WellFormed(link.reply)
      ensures r == SendOutcome(network.nodeId, network.neighbors, executorId, "task_contract",
                               VDict(TaskContracts.ContractToDict(DelegationContract(executorId, subtask, uuid, now))),
                               sendTime, link, encode, decode)
    {
      var contract := DelegationContract(executorId, subtask, uuid, now);
      r := network.Send(executorId, "task_contract", VDict(TaskContracts.ContractToDict(contract)),
                        sendTime, link, encode, decode);
    }

    /** `submit_result`: one "task_result" to the target naming this node as the executer. */
    method SubmitResult(targetId: string, result: Value, sendTime: real, link: Link,
                        encode: Value -> seq<byte>, decode: seq<byte> -> Option<Value>)
      returns (r: Result<bool>)
      requires link.Connected? ==> WellFormed(link.reply)
      ensures r == SendOutcome(network.nodeId, network.neighbors, targetId, "task_result",
                               VDict(TaskContracts.ResultToDict(TaskContracts.TaskResult(VStr(targetId), VStr(nodeId), result))),
                               sendTime, link, encode, decode)
    {
      var record := TaskContracts.TaskResult(VStr(targetId), VStr(nodeId), result);
      r := network.Send(targetId, "task_result", VDict(TaskContracts.ResultToDict(record)), sendTime, link, encode, decode);
    }

    /** `receive_beacon`: the oldest queued beacon, or None — Python's `(None, None, None)` —
        when nothing arrives before the timeout. */
    method ReceiveBeacon() returns (m: Option<Inbound>)
      requires Valid()
      modifies this
      ensures Valid()
      ensures old(beaconQueue) == [] ==> m == None && beaconQueue == []
      ensures old(beaconQueue) != [] ==> m == Some(old(beaconQueue)[0]) && beaconQueue == old(beaconQueue)[1..]
      ensures subtaskQueue == old(subtaskQueue) && resultQueue == old(resultQueue) && pending == old(pending)
      ensures taskAllocation == old(taskAllocation) && requesterId == old(requesterId)
    {
      if beaconQueue == [] {
        m := None;
      } else {
        m := Some(beaconQueue[0]);
        beaconQueue := beaconQueue[1..];
      }
    }

    /** `receive_task` */
    method ReceiveTask() returns (m: Option<Inbound>)
      requires Valid()
      modifies this
      ensures Valid()
      ensures old(subtaskQueue) == [] ==> m == None && subtaskQueue == []
      ensures old(subtaskQueue) != [] ==> m == Some(old(subtaskQueue)[0]) && subtaskQueue == old(subtaskQueue)[1..]
      ensures beaconQueue == old(beaconQueue) && resultQueue == old(resultQueue) && pending == old(pending)
      ensures taskAllocation == old(taskAllocation) && requesterId == old(requesterId)
    {
      if subtaskQueue == [] {
        m := None;
      } else {
        m := Some(subtaskQueue[0]);
        subtaskQueue := subtaskQueue[1..];
      }
    }

    /** `receive_result` */
    method ReceiveResult() returns (m: Option<Inbound>)
      requires Valid()
      modifies this
      ensures Valid()
      ensures old(resultQueue) == [] ==> m == None && resultQueue == []
      ensures old(resultQueue) != [] ==> m == Some(old(resultQueue)[0]) && resultQueue == old(resultQueue)[1..]
      ensures beaconQueue == old(beaconQueue) && subtaskQueue == old(subtaskQueue) && pending == old(pending)
      ensures taskAllocation == old(taskAllocation) && requesterId == old(requesterId)
    {
      if resultQueue == [] {
        m := None;
      } else {
        m := Some(resultQueue[0]);
        resultQueue := resultQueue[1..];
      }
    }
  }

  /** A contract delivered by the transport is queued under the tag "subtask", not "task". */
  lemma ContractsAreQueuedAsSubtask(message: Value)
    requires HandleMessage(message, IsepHandlers).Invoke?
    requires HandleMessage(message, IsepHandlers).handler == OnTask
    ensures Get(message.fields, "msg_type", VNull) == VStr("task_contract")
  {
  }
}
