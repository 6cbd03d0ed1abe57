/** The edge-network variant of contracts and results (`ECN/protocol/task_contract.py`). */
module EcnContracts {
  import opened Wrappers
  import opened Values

  datatype TaskContract = TaskContract(contractId: Value, taskId: Value, assignedTo: Value,
                                       inputData: Value, instructions: Value, timestamp: Value)

  function NewContract(taskId: Value, assignedTo: Value, inputData: Value, instructions: Value,
                       uuid: string, now: int): (c: TaskContract)
    ensures c.contractId == VStr(uuid) && c.timestamp == VInt(now)
    ensures c.taskId == taskId && c.assignedTo == assignedTo && c.inputData == inputData
    ensures c.instructions == instructions
  {
    TaskContract(VStr(uuid), taskId, assignedTo, inputData, instructions, VInt(now))
  }

  function ContractToDict(c: TaskContract): (d: Dict)
    ensures d.Keys == {"contract_id", "task_id", "assigned_to", "input_data", "instructions", "timestamp"}
  {
    map["contract_id" := c.contractId, "task_id" := c.taskId, "assigned_to" := c.assignedTo,
        "input_data" := c.inputData, "instructions" := c.instructions, "timestamp" := c.timestamp]
  }

  const ContractKeys := ["task_id", "assigned_to", "input_data", "instructions"]

  /** `from_dict` indexes every key directly: the first missing key raises KeyError. */
  function ContractFromDict(d: Dict, uuid: string, now: int): (r: Result<TaskContract>)
    ensures r.Ok? <==> forall k :: k in ContractKeys ==> k in d
    ensures r.Raise? ==> r.exc.KeyError? && r.exc.key in ContractKeys && r.exc.key !in d
    ensures r.Ok? ==> r.value.contractId == VStr(uuid) && r.value.timestamp == VInt(now)
    ensures r.Ok? ==> r.value.taskId == d["task_id"] && r.value.assignedTo == d["assigned_to"]
    ensures r.Ok? ==> r.value.inputData == d["input_data"] && r.value.instructions == d["instructions"]
  {
    match FirstMissing(d, ContractKeys)
    case Some(k) => Raise(KeyError(k))
    case None => Ok(NewContract(d["task_id"], d["assigned_to"], d["input_data"], d["instructions"], uuid, now))
  }

  /** Round trip: the four payload fields survive; the contract id and the timestamp are new. */
  lemma ContractRoundTrip(c: TaskContract, uuid: string, now: int)
    ensures ContractFromDict(ContractToDict(c), uuid, now) == Ok(c.(contractId := VStr(uuid), timestamp := VInt(now)))
  {
    assert FirstMissing(ContractToDict(c), ContractKeys) == None;
  }

  /** A result. The status is stored as given: nothing restricts it to "success", "fail" or
      "partial". */
  datatype TaskResult = TaskResult(contractId: Value, outputData: Value, status: Value,
                                   sourceId: Value, timestamp: Value)

  function NewResult(contractId: Value, outputData: Value, status: Value, sourceId: Value, now: int): (r: TaskResult)
    ensures r.contractId == contractId && r.outputData == outputData && r.sourceId == sourceId
    ensures r.status == status && r.timestamp == VInt(now)
  {
    TaskResult(contractId, outputData, status, sourceId, VInt(now))
  }

  function ResultToDict(r: TaskResult): (d: Dict)
    ensures d.Keys == {"contract_id", "output_data", "status", "source_id", "timestamp"}
  {
    map["contract_id" := r.contractId, "output_data" := r.outputData, "status" := r.status,
        "source_id" := r.sourceId, "timestamp" := r.timestamp]
  }

  const ResultKeys := ["contract_id", "output_data", "status", "source_id"]

  function ResultFromDict(d: Dict, now: int): (r: Result<TaskResult>)
    ensures r.Ok? <==> forall k :: k in ResultKeys ==> k in d
    ensures r.Raise? ==> r.exc.KeyError? && r.exc.key in ResultKeys && r.exc.key !in d
    ensures r.Ok? ==> r.value.contractId == d["contract_id"] && r.value.outputData == d["output_data"]
    ensures r.Ok? ==> r.value.status == d["status"] && r.value.sourceId == d["source_id"]
    ensures r.Ok? ==> r.value.timestamp == VInt(now)
  {
    match FirstMissing(d, ResultKeys)
    case Some(k) => Raise(KeyError(k))
    case None => Ok(NewResult(d["contract_id"], d["output_data"], d["status"], d["source_id"], now))
  }

  /** Round trip: contract id, output, status and source survive; the timestamp is new. */
  lemma ResultRoundTrip(r: TaskResult, now: int)
    ensures ResultFromDict(ResultToDict(r), now) == Ok(r.(timestamp := VInt(now)))
  {
    assert FirstMissing(ResultToDict(r), ResultKeys) == None;
  }

  /** Any status string, valid or not, is kept verbatim by a round trip. */
  lemma StatusUnchecked(r: TaskResult, now: int)
    ensures ResultFromDict(ResultToDict(r), now).Ok?
    ensures ResultFromDict(ResultToDict(r), now).value.status == r.status
  {
    ResultRoundTrip(r, now);
  }
}
