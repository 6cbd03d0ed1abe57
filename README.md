# Symphony gradient network: a verified model of the coordination core

Symphony is a decentralised network of language-model nodes. A **user** node announces a
task with a **beacon**. **Agents** answer with a **beacon response** that carries their
capability match score. The user hands the task to the best responders, one chain of thought
each. Every agent runs one step of the plan with its model, then announces the next step
with its own beacon. The last step's answer travels back to the user, and a majority vote
over the chains gives the final result. Beside this task chain, nodes gossip LoRA patches
and keep reputation and memory records of their neighbours.

This project models that core in Dafny:

- **Transport** (`framing.dfy`, `transport.dfy`): length-prefixed frames and the
  `NetworkAdapter` with its neighbour table, send, broadcast and accept loop.
- **Discovery protocol** (`isep.dfy`): the `ISEPClient` inboxes, beacon broadcast and
  response collection, delegation contracts and result submission.
- **Gossip** (`gossip.dfy`): the `SpartacusCommunicator` topologies, patch broadcast and
  de-duplicated patch reception.
- **Protocol records** (`beacon.dfy`, `response.dfy`, `task_contract.dfy`,
  `ecn_task_contract.dfy`, `lora_patch.dfy`, `task_utils.dfy`): each record with its
  `to_dict`/`from_dict`, proved to round-trip or shown not to.
- **Scoring and bookkeeping** (`similarity.dfy`, `capability.dfy`, `reputation.dfy`,
  `memory.dfy`, `reward.dfy`, `translate.dfy`): the difflib similarity ratio, capability
  matching, decayed trust scores, the bounded local memory, the rule-based reward and the
  translation tool.
- **Nodes** (`agent.dfy`, `user.dfy`, `task_requester.dfy`, `soft_coordinator.dfy`): executor
  selection, one step of task execution, and delegation.
- **Listener loops** (`user_register.dfy`, `agent_register.dfy`): the collection of answers
  and the vote, and the agent's task listener with its beacon pause.

Shared definitions live in `wrappers.dfy` (Option and Result, with Python exceptions as
values), `values.dfy` (JSON-like values and dicts), `text.dfy` (the string methods used),
`numeric.dfy` (`round(x, 3)` and clamping), `lists.dfy` (Python slices and a bounded
`deque`) and `ranking.dfy` (the stable descending sort by score).

Objects whose methods update fields are classes with `modifies` clauses. Pure computations
are functions with lemmas. Loops in the source are `while` loops with invariants, proved
against the functions that specify them.

Where a reference is broken or a call cannot succeed, the model follows the code: the
operation raises the exception Python would raise. Examples are a class subscripted like an
enum, a method called with too many arguments, and an attribute that is never set. The five
places where the code evidently differs from what was meant are listed under "Findings".
Each has both an as-written member and a corrected member.

## Model

| member | source | states |
|---|---|---|
| Framing.Recv | infra/network_adapter.py:101 | one `recv(k)` returns at most `k` bytes, and nothing exactly when the peer has closed; what stays unread is still a connection |
| Framing.RecvSpec | infra/network_adapter.py:101 | what `recv` returns followed by what stays unread is the whole connection, in order; from a segment of at least `k` bytes it returns the first `k` |
| Framing.ReadUpTo | infra/network_adapter.py:108-113 | the read loop as a function: `recv(min(4096, n - got))` until `n` bytes arrived or the peer closed; what stays unread is still a connection |
| Framing.ReadUpToSpec | infra/network_adapter.py:108-113 | the read loop yields exactly the first `min(n, available)` bytes of the connection and leaves the rest unread |
| Framing.ReadBody | infra/network_adapter.py:108-113 | the imperative read loop produces what `ReadUpTo` specifies, both the bytes and what stays unread |
| Framing.ReadMore | infra/network_adapter.py:110-113 | one more `recv` that returned bytes keeps the loop on course: the bytes so far followed by what the rest of the loop reads are the whole result |
| Framing.FromBigEndian4 | infra/network_adapter.py:105 | four prefix bytes are read as a big-endian unsigned number |
| Framing.ToBigEndian4 | infra/network_adapter.py:65 | `len.to_bytes(4, 'big')` is four bytes that read back as the length |
| Framing.EncodeFrame | infra/network_adapter.py:61-67 | the frame is the 4-byte big-endian length followed by the body; a body of 2^32 bytes or more raises OverflowError, and only then |
| Framing.DecodeFrame | infra/network_adapter.py:101-116 | no prefix bytes is exactly the dropped case; a delivered body has exactly the announced length |
| Framing.DecodeFrameWholePrefix | infra/network_adapter.py:101-116 | with the prefix in the first segment, the body is the announced number of bytes after it, or a short frame when the peer closed early |
| Framing.DecodeEncode | infra/network_adapter.py:64-67 | round trip: whatever the segmentation (prefix read whole), the receiver gets back exactly the framed body |
| Framing.TruncatedFrameIsShort | infra/network_adapter.py:109-116 | a frame cut short by the peer is recognised as short, with the announced and received lengths |
| Framing.SplitPrefixMisread | infra/network_adapter.py:101-105 | the prefix is a single `recv(4)`: a prefix split over two segments is misread (frame of [65] sent as [0,0,0] then [1,65] reads as an empty body) |
| Transport.Envelope | infra/network_adapter.py:47-53 | the envelope has exactly the keys `sender_id`, `target_id`, `msg_type`, `data`, `timestamp` |
| Transport.ReplyOf | infra/network_adapter.py:145-171 | the three outcomes of reading the acknowledgement: no reply bytes yield the "没有响应" error, a body shorter than its announced length the "响应不完整" error, and a whole body its decoded value; an undecodable body, like every reply that is not a whole body, is never a success |
| Transport.ReplyOfWholeFrame | infra/network_adapter.py:149-168 | an acknowledgement that arrives whole is read back as the value the peer encoded |
| Transport.ReplyOfCutFrame | infra/network_adapter.py:155-164 | an acknowledgement cut short after its prefix gives the "响应不完整" error, which is not a success |
| Transport.SendOutcome | infra/network_adapter.py:27-75 | an unknown target or a refused connection gives False without sending; for a known, connected target an oversize frame raises its OverflowError, a dict reply gives True exactly when its status is "success", and any other reply raises AttributeError; an empty or short reply never gives True |
| Transport.Eligible | infra/network_adapter.py:77-82 | `broadcast` addresses no more neighbours than the table holds |
| Transport.EligibleMembers | infra/network_adapter.py:79-81 | a neighbour is sent to if and only if it is in the table and not in `exclude` |
| Transport.EligibleSnoc | infra/network_adapter.py:80-82 | the send order is the table order: one more table entry adds at most that entry at the end |
| Transport.EligiblePrefix | infra/network_adapter.py:80-82 | the sends made for a prefix of the table are a prefix of all the sends |
| Transport.SendsTo | infra/network_adapter.py:80-82 | sending the same message to a list of ids gives one outcome per id |
| Transport.SendsToSpec | infra/network_adapter.py:80-82 | each outcome is that of `send` to the id at the same position |
| Transport.BroadcastRunPrefix | infra/network_adapter.py:79-82 | the ids `broadcast` sends to are a prefix of the neighbours outside `exclude`, in table order |
| Transport.BroadcastRunSends | infra/network_adapter.py:80-82 | each outcome recorded by `broadcast` is that of the `send` to the id at the same position |
| Transport.BroadcastRunStops | infra/network_adapter.py:80-82 | every send but the last returned normally; unless the last one raised, every neighbour outside `exclude` was sent to |
| Transport.BroadcastRunStuck | infra/network_adapter.py:80-82 | once a send has raised, the rest of the table changes nothing: the exception leaves the loop |
| Transport.HandleMessage | infra/network_adapter.py:128-143 | exactly the handler registered for `msg_type` is invoked, with `sender_id` and `data` unchanged; a non-dict message, a falsy type or sender, or a None `data` is dropped; a valid message with a registered type is always dispatched |
| Transport.ReceiveOutcome | infra/network_adapter.py:94-126 | a connection with no prefix, or a short body, is dropped without calling any handler |
| Transport.NetworkAdapter.constructor | infra/network_adapter.py:9-17 | a node starts with empty routing and handler tables |
| Transport.NetworkAdapter.RegisterHandler | infra/network_adapter.py:19-21 | the handler for the type is replaced; every other type keeps its handler; the routing table is unchanged |
| Transport.NetworkAdapter.AddNeighbor | infra/network_adapter.py:23-25 | exactly one routing entry is inserted or overwritten, with no liveness check; a new id goes to the end of the table order |
| Transport.NetworkAdapter.ReceiveResponse | infra/network_adapter.py:145-171 | the imperative reply reader computes `ReplyOf` |
| Transport.NetworkAdapter.Send | infra/network_adapter.py:27-75 | `send` computes `SendOutcome` with the node's own id as sender |
| Transport.NetworkAdapter.Broadcast | infra/network_adapter.py:77-82 | the imperative loop over the table computes `BroadcastRun`: one `send` per neighbour outside `exclude`, in table order, a False result not stopping it and an exception ending it |
| Transport.NetworkAdapter.ReceiveConnection | infra/network_adapter.py:96-126 | one accept-loop iteration, with its read loop, computes `ReceiveOutcome` |
| Transport.SendToAcceptLoopNeverSucceeds | infra/network_adapter.py:70-71 | the accept loop never writes a reply, so a send to such a peer never returns True |
| Transport.SendThenReceive | infra/network_adapter.py:47-67 | end to end: the framed envelope reaches the receiver's handler for its type with the sender id and the payload unchanged |
| Isep.StoreResponse | infra/ISEP.py:91-93 | a response is stored if and only if it is a dict whose hashable `task_id` already has a pending entry; it is then appended under that id and nothing else changes; otherwise TypeError or KeyError |
| Isep.StoreAll | infra/ISEP.py:91-93 | handling a run of responses never creates or removes a pending id |
| Isep.ResponsesFor | infra/ISEP.py:47 | the responses gathered for an id all carry that id |
| Isep.StoreAllSpec | infra/ISEP.py:91-93 | after a run of responses, the list under a pending id is the old list followed by exactly the responses for that id, in arrival order (with line 36) |
| Isep.Candidates | infra/ISEP.py:47-52 | one `(responder_id, match_score)` pair per stored response, in arrival order; a KeyError exactly when some response lacks one of the two keys |
| Isep.DelegationContract | infra/ISEP.py:59-66 | the contract carries the subtask's id, problem, previous results, instructions and decomposed flag, and is assigned to the executor |
| Isep.IsepClient.constructor | infra/ISEP.py:16-32 | the five handlers are registered with the adapter; the routing table is untouched; every table and queue starts empty |
| Isep.RegisterAll | infra/ISEP.py:28-32 | the five registrations leave the adapter's table as it was plus exactly the five ISEP handlers |
| Isep.IsepClient.HandleBeaconResponse | infra/ISEP.py:91-93 | `_handle_beacon_response` changes the pending table as `StoreResponse` says, and nothing else |
| Isep.IsepClient.Deliver | infra/ISEP.py:84-110 | a dispatched beacon, contract or result is appended to its own FIFO queue with tag "beacon", "subtask" or "task_result"; a task allocation overwrites both `requester_id` and `task_allocation`; every other part of the state is unchanged |
| Isep.IsepClient.BroadcastAndCollect | infra/ISEP.py:34-52 | an unhashable task id raises TypeError before anything is sent; otherwise the id is reset to an empty list, the beacon is broadcast as `BroadcastRun` says, a send that raised ends the call with its exception, and else the result holds one pair per response that arrived for that id, in arrival order; the queues, the task allocation and the requester id are untouched |
| Isep.IsepClient.StoreArrivals | infra/ISEP.py:91-93 | the responses arriving while the caller waits are each handed to `_handle_beacon_response`, leaving the pending table as `StoreAll` says and the queues, allocation and requester unchanged |
| Isep.IsepClient.Collect | infra/ISEP.py:46-52 | after the wait, the pairs read from a freshly reset id are exactly those of the responses that arrived for it, in arrival order; the queues, the task allocation and the requester id are untouched |
| Isep.IsepClient.DelegateTask | infra/ISEP.py:57-69 | exactly one "task_contract" send to the executor, carrying `DelegationContract` |
| Isep.IsepClient.SubmitResult | infra/ISEP.py:71-82 | exactly one "task_result" send to the target whose `executer_id` is this node's id |
| Isep.IsepClient.ReceiveBeacon | infra/ISEP.py:119-124 | the oldest queued beacon is removed and returned, or None on an empty queue; the other queues, the pending table, the task allocation and the requester id are unchanged, and the client stays valid |
| Isep.IsepClient.ReceiveTask | infra/ISEP.py:126-131 | the oldest queued contract is removed and returned, or None on an empty queue; the other queues, the pending table, the task allocation and the requester id are unchanged, and the client stays valid |
| Isep.IsepClient.ReceiveResult | infra/ISEP.py:133-138 | the oldest queued result is removed and returned, or None on an empty queue; the other queues, the pending table, the task allocation and the requester id are unchanged, and the client stays valid |
| Isep.ContractsAreQueuedAsSubtask | infra/ISEP.py:101-104 | only a "task_contract" message reaches the handler that queues under "subtask" (with line 31) |
| Gossip.TopologyAsWritten | infra/sparta_communicator.py:12-25 | subscripting the plain `TopologyType` class always raises TypeError, so construction always fails |
| Gossip.TopologyByName | infra/sparta_communicator.py:25-48 | the intended lookup: global broadcast exactly for "GLOBAL_BROADCAST" or a missing key, neighbour broadcast exactly for "NEIGHBOR_BROADCAST" |
| Gossip.PatchMessage | infra/sparta_communicator.py:127-146 | the envelope has exactly `sender_id` (this node), `timestamp` and `patch` (the patch's dict) |
| Gossip.PayloadOf | infra/sparta_communicator.py:193-199 | a message that is not a dict, or a truthy payload that is not a dict, raises AttributeError; a falsy payload ends the call; otherwise the payload is the non-empty dict under `patch` |
| Gossip.Receive | infra/sparta_communicator.py:191-205 | raises exactly when `PayloadOf` does; no patch, a message from this node, or an already processed id: nothing is accepted and the set is unchanged; a patch from another node is accepted whenever its freshly drawn id is new; an accepted patch carries the fresh id drawn by `from_dict`, which is then added to the set |
| Gossip.ReceiveByWireId | infra/sparta_communicator.py:191-205 | the corrected step raises exactly when `PayloadOf` does, and otherwise de-duplicates on the id carried by the message: a patch from another node whose wire id is new is accepted, decoded by `from_dict`, and its wire id added to the set; an accepted patch's wire id was not processed before; a message from this node is refused |
| Gossip.FirstRaising | infra/sparta_communicator.py:208-209 | the position of the first callback that raises: every callback before it returns normally, and it raises unless it is past the end |
| Gossip.RedeliveryRunsCallbacksTwice | infra/sparta_communicator.py:199-205 | as written, the same message from another node delivered twice is accepted twice, because each decoding draws a new patch id |
| Gossip.RedeliveryExample | infra/sparta_communicator.py:199-205 | a concrete message from "node-b" received twice by "node-a" is accepted both times |
| Gossip.RedeliveryRunsCallbacksOnce | infra/sparta_communicator.py:202-205 | with the corrected step, a message carrying a patch id is accepted at most once |
| Gossip.DeliveredExactlyOnce | infra/sparta_communicator.py:202-209 | with the corrected step, a patch message from another node with a new patch id is accepted on its first delivery and refused on every later one, so its callbacks run exactly once |
| Gossip.SpartacusCommunicator.constructor | infra/sparta_communicator.py:19-39 | the communicator starts with no callbacks and an empty processed set; neighbours only in neighbour mode |
| Gossip.SpartacusCommunicator.AddCallback | infra/sparta_communicator.py:208 | appending a callback changes nothing else (with line 35) |
| Gossip.SpartacusCommunicator.ProcessReceivedMessage | infra/sparta_communicator.py:191-209 | a message that is not a dict or a truthy non-dict payload raises AttributeError with no callback run and the set unchanged; otherwise the set changes as `Receive` says and only grows; a rejected message runs no callback; an accepted one runs the callbacks in registration order on the accepted patch, up to and including the first that raises, whose exception ends the call after the id was recorded |
| Gossip.SpartacusCommunicator.ProcessReceivedMessageByWireId | infra/sparta_communicator.py:191-209 | the corrected step: the same raise paths, with the processed set changing as `ReceiveByWireId` says, keyed on the id carried by the message; an accepted patch runs the callbacks in order until one raises |
| Gossip.SpartacusCommunicator.RunCallbacks | infra/sparta_communicator.py:207-209 | the callbacks are called in registration order with the patch, all of them when none raises, otherwise up to and including the first that raises, whose exception is the result |
| Gossip.SpartacusCommunicator.RegisterNode | infra/sparta_communicator.py:103-113 | a change only in neighbour mode and only for an id that is neither known nor this node's; then the address is recorded, and a socket entry follows for a string address |
| Gossip.SpartacusCommunicator.BroadcastLoraPatch | infra/sparta_communicator.py:115-156 | global mode publishes one envelope; neighbour mode attempts every socket in order, and a failing neighbour does not stop the others |
| Gossip.AcceptedAtMostOnce | infra/sparta_communicator.py:202-205 | with the corrected step, once a message carrying a patch id was accepted, no message carrying the same id is accepted, whatever its sender and whatever fresh id its decoding draws |
| Beacons.NewBeacon | protocol/beacon.py:8-14 | the beacon id and timestamp are the fresh ones; the task id is the given one when truthy, otherwise the beacon id; sender, requirement and ttl (default 2) are stored unchanged |
| Beacons.ToDict | protocol/beacon.py:16-24 | exactly the keys `beacon_id`, `sender`, `task_id`, `requirement`, `ttl`, `timestamp` |
| Beacons.FromDict | protocol/beacon.py:27-36 | missing keys default to sender "unknown", requirement "" and ttl 2; a falsy or missing task id becomes the id drawn by the constructor; `beacon_id` and `timestamp` are restored when present |
| Beacons.FromToDict | protocol/beacon.py:16-36 | round trip: a beacon with a truthy task id is restored in all six fields |
| Beacons.NewBeaconRoundTrips | protocol/beacon.py:8-36 | every beacon the constructor builds (with a non-empty fresh id) survives the round trip |
| Beacons.MissingTaskIdIsFresh | protocol/beacon.py:11-36 | with `task_id` absent and `beacon_id` present, the task id is a fresh id that differs from the restored beacon id |
| Responses.NewResponse | protocol/response.py:8-14 | both scores are stored rounded to 3 decimals (within half a thousandth of the input, in [0,1] for a score in [0,1]); the ids and the fresh id and timestamp are stored unchanged |
| Responses.ToDict | protocol/response.py:16-24 | exactly the keys `response_id`, `responder_id`, `task_id`, `match_score`, `estimate_cost`, `timestamp` |
| Responses.FromDict | protocol/response.py:26-36 | missing keys default to responder "unknown", task id `[]` and scores 1.0; present `response_id`/`timestamp` are restored; a non-numeric score raises TypeError, and only then |
| Responses.FromToDict | protocol/response.py:12-36 | round trip: every constructed response is restored exactly, since rounding twice changes nothing |
| Responses.EmptyDictDefaults | protocol/response.py:28-35 | decoding an empty dict gives responder "unknown", task id `[]`, both scores 1.0 and the fresh id and timestamp |
| LoraPatches.NewPatch | ECN/protocol/lora_patch.py:10-15 | the patch id and timestamp are fresh; source, path and layer names are stored unchanged |
| LoraPatches.ToDict | ECN/protocol/lora_patch.py:17-24 | exactly the keys `patch_id`, `source_id`, `patch_path`, `layer_names`, `timestamp` |
| LoraPatches.FromDict | ECN/protocol/lora_patch.py:26-32 | missing keys default to "unknown", "" and `[]`; `patch_id` and `timestamp` are never read, they are fresh |
| LoraPatches.RoundTrip | ECN/protocol/lora_patch.py:17-32 | round trip keeps source, path and layer names and replaces the id and timestamp by fresh ones |
| LoraPatches.DecodeTwiceDiffers | ECN/protocol/lora_patch.py:10-32 | decoding the same dict twice gives different patch ids, and neither need equal the id on the wire |
| EcnContracts.NewContract | ECN/protocol/task_contract.py:8-14 | the contract id and timestamp are fresh; the other four fields are stored unchanged |
| EcnContracts.ContractToDict | ECN/protocol/task_contract.py:16-24 | exactly the six listed keys |
| EcnContracts.ContractFromDict | ECN/protocol/task_contract.py:26-33 | succeeds if and only if all four keys are present (otherwise KeyError naming a missing key); the fields are read directly and the id and timestamp are fresh |
| EcnContracts.ContractRoundTrip | ECN/protocol/task_contract.py:16-33 | round trip keeps `task_id`, `assigned_to`, `input_data`, `instructions` and renews the id and timestamp |
| EcnContracts.NewResult | ECN/protocol/task_contract.py:40-45 | the four fields are stored as given with a fresh timestamp |
| EcnContracts.ResultToDict | ECN/protocol/task_contract.py:47-54 | exactly the five listed keys |
| EcnContracts.ResultFromDict | ECN/protocol/task_contract.py:56-63 | succeeds if and only if all four keys are present (otherwise KeyError naming a missing key) |
| EcnContracts.ResultRoundTrip | ECN/protocol/task_contract.py:47-63 | round trip keeps `contract_id`, `output_data`, `status`, `source_id` and renews the timestamp |
| EcnContracts.StatusUnchecked | ECN/protocol/task_contract.py:43 | any status value, not only "success"/"fail"/"partial", round-trips unchanged |
| TaskContracts.NewContract | protocol/task_contract.py:8-16 | the contract id and timestamp are fresh; the six other fields are stored unchanged |
| TaskContracts.ContractToDict | protocol/task_contract.py:18-28 | exactly the eight listed keys |
| TaskContracts.ContractFromDict | protocol/task_contract.py:30-39 | succeeds if and only if all six keys are present, otherwise KeyError naming a missing key; the fields are read directly and the id and timestamp are fresh |
| TaskContracts.ContractRoundTrip | protocol/task_contract.py:18-39 | round trip keeps `task_id`, `assigned_to`, `original_problem`, `previous_results`, `instructions`, `decomposed` and renews `contract_id` and `timestamp` |
| TaskContracts.ResultToDict | protocol/task_contract.py:51-56 | exactly `target_id`, `executer_id` and `result`, holding the record's values |
| TaskContracts.ResultFromDict | protocol/task_contract.py:58-64 | always fails: KeyError without `task_id`, and TypeError (the unknown `task_id` keyword) when all three keys are present |
| TaskContracts.ResultRoundTripFails | protocol/task_contract.py:51-64 | decoding what `to_dict` produced always raises KeyError("task_id") |
| TaskContracts.AllocationToDict | protocol/task_contract.py:73-74 | `to_dict` returns the stored mapping unchanged |
| TaskContracts.AllocationFromDict | protocol/task_contract.py:76-78 | `from_dict` is the identity |
| TaskContracts.NewSubTask | protocol/task_contract.py:85-100 | the defaults are id None, empty requirement, problem and instructions, an empty result list, decomposed True; given fields are stored unchanged |
| TaskContracts.SubTaskToDict | protocol/task_contract.py:102-115 | exactly the six listed keys |
| TaskContracts.SubTaskFromDict | protocol/task_contract.py:117-132 | every key is read with `get`, falling back to the constructor's defaults |
| TaskContracts.SubTaskRoundTrip | protocol/task_contract.py:102-132 | round trip restores all six fields |
| TaskContracts.SubTaskDefaults | protocol/task_contract.py:125-132 | decoding an empty dict gives the default subtask |
| TaskContracts.StepDicts | protocol/task_contract.py:161 | one dict per subtask, in order |
| TaskContracts.DagToDict | protocol/task_contract.py:154-163 | exactly `steps` (one entry per subtask) and `dependencies` (unchanged) |
| TaskContracts.SubTasksOf | protocol/task_contract.py:173 | every entry decodes as a subtask if and only if all entries are dicts; otherwise the `.get` on a non-dict raises AttributeError |
| TaskContracts.StepsOf | protocol/task_contract.py:173 | a list of steps is decoded entry by entry |
| TaskContracts.DagFromDict | protocol/task_contract.py:165-175 | missing `steps` or `dependencies` become empty lists; the dependencies are kept as given; decoding fails exactly when a step fails |
| TaskContracts.DagFromStructure | protocol/task_contract.py:177-189 | the decoded DAG, or the empty DAG on any exception |
| TaskContracts.SubTasksOfStepDicts | protocol/task_contract.py:161-173 | decoding the encoded steps gives back the same subtasks in the same order |
| TaskContracts.DagRoundTrip | protocol/task_contract.py:154-189 | round trip keeps step order, every step and the dependency list, also through `from_structure` |
| TaskContracts.MalformedStepGivesEmptyDAG | protocol/task_contract.py:173-189 | a step that is not a dict makes `from_structure` return the empty DAG |
| TaskUtils.StepToDict | models/task_utils.py:11-12 | exactly `id` and `desc` |
| TaskUtils.StepDicts | models/task_utils.py:21 | one dict per step, in order |
| TaskUtils.DagToDict | models/task_utils.py:19-23 | exactly `steps` (one entry per step) and `dependencies` (unchanged) |
| TaskUtils.StepOf | models/task_utils.py:27 | a step decodes if and only if it is a dict with both `id` and `desc` |
| TaskUtils.StepsOfItems | models/task_utils.py:27 | all steps decode, in order, if and only if each one does |
| TaskUtils.StepsOf | models/task_utils.py:27 | a list of steps is decoded entry by entry |
| TaskUtils.DagFromDict | models/task_utils.py:25-29 | missing `steps` or `dependencies` become empty lists; decoding fails exactly when a step fails |
| TaskUtils.DagFromStructure | models/task_utils.py:31-37 | the decoded DAG, or the empty DAG on any exception |
| TaskUtils.StepsOfStepDicts | models/task_utils.py:21-27 | decoding the encoded steps gives back the same steps in order |
| TaskUtils.DagRoundTrip | models/task_utils.py:19-37 | round trip keeps step order, ids, descriptions and dependencies |
| TaskUtils.IncompleteStepGivesEmptyDAG | models/task_utils.py:27-37 | a step lacking `id` or `desc` makes `from_structure` return the empty DAG |
| TaskUtils.SampleDecodes | models/task_utils.py:49-59 | the sample data decodes to its four steps in order with the 1→2→3→4 chain |
| Similarity.MatchLen | ECN/core/capability.py:30 | the common run starting at `(i, j)` stays inside both strings |
| Similarity.MatchLenRun | ECN/core/capability.py:30 | the run at `(i, j)` is a common substring and cannot be extended |
| Similarity.LongestMatch | ECN/core/capability.py:30 | the block found lies inside both strings and is a full common run, or the empty block |
| Similarity.LongestMatchIsFirstLongest | ECN/core/capability.py:30 | the block is the longest common substring, the earliest in `a` among the longest, then the earliest in `b` |
| Similarity.MatchCount | ECN/core/capability.py:30 | the matched characters number at most the length of either string |
| Similarity.Ratio | ECN/core/capability.py:30 | the ratio lies in [0,1] |
| Similarity.MatchCountSelf | ECN/core/capability.py:30 | a string matches itself in full |
| Similarity.RatioSelf | ECN/core/capability.py:30 | the ratio of a string with itself is 1, the empty string included |
| Similarity.MatchCountBound | ECN/core/capability.py:30 | no more characters match than those of `a` that occur in `b` |
| Similarity.RatioBound | ECN/core/capability.py:30 | the ratio is at most twice the characters of `a` occurring in `b`, over the total length |
| Similarity.RatioByLength | ECN/core/capability.py:30 | the ratio is at most twice the length of `b` over the total length |
| Capability.LowerAll | ECN/core/capability.py:8 | every tag is lower-cased, in place, none lost |
| Capability.Dedup | ECN/core/capability.py:8 | `list(set(...))` has no duplicates and exactly the same members |
| Capability.AddTag | ECN/core/capability.py:10-13 | the lower-cased tag is present afterwards, nothing else is added, and a duplicate-free lower-case list stays so |
| Capability.RemoveFirst | ECN/core/capability.py:18 | `list.remove` deletes exactly one occurrence of the tag: one element fewer, the same multiset minus that tag |
| Capability.FirstIndex | ECN/core/capability.py:18 | `list.remove` deletes at the first position holding the tag: no earlier position holds it |
| Capability.RemoveTag | ECN/core/capability.py:15-18 | an absent tag changes nothing; no tag is added |
| Capability.RemoveTagSpec | ECN/core/capability.py:15-18 | on a duplicate-free lower-case list, exactly the lower-cased tag is removed and the list stays well formed |
| Capability.AddTagIdempotent | ECN/core/capability.py:10-13 | adding the same tag twice is adding it once |
| Capability.BestRatio | ECN/core/capability.py:28-31 | the best ratio lies in [0,1] |
| Capability.BestRatioIsMax | ECN/core/capability.py:28-31 | the fold is the maximum of the ratios over the tags, attained by some tag, and 0.0 with no tags |
| Capability.BestRatioOrderFree | ECN/core/capability.py:28-31 | the best ratio depends only on which tags are present, not on their order |
| Capability.BestRatioOfExactTag | ECN/core/capability.py:28-31 | a requirement equal to a tag scores 1.0 |
| Capability.CapabilityManager.constructor | ECN/core/capability.py:7-8 | the stored tags are the lower-cased input with duplicates removed |
| Capability.CapabilityManager.AddCapability | ECN/core/capability.py:10-13 | the list becomes `AddTag` of the old one and stays duplicate-free and lower-case |
| Capability.CapabilityManager.RemoveCapability | ECN/core/capability.py:15-18 | exactly the lower-cased tag is removed, if present, and the list stays duplicate-free and lower-case |
| Capability.CapabilityManager.Match | ECN/core/capability.py:23-32 | the loop computes the best ratio against the lower-cased requirement, rounded to 3 decimals; the threshold is unused |
| Capability.CapabilityManager.MatchAndFilter | ECN/core/capability.py:34-35 | true if and only if the match score reaches the threshold |
| Capability.MatchScoreFacts | ECN/core/capability.py:23-32 | the score lies in [0,1], is 0.0 with no tags and 1.0 when the requirement equals a tag ignoring case |
| Capability.StoredAsGiven | ECN/core/capability.py:8 | two distinct lower-case tags are stored as given |
| Capability.FirstTagScoresOne | ECN/core/capability.py:8-32 | a node scores 1.0 on any of its own tags |
| Capability.MathMatchesMathNode | ECN/tests/test_beacon_exchange.py:15-18 | "math" scores above 0.5 against ["math", "translation"] |
| Capability.ShortAndLongBelowHalf | ECN/core/capability.py:23-32 | with a 5-letter tag sharing 2 letters with a 4-letter requirement and a 14-letter tag, the score is below 0.5 (at most 4/9) |
| Capability.MathMissesImageNode | ECN/tests/test_beacon_exchange.py:31-34 | "math" scores below 0.5 against ["image", "style-transfer"] |
| Lists.SliceIndex | ECN/core/memory.py:20 | a Python slice bound, negative values counting from the end, clipped to the sequence |
| Lists.Prefix | agents/agent.py:79 | `s[:n]` is a prefix of `s` of length `min(n, len(s))` for `n >= 0` |
| Lists.SuffixFrom | ECN/core/memory.py:20 | `s[n:]` is a suffix of `s` |
| Lists.AppendBounded | core/reputation.py:8-14 | `deque(maxlen=cap).append(x)`: the last `cap` entries of `s + [x]`, ending with `x` |
| Lists.AppendBoundedKeepsBound | core/reputation.py:8-14 | a deque within its bound stays within it; below the bound the entry is appended, at the bound the oldest entry is evicted first |
| Lists.AppendBoundedElements | core/reputation.py:14 | the bounded append adds nothing but the new entry |
| Numeric.Round3Near | protocol/response.py:12-13 | rounding to 3 decimals moves a value by at most half a thousandth |
| Numeric.Round3Idempotent | protocol/response.py:12-13 | rounding twice changes nothing |
| Numeric.Round3Unit | ECN/core/capability.py:32 | rounding maps [0,1] into [0,1] |
| Numeric.Round3Monotone | ECN/core/capability.py:32 | rounding preserves order |
| Numeric.Clamp | core/reputation.py:13 | `max(lo, min(hi, x))` lies in [lo, hi] and leaves a value already there unchanged |
| Reputation.Pow | core/reputation.py:21-22 | every weight `0.95 ** i` is positive |
| Reputation.NormFrom | core/reputation.py:23 | the normaliser of a non-empty history is positive, so the division never fails |
| Reputation.Reversed | core/reputation.py:22 | `reversed(scores)`: the same length, most recent entry first |
| Reputation.WeightedBetween | core/reputation.py:22-23 | weights 0.95^i over entries in [lo, hi] give a weighted sum between lo and hi times the normaliser |
| Reputation.TrustInUnit | core/reputation.py:17-24 | the trust score of clamped entries lies in [0,1] |
| Reputation.TrustOfConstant | core/reputation.py:21-24 | a history of equal entries c has trust score round(c, 3) |
| Reputation.TrustOfSingle | core/reputation.py:21-24 | a single entry s has trust score round(s, 3) |
| Reputation.ReputationManager.constructor | core/reputation.py:7-9 | no node has a history or a last update |
| Reputation.ReputationManager.UpdateScore | core/reputation.py:11-15 | exactly one clamped entry is appended to that node's bounded history (oldest evicted first), only that node's last update changes, and every history stays within `max_records` and [0,1] |
| Reputation.ReputationManager.GetTrustScore | core/reputation.py:17-24 | the trust score is 0.5 for an empty history and in [0,1] otherwise; querying an unknown node records an empty history for it |
| Reputation.ReputationManager.AllScores | core/reputation.py:26-27 | exactly the nodes with a history, each mapped to its trust score in [0,1] |
| Memory.SumInRange | ECN/core/memory.py:36 | a window of outcomes in [0,1] sums to between 0 and its length |
| Memory.MeanScoreInUnit | ECN/core/memory.py:34-36 | the neighbour score lies in [0,1] |
| Memory.MeanScoreConstant | ECN/core/memory.py:34-36 | a window of all successes scores 1.0 and of all failures 0.0 |
| Memory.RecentTasks | ECN/core/memory.py:19-20 | the last `n` entries in insertion order (all when fewer); `n = 0` gives the whole cache because of the `[-0:]` slice |
| Memory.Stamp | ECN/core/memory.py:14-17 | `{key: v, **d}`: all keys of `d` keep their values and `key` is added, so a key already in `d` wins |
| Memory.ListedFacts | ECN/core/memory.py:24-32 | the neighbour order lists every known neighbour once, and every stored score is 0.5 |
| Memory.RecordKeepsWindows | ECN/core/memory.py:11-29 | recording an outcome keeps every score window at most 20 entries of values in [0,1] |
| Memory.LocalMemory.constructor | ECN/core/memory.py:8-11 | an empty cache, no neighbours and no score windows |
| Memory.LocalMemory.StoreResult | ECN/core/memory.py:13-14 | one entry is appended to the bounded cache, stamped with the time unless the result has its own `timestamp`; the neighbour state is unchanged |
| Memory.LocalMemory.CacheTask | ECN/core/memory.py:16-17 | one entry `{"task_id": id, **task_data}` is appended to the bounded cache, a `task_id` inside the data winning |
| Memory.LocalMemory.GetRecentTasks | ECN/core/memory.py:19-20 | returns `RecentTasks` of the cache |
| Memory.LocalMemory.UpdateNeighbor | ECN/core/memory.py:22-29 | the first call records the capabilities, the time and score 0.5 and lists the id; later calls change only capabilities and last seen; every call appends 1.0 or 0.0 to the node's 20-entry window |
| Memory.LocalMemory.StoredScoreIsInitial | ECN/core/memory.py:25-28 | the stored `score` of every neighbour stays 0.5 |
| Memory.LocalMemory.GetNeighbors | ECN/core/memory.py:31-32 | each neighbour id once, in first-seen order |
| Memory.LocalMemory.GetNeighborScore | ECN/core/memory.py:34-36 | the rounded mean of the node's window, in [0,1], and 0.5 for an unknown node, which then has an empty window |
| Reward.KeywordHits | models/reward_model.py:25-26 | the count of keywords found lies between 0 (none found) and the number of keywords (all found) |
| Reward.LengthScore | models/reward_model.py:27 | `min(len/100, 1)` lies in [0,1] and is 1.0 from 100 characters on |
| Reward.BlendBounds | models/reward_model.py:28 | 0.4·k/n + 0.6·length lies in [0,1], is 1.0 with every keyword and full length, and 0.0 with neither |
| Reward.RuleScoreBoundsFor | models/reward_model.py:23-29 | for any list of non-empty keywords, the rule score lies in [0,1], is 1.0 for a long output naming them all, 0.0 for an empty output |
| Reward.RuleScoreBounds | models/reward_model.py:23-29 | the same for the three keywords "step", "result", "complete", found case-insensitively |
| Reward.PairwiseScoreBounds | models/reward_model.py:31-36 | the overlap score lies in [0,1], is 0.0 for a reference with no tokens, and 1.0 when every reference token occurs in the output |
| Reward.GroupScore | models/reward_model.py:38-42 | whatever the noise, the clamped group score lies in [0,1] |
| Reward.Score | models/reward_model.py:13-21 | an unknown method raises ValueError; "dpo" without a reference raises AttributeError; every score returned lies in [0,1] |
| Reward.RuleIgnoresTaskInput | models/reward_model.py:14-29 | the rule score does not depend on the task input |
| Translate.Fallback | tools/tool_translate.py:22 | the fallback text embeds the original input unchanged, between the fixed marker and suffix |
| Translate.Run | tools/tool_translate.py:12-23 | a known phrase (after lower-casing and stripping) gives its fixed translation; any other input gives the fallback built from the original text |
| Translate.RunIgnoresCaseAndSpace | tools/tool_translate.py:21-22 | two inputs that agree up to case and surrounding whitespace translate alike |
| Translate.PhrasesTrimmed | tools/tool_translate.py:14-20 | every phrase-book key is lower-case with no surrounding whitespace |
| Translate.PaddedPhrase | tools/tool_translate.py:14-22 | each of the five phrases, in any case and with any surrounding whitespace, maps to its fixed translation |
| Text.Lower | ECN/core/capability.py:8-11 | lower-casing keeps the length, leaves no upper-case letter and changes nothing already lower-case |
| Text.LowerIdempotent | ECN/core/capability.py:11 | lower-casing twice is lower-casing once |
| Text.Strip | tools/tool_translate.py:21 | `strip()` is a slice of the input with no whitespace at either end |
| Text.Find | agents/agent.py:49-53 | the first occurrence of a pattern, or None exactly when it does not occur |
| Text.SplitPieces | agents/agent.py:53 | `split(sep)` yields at least two pieces exactly when `sep` occurs, and no piece contains `sep` |
| Text.SecondPiece | agents/agent.py:53 | `split(sep)[1]` exists exactly when `sep` occurs, and does not contain `sep` |
| Text.SecondPieceOf | agents/agent.py:53 | `split(sep)[1]` is the text between the first `sep` and the next one, or the end of the text |
| Text.Words | models/reward_model.py:33-34 | `split()` yields non-empty words without whitespace |
| Values.Get | protocol/beacon.py:29-35 | `dict.get(key, default)`: the stored value when present, the default otherwise |
| Values.AsNumber | protocol/response.py:12-13 | only ints and floats can be rounded; strings, None, lists and dicts cannot |
| Values.FirstMissing | ECN/protocol/task_contract.py:27-33 | the first of a list of keys missing from a dict, or None exactly when all are present |
| Ranking.Insert | agents/agent.py:71 | one insertion step of the stable descending sort adds exactly one entry |
| Ranking.SortDesc | agents/agent.py:71 | `sorted(..., key=score, reverse=True)` keeps the length of its input |
| Ranking.WithScoreAppend | agents/agent.py:71 | the entries of one score in a concatenation are those of each part, in order |
| Ranking.WithScoreNone | agents/agent.py:71 | a list whose scores are all below `v` has no entry of score `v` |
| Ranking.InsertBounded | agents/agent.py:71 | inserting never produces a score above a bound that all entries respect |
| Ranking.InsertSorted | agents/agent.py:71 | inserting into a list sorted by descending score keeps it sorted |
| Ranking.InsertMultiset | agents/agent.py:71 | inserting adds exactly the new entry and loses none |
| Ranking.InsertWithScore | agents/agent.py:71 | the new entry goes after every entry of equal score (stability) |
| Ranking.SortDescSpec | agents/soft_coordinator.py:26 | the sort is non-increasing in score, a permutation of its input, and keeps the input order among equal scores |
| Agents.SelfFrom | agents/agent.py:72-78 | the scan finds the first position at or after `i` holding this node with the top score, or reports that there is none |
| Agents.SwapFront | agents/agent.py:76-77 | swapping an entry of top score to the front keeps every score in place and the same multiset of candidates |
| Agents.PreferSelfSpec | agents/agent.py:72-78 | on a sorted list the swap keeps it sorted and a permutation; this node comes first when it has the top score, otherwise the list is unchanged |
| Agents.PrefixOfSorted | agents/agent.py:79 | a prefix of a sorted list is sorted and drawn from it |
| Agents.TopScoreFirst | agents/agent.py:71 | the stable descending sort puts a maximal score first |
| Agents.SelectedSpec | agents/agent.py:70-79 | `min(num, len(candidates))` entries, non-increasing in score, drawn from the candidates; this node first when its score is maximal; a prefix of the stable descending sort when this node is absent |
| Agents.CutAt | agents/agent.py:49-51 | the text cut at the first "DO NOT" no longer contains it; a text without it is unchanged |
| Agents.CutAtFirst | agents/agent.py:49-51 | the cut text is the stripped text before the first occurrence of the marker |
| Agents.PieceAfter | agents/agent.py:53 | IndexError exactly when the separator does not occur; otherwise a piece that holds no separator |
| Agents.PieceAfterSecond | agents/agent.py:53 | the piece is the text after the first separator up to the next one, stripped |
| Text.StripAroundPiece | agents/agent.py:49-53 | stripping a text around two separators only trims its two ends |
| Agents.PieceAfterStripped | agents/agent.py:49-53 | after stripping the cut text, the piece between the first two "Output:" is still found whole, then stripped |
| Agents.ExtractResult | agents/agent.py:49-53 | IndexError exactly when no "Output:" precedes the first "DO NOT"; the result contains no "Output:" |
| Agents.ExtractResultUncut | agents/agent.py:49-53 | in a reply without "DO NOT", the answer is the stripped text between the first "Output:" and the next one or the end |
| Agents.ExtractResultCut | agents/agent.py:49-53 | a reply is cut at its first "DO NOT", and the answer is looked for in the stripped text before it |
| Agents.ExtractResultCutSecond | agents/agent.py:49-53 | in `a Output: p Output: q DO NOT tail`, the answer is `p` stripped |
| Agents.ExecuteStep | agents/agent.py:41-59 | the step succeeds exactly when its key is present, its entry is non-empty and the reply holds an "Output:"; a missing step raises KeyError and an empty entry or an unreadable output IndexError; otherwise exactly one "{instruction} Answer: {result}" is appended, `subtask_id` grows by one, `final_result` is set only when `subtask_id` was `len(steps)`, and the other fields are unchanged |
| Agents.Decompose | agents/agent.py:31-40 | `subtask_id` grows by one; `steps` is replaced only when both extraction and DAG generation succeeded; nothing else changes |
| Agents.RunStepsAdvance | agents/agent.py:41-59 | a run of successful steps advances `subtask_id` by the number of steps and never changes the plan |
| Agents.RunStepsHistory | agents/agent.py:55 | a run of steps appends one entry per step and keeps every earlier entry |
| Agents.RunStepsFinal | agents/agent.py:56-58 | a run that ends after the last step (`subtask_id` = `len(steps)`+1) has the last step's answer as `final_result` |
| Agents.FinalResultOnlyAtLastStep | agents/agent.py:56-57 | any step other than the last leaves `final_result` unchanged |
| Agents.Agent.constructor | agents/agent.py:12-23 | the capability manager holds the lower-cased, de-duplicated tags |
| Agents.Agent.SelectExecutor | agents/agent.py:70-79 | the sort, the swap loop and the slice compute `Selected` |
| Agents.Agent.AssignTask | agents/agent.py:61-68 | a missing step raises KeyError and a step without a requirement IndexError; otherwise the beacon has `task_id` str(`subtask_id`), the step's requirement and ttl 2, and the task is delegated to exactly the best candidate when there is one and to nobody otherwise; a step with both entries always succeeds |
| Agents.Agent.HandleBeacon | agents/agent.py:81-87 | one response to the sender, from this node, carrying the beacon's `task_id` and the rounded match score in [0,1]; a missing key raises KeyError and a non-string requirement AttributeError; with both keys and a string requirement it always succeeds |
| Users.SelectExecutor | agents/user.py:32-33 | the first `num` candidates in arrival order, without sorting |
| Users.InitialTask | agents/user.py:25 | `subtask_id` 0, no steps, no previous results, `final_result` "" and `user_id` this node |
| Users.PlanBeacon | agents/user.py:26 | requirement "Plan", `task_id` "0" and ttl 2 |
| Users.Executors | agents/user.py:27-30 | the task goes to each of the first `min(cot_num, len(candidates))` responders, in arrival order |
| TaskRequesters.Decompose | agents/task_requester.py:19-21 | the DAG decoded from the model's structure, or the empty DAG when it is malformed |
| TaskRequesters.SelectExecutor | agents/task_requester.py:36-38 | the first candidate, and None exactly when there are none |
| TaskRequesters.SubtaskBeacon | agents/task_requester.py:25-30 | sender this node, the subtask's requirement, ttl 2, and the subtask's id (or the fresh id when that is falsy) |
| TaskRequesters.ExecutorAsWritten | agents/task_requester.py:32-34 | the whole `(id, score)` pair is passed as the executor, which is never a node id |
| TaskRequesters.ExecutorIntended | agents/task_requester.py:32-34 | the responder id of the pair |
| TaskRequesters.ExecutorOfFirstResponse | agents/task_requester.py:32-34 | from the collected responses, the intended executor is the first responder, while the one passed as written is never a node id |
| TaskRequesters.RoundFor | agents/task_requester.py:24-34 | one beacon per subtask; a delegation exactly when somebody answered, to the pair as written |
| TaskRequesters.IntendedRoundFor | agents/task_requester.py:24-34 | one beacon per subtask; a delegation exactly when somebody answered, to the first responder |
| TaskRequesters.TaskRequester.AssignSubtasks | agents/task_requester.py:23-34 | exactly one beacon per subtask in DAG order, with the subtask's requirement and ttl 2, and at most one delegation per subtask, made only when somebody answered |
| TaskRequesters.TaskRequester.AssignSubtasksIntended | agents/task_requester.py:23-34 | the same loop delegating each subtask to its first responder |
| SoftCoordinators.Matches | agents/soft_coordinator.py:19-23 | no more matches than known agents |
| SoftCoordinators.MatchesSpec | agents/soft_coordinator.py:19-23 | every match is a fitting agent with its reputation score, and every fitting agent is matched |
| SoftCoordinators.TopSpec | agents/soft_coordinator.py:26-27 | at most three, best reputation first, drawn from the matches; no match left out scores above a chosen one; equal scores keep `known_agents` order |
| SoftCoordinators.PrefixOfSorted | agents/soft_coordinator.py:26-27 | the first `n` entries of a list sorted by descending score are sorted, drawn from it, and score at least as high as every entry left out |
| SoftCoordinators.Suggestions | agents/soft_coordinator.py:27 | one response per chosen agent, built from its id with the beacon's requirement as second argument |
| SoftCoordinators.SoftCoordinator.ReceiveBeacon | agents/soft_coordinator.py:14-27 | the filtering loop, the sort and the cut give at most three responses whose task id is the requirement |
| SoftCoordinators.SoftCoordinator.DelegateSubtask | agents/soft_coordinator.py:29-37 | the suggestions for a beacon built from the subtask's id and requirement with ttl 2 |
| TaskRequesters.TaskRequester.constructor | agents/task_requester.py:11-17 | the corrected construction: the requester keeps the id `NewTaskRequesterIntended` gives |
| TaskRequesters.NewTaskRequester | agents/task_requester.py:17 | as written, building the ISEP client from the node id alone binds too few arguments, so every construction raises TypeError |
| TaskRequesters.NewTaskRequesterIntended | agents/task_requester.py:11-17 | with the network adapter passed, as the agent and the user do, construction succeeds and keeps the id |
| SoftCoordinators.SoftCoordinator.constructor | agents/soft_coordinator.py:8-12 | the coordinator keeps its node id and the `known_agents` list |
| UserRegisters.LeaderFrom | user_register.py:65-69 | the scan's leader is a position of the answers |
| UserRegisters.VotePosition | user_register.py:67-68 | the position of the vote is a position of the answers |
| UserRegisters.LeaderFromSpec | user_register.py:67-68 | a scan started from the earliest most frequent prefix answer ends at the earliest most frequent answer |
| UserRegisters.VoteSpec | user_register.py:65-69 | `Counter(...).most_common(1)` yields an answer given, that no answer outnumbers, and that is the earliest of the most frequent ones |
| UserRegisters.UnanimousVote | user_register.py:65-69 | an answer given by every chain wins the vote |
| UserRegisters.SubmittedResultIsIncomplete | user_register.py:44-48 | a result as `submit_result` sends it has its `result` but no `previous_results`, so the collector fails on it before voting |
| UserRegisters.UserRunner.constructor | user_register.py:12-26 | no answers, empty per-task lists, final result "" and the event cleared |
| UserRegisters.UserRunner.ListenStep | user_register.py:37-63 | a `task_result` appends its answer, then its previous results; once `cot_num` answers are in, the vote winner becomes the final result, is appended to `answers` and the event is set; any other message changes nothing |
| UserRegisters.UserRunner.Timeout | user_register.py:75-79 | "[TIMEOUT]" is recorded only when no result was voted; the event is set afterwards in every case |
| UserRegisters.UserRunner.BeginTask | user_register.py:72-94 | the per-task answers, previous results and final result are reset and the event cleared, keeping the results of earlier tasks |
| AgentRegisters.TaskTransition | agent_register.py:62-91 | the flags after an accepted task: a task arriving while one is held fails in the relay branch; a raising `execute` leaves beacons paused; a final step fails at `submit_result` with beacons paused; an intermediate step re-enables beacons and is reassigned |
| AgentRegisters.StuckAfterFinalTask | agent_register.py:71-91 | once a final task was handled, beacons stay paused and every later task fails without changing the flags |
| AgentRegisters.IntermediateStepIsReassigned | agent_register.py:82-86 | an intermediate step re-enables beacons, clears the busy flag and hands the task on |
| AgentRegisters.AgentRunner.constructor | agent_register.py:17-20 | beacons enabled and no task received |
| AgentRegisters.AgentRunner.ListenBeacon | agent_register.py:38-52 | the beacon inbox is read only while beacons are enabled, and only a message tagged "beacon" is handled; the other inboxes are untouched |
| AgentRegisters.AgentRunner.HandleTask | agent_register.py:62-91 | the flags and the outcome are those `TaskTransition` gives |
| AgentRegisters.AgentRunner.ListenTasks | agent_register.py:54-96 | one queued contract is consumed; only one tagged "task" is acted on, so a queue of contracts tagged "subtask" never changes the flags |
| AgentRegisters.AgentRunner.ListenTasksIntended | agent_register.py:54-96 | with the tag the client uses, every queued contract is acted on as `TaskTransition` says |

## Left out

- Sockets, zmq, threads, timers, `poll` and `time.sleep` are left out. Each listening loop is modelled as one call per received message, and a blocking wait is "then read the state".
- `uuid.uuid4()` and `time.time()` are parameters (fresh ids and `now`), so the model says nothing about their uniqueness beyond what each lemma assumes.
- JSON text encoding is left out. A frame body is the byte sequence the encoder produced, and `json.dumps`/`json.loads` are a parameter pair (`encode`, `decode`) in the transport.
- Python floats are modelled as `real`, so IEEE-754 rounding error is not captured.
- Numeric.Round3: rounds halves upwards, whereas Python's `round(x, 3)` rounds the exact binary value half to even. The two differ only on exact ties.
- Text.Lower: lower-cases ASCII letters only; Unicode case folding is not modelled.
- Similarity.Ratio: Ratcliff/Obershelp without difflib's autojunk heuristic, which only applies to texts of 200 or more characters.
- Capability.Dedup: keeps the first occurrence of each tag, whereas `list(set(...))` gives an unspecified order.
- Memory.LocalMemory.constructor: takes `task_limit` as a natural number; a negative one, for which `deque(maxlen=...)` raises ValueError, is not modelled.
- `LocalMemory`'s `neighbor_limit` argument is kept by the model as the constant `neighborLimit` and never read, as the code never reads it: the score windows use their own fixed bound of 20.
- Reputation.ReputationManager.constructor: takes `max_records` as a natural number with no default; a negative one, for which `deque(maxlen=...)` raises ValueError at the first `update_score` or `get_trust_score`, is not modelled, and the default of 50 is left to the caller.
- `list_capabilities` is the `capabilities` field of `Capability.CapabilityManager`, read directly.
- `TranslateTool.name` is the constant `Translate.Name`.
- The language model's `generate`, `extract_task` and `generate_task_dag` are left out. Their outputs (the raw text, the success flags, the plan) are parameters of `Agents.ExecuteStep`, `Agents.Decompose` and `TaskRequesters.Decompose`.
- `match_capability` and the reputation lookup used by the soft coordinator are undefined or imported from the wrong module. They are the parameters `fits` and `scoreOf`, and the failing import is not modelled.
- `SoftCoordinator.update_network_state` is not modelled. It indexes the `known_agents` list with a string id, which raises TypeError on every call.
- `TaskRequester.evaluate_and_update` is not part of this model.
- Agents.Task: an assumed record with the fields `execute` reads. `agents/agent.py`, `agents/user.py` and `agent_register.py` import `Task` from a module that does not define it; that ImportError is not modelled.
- The conversion of the received task dict into a `Task` in the agent's task listener is left out. What `execute` returns for it is the parameter `executed`.
- UserRegisters.Vote: counts answers by structural equality of values; Python's `Counter` also identifies `1`, `1.0` and `True`.
- Isep.StoreResponse: the pending table is keyed by values compared structurally; a Python dict would also identify the task ids `1`, `1.0` and `True`. The same holds for Isep.IsepClient.BroadcastAndCollect.
- The discovery calls inside `Agent.assign_task`, `User.assign_original_task` and `TaskRequester.assign_subtasks` (`broadcast_and_collect`, `delegate_task`) are left out. Each method returns the beacon it would send and the executors it would delegate to, with the collected candidates as a parameter.
- AgentRegisters.TaskTransition: the re-enabling of beacons after a final result is not modelled. It cannot be reached, because the `submit_result` call before it raises TypeError.
- Agents.Agent.SelectExecutor: candidates are `(id, score)` pairs of a string and a real. Python would also sort other comparable values.
- The `User`, `TaskRequester` and `SoftCoordinator` classes carry no network client. Collected candidates and fresh ids are parameters.
- Gossip.SpartacusCommunicator.constructor: takes the topology as an argument, because the source's own lookup always fails (see Findings).
- Gossip.SpartacusCommunicator.ProcessReceivedMessage: the neighbour-mode receive loop around it is not modelled, so neither is the `"OK"` reply that an exception from it skips. A callback's own exception is one of the modelled exception kinds.
- The text of exceptions caught and logged by the accept loop and the listeners is not modelled; only the exception kind is.
- The JSON dump of the answers to a file in `loop_tasks` is not modelled.
- Signing, the `eval`-based math tool, the search tool and the random noise of the group reward are left out. The noise is a parameter of `Reward.GroupScore`.
- The language-model, training, configuration, logging and command-line modules are not part of this model.

## Findings

| source | as written | input that shows it | evidently intended | confidence | as-written member | corrected member |
|---|---|---|---|---|---|---|
| infra/sparta_communicator.py:199-205 | de-duplicates on the id `LoRAPatch.from_dict` draws afresh for every decoding | the same patch message from "node-b" received twice by "node-a": both deliveries run the callbacks | de-duplicate on the `patch_id` carried by the message | not executed | Gossip.RedeliveryRunsCallbacksTwice | Gossip.RedeliveryRunsCallbacksOnce |
| infra/sparta_communicator.py:25 | `TopologyType[...]` subscripts a plain class, which raises TypeError | any configuration, e.g. `{"topology": "GLOBAL_BROADCAST"}` | look the topology up by its name | not executed | Gossip.TopologyAsWritten | Gossip.TopologyByName |
| agent_register.py:59 | acts only on messages tagged "task", while the client queues contracts as "subtask" | a delegated contract in the task queue is consumed and ignored | accept the "subtask" tag | not executed | AgentRegisters.AgentRunner.ListenTasks | AgentRegisters.AgentRunner.ListenTasksIntended |
| agents/task_requester.py:17 | builds the ISEP client without the required `network_adapter` | `TaskRequester("r1", ...)`: every construction raises TypeError, so `assign_subtasks` is never reached | pass the network adapter, as `agents/agent.py` and `agents/user.py` do | not executed | TaskRequesters.NewTaskRequester | TaskRequesters.NewTaskRequesterIntended |
| agents/task_requester.py:32-34 | passes the whole `(responder_id, match_score)` pair as the executor id | one response from "a1" with score 0.9: the contract is addressed to `["a1", 0.9]` (once construction is corrected) | pass the responder id | not executed | TaskRequesters.TaskRequester.AssignSubtasks | TaskRequesters.TaskRequester.AssignSubtasksIntended |
