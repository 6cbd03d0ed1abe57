/**
 * Gossip of LoRA patches (`SpartacusCommunicator`): the de-duplication of received patches, the
 * callback fan-out, neighbour registration and the two broadcast modes. ZeroMQ sockets are
 * replaced by what they do for the model: the ids of the neighbours holding a request socket,
 * and whether a send to a neighbour raised.
 */
module Gossip {
  import opened Wrappers
  import opened Values
  import opened Lists
  import LoraPatches

  datatype Topology = GlobalBroadcast | NeighborBroadcast

  /** The topology lookup as written: `TopologyType[...]` subscripts a plain class, which raises
      TypeError whatever the configuration says. */
  function TopologyAsWritten(config: Dict): (r: Result<Topology>)
    ensures r == Raise(TypeError)
  {
    Raise(TypeError)
  }

  /** The lookup by member name that the code evidently intends, default "GLOBAL_BROADCAST". */
  function TopologyByName(config: Dict): (r: Result<Topology>)
    ensures r == Ok(GlobalBroadcast) <==> Get(config, "topology_type", VStr("GLOBAL_BROADCAST")) == VStr("GLOBAL_BROADCAST")
    ensures r == Ok(NeighborBroadcast) <==> Get(config, "topology_type", VStr("GLOBAL_BROADCAST")) == VStr("NEIGHBOR_BROADCAST")
    ensures "topology_type" !in config ==> r == Ok(GlobalBroadcast)
  {
    match Get(config, "topology_type", VStr("GLOBAL_BROADCAST"))
    case VStr(name) =>
      if name == "GLOBAL_BROADCAST" then Ok(GlobalBroadcast)
      else if name == "NEIGHBOR_BROADCAST" then Ok(NeighborBroadcast)
      else Raise(KeyError(name))
    case VList(_) => Raise(TypeError)
    case VDict(_) => Raise(TypeError)
    case other => Raise(KeyError(""))
  }

  /** The envelope both broadcast modes send. */
  function PatchMessage(nodeId: string, now: int, patch: LoraPatches.LoRAPatch): (m: Value)
    ensures m.VDict? && m.fields.Keys == {"sender_id", "timestamp", "patch"}
    ensures m.fields["sender_id"] == VStr(nodeId) && m.fields["patch"] == VDict(LoraPatches.ToDict(patch))
  {
    VDict(map["sender_id" := VStr(nodeId), "timestamp" := VInt(now), "patch" := VDict(LoraPatches.ToDict(patch))])
  }

  /** The outcome of handling one received message: the processed-id set afterwards, and the
      patch the callbacks are run with, if they are run. */
  datatype Delivery = Delivery(processed: set<Value>, accepted: Option<LoraPatches.LoRAPatch>)

  /** The patch payload of a message, when `_process_received_message` gets as far as decoding it.
      A message that is not a dict has no `get`, and neither has a truthy payload that is not a
      dict (`from_dict` calls `data.get`): both raise AttributeError. A falsy payload ends the
      call quietly. */
  function PayloadOf(message: Value): (r: Result<Option<Dict>>)
    ensures r.Raise? <==> !message.VDict? || (Truthy(Get(message.fields, "patch", VNull))
                                              && !Get(message.fields, "patch", VNull).VDict?)
    ensures r.Raise? ==> r.exc == AttributeError
    ensures r == Ok(None) <==> message.VDict? && !Truthy(Get(message.fields, "patch", VNull))
    ensures r.Ok? && r.value.Some? ==> message.VDict? && "patch" in message.fields
                                       && message.fields["patch"] == VDict(r.value.value) && r.value.value != map[]
  {
    if !message.VDict? then Raise(AttributeError)
    else
      var payload := Get(message.fields, "patch", VNull);
      if !Truthy(payload) then Ok(None)
      else if payload.VDict? then Ok(Some(payload.fields))
      else Raise(AttributeError)
  }

  /** `_process_received_message` as written, up to the callbacks: the patch is rebuilt by
      `from_dict`, which draws a fresh id (`uuid`), and that fresh id is what is checked against
      and added to the set. */
  function Receive(nodeId: string, processed: set<Value>, message: Value, uuid: string, now: int): (d: Result<Delivery>)
    ensures d.Raise? <==> PayloadOf(message).Raise?
    ensures d.Raise? ==> d.exc == AttributeError
    ensures PayloadOf(message) == Ok(None) ==> d == Ok(Delivery(processed, None))
    ensures d.Ok? && Get(message.fields, "sender_id", VNull) == VStr(nodeId) ==> d == Ok(Delivery(processed, None))
    ensures d.Ok? && VStr(uuid) in processed ==> d == Ok(Delivery(processed, None))
    ensures d.Ok? && d.value.accepted.Some? ==>
              d.value.accepted.value.patchId == VStr(uuid) && VStr(uuid) !in processed
              && d.value.processed == processed + {VStr(uuid)}
    ensures d.Ok? && d.value.accepted.None? ==> d.value.processed == processed
    ensures PayloadOf(message).Ok? && PayloadOf(message).value.Some?
            && Get(message.fields, "sender_id", VNull) != VStr(nodeId) && VStr(uuid) !in processed
            ==> d == Ok(Delivery(processed + {VStr(uuid)}, Some(LoraPatches.FromDict(PayloadOf(message).value.value, uuid, now))))
  {
    match PayloadOf(message)
    case Raise(e) => Raise(e)
    case Ok(None) => Ok(Delivery(processed, None))
    case Ok(Some(data)) =>
      var patch := LoraPatches.FromDict(data, uuid, now);
      if Get(message.fields, "sender_id", VNull) == VStr(nodeId) || patch.patchId in processed
      then Ok(Delivery(processed, None))
      else Ok(Delivery(processed + {patch.patchId}, Some(patch)))
  }

  /** The id the de-duplication evidently intends: the patch id the sender put on the wire
      (the fresh id only when the payload carries none). */
  function WireId(data: Dict, uuid: string): Value
  {
    Get(data, "patch_id", VStr(uuid))
  }

  /** The corrected step: de-duplicate on the id carried by the message. */
  function ReceiveByWireId(nodeId: string, processed: set<Value>, message: Value, uuid: string, now: int): (d: Result<Delivery>)
    ensures d.Raise? <==> PayloadOf(message).Raise?
    ensures d.Raise? ==> d.exc == AttributeError
    ensures PayloadOf(message) == Ok(None) ==> d == Ok(Delivery(processed, None))
    ensures d.Ok? && Get(message.fields, "sender_id", VNull) == VStr(nodeId) ==> d == Ok(Delivery(processed, None))
    ensures d.Ok? && d.value.accepted.Some? ==>
              WireId(PayloadOf(message).value.value, uuid) !in processed
              && d.value.processed == processed + {WireId(PayloadOf(message).value.value, uuid)}
    ensures d.Ok? && d.value.accepted.None? ==> d.value.processed == processed
    ensures PayloadOf(message).Ok? && PayloadOf(message).value.Some?
            && Get(message.fields, "sender_id", VNull) != VStr(nodeId)
            && WireId(PayloadOf(message).value.value, uuid) !in processed
            ==> d == Ok(Delivery(processed + {WireId(PayloadOf(message).value.value, uuid)},
                                 Some(LoraPatches.FromDict(PayloadOf(message).value.value, uuid, now))))
  {
    match PayloadOf(message)
    case Raise(e) => Raise(e)
    case Ok(None) => Ok(Delivery(processed, None))
    case Ok(Some(data)) =>
      var patch := LoraPatches.FromDict(data, uuid, now);
      var id := WireId(data, uuid);
      if Get(message.fields, "sender_id", VNull) == VStr(nodeId) || id in processed
      then Ok(Delivery(processed, None))
      else Ok(Delivery(processed + {id}, Some(patch)))
  }

  /** How far the callback loop gets: the position of the first callback that raises (its
      exception is `raises(c)`), or the number of callbacks when none does. */
  function FirstRaising<C>(callbacks: seq<C>, raises: C -> Option<Exception>): (n: nat)
    ensures n <= |callbacks|
    ensures forall k :: 0 <= k < n ==> raises(callbacks[k]).None?
    ensures n < |callbacks| ==> raises(callbacks[n]).Some?
    decreases |callbacks|
  {
    if callbacks == [] || raises(callbacks[0]).Some? then 0
    else 1 + FirstRaising(callbacks[1..], raises)
  }

  /** The number of callbacks invoked: all of them when none raises, otherwise those up to and
      including the raising one. */
  function CallbackCount<C>(callbacks: seq<C>, raises: C -> Option<Exception>): nat
  {
    var n := FirstRaising(callbacks, raises);
    if n < |callbacks| then n + 1 else n
  }

  /** As written, a patch message delivered twice (each decoding drawing its own fresh id) runs
      the callbacks both times. */
  lemma RedeliveryRunsCallbacksTwice(nodeId: string, processed: set<Value>, message: Value,
                                     uuid1: string, uuid2: string, now1: int, now2: int)
    requires PayloadOf(message).Ok? && PayloadOf(message).value.Some?
    requires Get(message.fields, "sender_id", VNull) != VStr(nodeId)
    requires VStr(uuid1) !in processed && VStr(uuid2) !in processed && uuid1 != uuid2
    ensures Receive(nodeId, processed, message, uuid1, now1).Ok?
    ensures Receive(nodeId, processed, message, uuid1, now1).value.accepted.Some?
    ensures Receive(nodeId, Receive(nodeId, processed, message, uuid1, now1).value.processed, message, uuid2, now2).Ok?
    ensures Receive(nodeId, Receive(nodeId, processed, message, uuid1, now1).value.processed, message, uuid2, now2).value.accepted.Some?
  {
  }

  /** A concrete instance: the same message from "node-b", received twice by "node-a". */
  lemma RedeliveryExample()
    ensures var m := PatchMessage("node-b", 7, LoraPatches.NewPatch(VStr("node-b"), VStr("p.pt"), VList([]), "id-0", 7));
            var first := Receive("node-a", {}, m, "id-1", 8);
            first.Ok? && first.value.accepted.Some?
            && Receive("node-a", first.value.processed, m, "id-2", 9).Ok?
            && Receive("node-a", first.value.processed, m, "id-2", 9).value.accepted.Some?
  {
    var m := PatchMessage("node-b", 7, LoraPatches.NewPatch(VStr("node-b"), VStr("p.pt"), VList([]), "id-0", 7));
    assert PayloadOf(m).Ok? && PayloadOf(m).value.Some?;
    RedeliveryRunsCallbacksTwice("node-a", {}, m, "id-1", "id-2", 8, 9);
  }

  /** Corrected: once a message carrying a patch id was accepted, delivering it again runs no
      callback, whatever fresh id the second decoding draws. */
  lemma RedeliveryRunsCallbacksOnce(nodeId: string, processed: set<Value>, message: Value,
                                    uuid1: string, uuid2: string, now1: int, now2: int)
    requires PayloadOf(message).Ok? && PayloadOf(message).value.Some? && "patch_id" in PayloadOf(message).value.value
    requires ReceiveByWireId(nodeId, processed, message, uuid1, now1).Ok?
    requires ReceiveByWireId(nodeId, processed, message, uuid1, now1).value.accepted.Some?
    ensures var after := ReceiveByWireId(nodeId, processed, message, uuid1, now1).value.processed;
            ReceiveByWireId(nodeId, after, message, uuid2, now2) == Ok(Delivery(after, None))
  {
    var data := PayloadOf(message).value.value;
    assert WireId(data, uuid1) == WireId(data, uuid2);
  }

  /** Corrected: a patch message from another node whose patch id is new is accepted on its
      first delivery and refused on every later one, so the callbacks run exactly once. */
  lemma DeliveredExactlyOnce(nodeId: string, processed: set<Value>, message: Value,
                             uuid1: string, uuid2: string, now1: int, now2: int)
    requires PayloadOf(message).Ok? && PayloadOf(message).value.Some? && "patch_id" in PayloadOf(message).value.value
    requires Get(message.fields, "sender_id", VNull) != VStr(nodeId)
    requires PayloadOf(message).value.value["patch_id"] !in processed
    ensures ReceiveByWireId(nodeId, processed, message, uuid1, now1).Ok?
    ensures ReceiveByWireId(nodeId, processed, message, uuid1, now1).value.accepted.Some?
    ensures var after := ReceiveByWireId(nodeId, processed, message, uuid1, now1).value.processed;
            ReceiveByWireId(nodeId, after, message, uuid2, now2) == Ok(Delivery(after, None))
  {
    var data := PayloadOf(message).value.value;
    assert WireId(data, uuid1) == data["patch_id"];
    RedeliveryRunsCallbacksOnce(nodeId, processed, message, uuid1, uuid2, now1, now2);
  }

  /** What one broadcast did on the wire. */
  datatype Outgoing =
    | Published(message: Value)                             // global mode: one PUB message
    | ToNeighbor(id: string, message: Value, delivered: bool) // neighbour mode: one REQ exchange


  class SpartacusCommunicator<C> {
    const nodeId: string
    const topology: Topology
    /** `neighbor_nodes`: id to configured address (empty in global mode). */
    var neighborNodes: map<string, Value>
    /** The keys of `req_sockets`, in insertion order. */
    var sockets: seq<string>
    var receiveCallbacks: seq<C>
    var processedPatches: set<Value>

    ghost predicate Valid()
      reads this
    {
      NoDup(sockets) && (forall i :: 0 <= i < |sockets| ==> sockets[i] in neighborNodes)
      && (topology == GlobalBroadcast ==> neighborNodes == map[] && sockets == [])
    }

    /** The constructor with the topology the configuration names (see `TopologyByName`) and,
        in neighbour mode, the configured neighbours with a socket each, in configuration order. */
    constructor (nodeId: string, topology: Topology, neighbors: map<string, Value>, order: seq<string>)
      requires NoDup(order) && (forall id :: id in neighbors <==> id in order)
      requires topology == GlobalBroadcast ==> neighbors == map[] && order == []
      ensures Valid()
      ensures this.nodeId == nodeId && this.topology == topology
      ensures neighborNodes == neighbors && sockets == order
      ensures receiveCallbacks == [] && processedPatches == {}
    {
      this.nodeId, this.topology := nodeId, topology;
      neighborNodes, sockets := neighbors, order;
      receiveCallbacks, processedPatches := [], {};
    }

    /** `receive_callbacks.append(callback)`, done by the communicator's users. */
    method AddCallback(callback: C)
      modifies this
      ensures receiveCallbacks == old(receiveCallbacks) + [callback]
      ensures processedPatches == old(processedPatches) && neighborNodes == old(neighborNodes) && sockets == old(sockets)
    {
      receiveCallbacks := receiveCallbacks + [callback];
    }

    /** `_process_received_message`: returns the callback calls made, in order, and the exception
        that ends the call, if any. A callback that raises (`raises`) stops the remaining ones,
        after the patch id was recorded. */
    method ProcessReceivedMessage(message: Value, uuid: string, now: int, raises: C -> Option<Exception>)
      returns (calls: seq<(C, LoraPatches.LoRAPatch)>, r: Result<()>)
      modifies this
      ensures Receive(nodeId, old(processedPatches), message, uuid, now).Raise? ==>
        r == Raise(AttributeError) && calls == [] && processedPatches == old(processedPatches)
      ensures Receive(nodeId, old(processedPatches), message, uuid, now).Ok? ==>
        processedPatches == Receive(nodeId, old(processedPatches), message, uuid, now).value.processed
      ensures Receive(nodeId, old(processedPatches), message, uuid, now) == Ok(Delivery(old(processedPatches), None)) ==>
        calls == [] && r == Ok(())
      ensures Receive(nodeId, old(processedPatches), message, uuid, now).Ok?
              && Receive(nodeId, old(processedPatches), message, uuid, now).value.accepted.Some? ==>
        var n := FirstRaising(receiveCallbacks, raises);
        && |calls| == CallbackCount(receiveCallbacks, raises)
        && (forall k :: 0 <= k < |calls| ==>
              calls[k] == (receiveCallbacks[k], Receive(nodeId, old(processedPatches), message, uuid, now).value.accepted.value))
        && (n == |receiveCallbacks| ==> r == Ok(()))
        && (n < |receiveCallbacks| ==> r == Raise(raises(receiveCallbacks[n]).value))
      ensures processedPatches >= old(processedPatches)
      ensures receiveCallbacks == old(receiveCallbacks) && neighborNodes == old(neighborNodes) && sockets == old(sockets)
    {
      calls, r := [], Ok(());
      var data := PayloadOf(message);
      if data.Raise? {
        r := Raise(data.exc);
        return;
      }
      if data.value.None? {
        return;
      }
      var patch := LoraPatches.FromDict(data.value.value, uuid, now);
      if Get(message.fields, "sender_id", VNull) == VStr(nodeId) || patch.patchId in processedPatches {
        return;
      }
      processedPatches := processedPatches + {patch.patchId};
      calls, r := RunCallbacks(patch, raises);
    }

    /** The corrected `_process_received_message`: the set records the id carried by the message,
        so a redelivered patch runs no callback. */
    method ProcessReceivedMessageByWireId(message: Value, uuid: string, now: int, raises: C -> Option<Exception>)
      returns (calls: seq<(C, LoraPatches.LoRAPatch)>, r: Result<()>)
      modifies this
      ensures ReceiveByWireId(nodeId, old(processedPatches), message, uuid, now).Raise? ==>
        r == Raise(AttributeError) && calls == [] && processedPatches == old(processedPatches)
      ensures ReceiveByWireId(nodeId, old(processedPatches), message, uuid, now).Ok? ==>
        processedPatches == ReceiveByWireId(nodeId, old(processedPatches), message, uuid, now).value.processed
      ensures ReceiveByWireId(nodeId, old(processedPatches), message, uuid, now) == Ok(Delivery(old(processedPatches), None)) ==>
        calls == [] && r == Ok(())
      ensures ReceiveByWireId(nodeId, old(processedPatches), message, uuid, now).Ok?
              && ReceiveByWireId(nodeId, old(processedPatches), message, uuid, now).value.accepted.Some? ==>
        var n := FirstRaising(receiveCallbacks, raises);
        && |calls| == CallbackCount(receiveCallbacks, raises)
        && (forall k :: 0 <= k < |calls| ==>
              calls[k] == (receiveCallbacks[k], ReceiveByWireId(nodeId, old(processedPatches), message, uuid, now).value.accepted.value))
        && (n == |receiveCallbacks| ==> r == Ok(()))
        && (n < |receiveCallbacks| ==> r == Raise(raises(receiveCallbacks[n]).value))
      ensures processedPatches >= old(processedPatches)
      ensures receiveCallbacks == old(receiveCallbacks) && neighborNodes == old(neighborNodes) && sockets == old(sockets)
    {
      calls, r := [], Ok(());
      var data := PayloadOf(message);
      if data.Raise? {
        r := Raise(data.exc);
        return;
      }
      if data.value.None? {
        return;
      }
      var patch := LoraPatches.FromDict(data.value.value, uuid, now);
      var id := WireId(data.value.value, uuid);
      if Get(message.fields, "sender_id", VNull) == VStr(nodeId) || id in processedPatches {
        return;
      }
      processedPatches := processedPatches + {id};
      calls, r := RunCallbacks(patch, raises);
    }

    /** `for callback in self.receive_callbacks: callback(patch)`: the callbacks in registration
        order, until one raises. */
    method RunCallbacks(patch: LoraPatches.LoRAPatch, raises: C -> Option<Exception>)
      returns (calls: seq<(C, LoraPatches.LoRAPatch)>, r: Result<()>)
      ensures |calls| == CallbackCount(receiveCallbacks, raises)
      ensures forall k :: 0 <= k < |calls| ==> calls[k] == (receiveCallbacks[k], patch)
      ensures FirstRaising(receiveCallbacks, raises) == |receiveCallbacks| ==> r == Ok(())
      ensures FirstRaising(receiveCallbacks, raises) < |receiveCallbacks| ==>
                r == Raise(raises(receiveCallbacks[FirstRaising(receiveCallbacks, raises)]).value)
    {
      calls, r := [], Ok(());
      var i := 0;
      while i < |receiveCallbacks|
        invariant 0 <= i <= |receiveCallbacks|
        invariant forall k :: 0 <= k < i ==> raises(receiveCallbacks[k]).None?
        invariant |calls| == i && forall k :: 0 <= k < i ==> calls[k] == (receiveCallbacks[k], patch)
      {
        calls := calls + [(receiveCallbacks[i], patch)];
        var e := raises(receiveCallbacks[i]);
        if e.Some? {
          r := Raise(e.value);
          return;
        }
        i := i + 1;
      }
    }

    /** `register_node`: only in neighbour mode, only for a new id other than this node's. The
        address is recorded first; a socket follows only for a string address (connecting to
        anything else raises TypeError). */
    method RegisterNode(id: string, nodeInfo: Dict) returns (r: Result<()>)
      requires Valid()
      modifies this
      ensures Valid()
      ensures topology == GlobalBroadcast || id in old(neighborNodes) || id == nodeId ==>
                r == Ok(()) && neighborNodes == old(neighborNodes) && sockets == old(sockets)
      ensures topology == NeighborBroadcast && id !in old(neighborNodes) && id != nodeId ==>
                neighborNodes == old(neighborNodes)[id := Get(nodeInfo, "addr", VNull)]
                && (Get(nodeInfo, "addr", VNull).VStr? ==> r == Ok(()) && sockets == old(sockets) + [id])
                && (!Get(nodeInfo, "addr", VNull).VStr? ==> r == Raise(TypeError) && sockets == old(sockets))
      ensures receiveCallbacks == old(receiveCallbacks) && processedPatches == old(processedPatches)
    {
      r := Ok(());
      if topology == NeighborBroadcast && id !in neighborNodes && id != nodeId {
        var addr := Get(nodeInfo, "addr", VNull);
        neighborNodes := neighborNodes[id := addr];
        if addr.VStr? {
          assert id !in sockets;
          sockets := sockets + [id];
        } else {
          r := Raise(TypeError);
        }
      }
    }

    /** `broadcast_lora_patch`: one publication in global mode; in neighbour mode one exchange
        per socket, in order, where a neighbour whose send raised (`fails`) does not stop the
        others. */
    method BroadcastLoraPatch(patch: LoraPatches.LoRAPatch, now: int, fails: string -> bool)
      returns (out: seq<Outgoing>)
      ensures topology == GlobalBroadcast ==> out == [Published(PatchMessage(nodeId, now, patch))]
      ensures topology == NeighborBroadcast ==>
        |out| == |sockets| && forall k :: 0 <= k < |out| ==>
          out[k] == ToNeighbor(sockets[k], PatchMessage(nodeId, now, patch), !fails(sockets[k]))
    {
      var message := PatchMessage(nodeId, now, patch);
      if topology == GlobalBroadcast {
        return [Published(message)];
      }
      out := [];
      var i := 0;
      while i < |sockets|
        invariant 0 <= i <= |sockets|
        invariant |out| == i
        invariant forall k :: 0 <= k < i ==> out[k] == ToNeighbor(sockets[k], message, !fails(sockets[k]))
      {
        out := out + [ToNeighbor(sockets[i], message, !fails(sockets[i]))];
        i := i + 1;
      }
    }
  }

  /** Corrected: a patch id carried on the wire is accepted at most once. After a message
      carrying it was accepted, no message carrying the same id is accepted, whatever its sender
      and whatever fresh id its decoding draws. */
  lemma AcceptedAtMostOnce(nodeId: string, processed: set<Value>, m1: Value, m2: Value,
                           uuid1: string, uuid2: string, now1: int, now2: int)
    requires PayloadOf(m1).Ok? && PayloadOf(m1).value.Some? && "patch_id" in PayloadOf(m1).value.value
    requires PayloadOf(m2).Ok? && PayloadOf(m2).value.Some? && "patch_id" in PayloadOf(m2).value.value
    requires PayloadOf(m1).value.value["patch_id"] == PayloadOf(m2).value.value["patch_id"]
    requires ReceiveByWireId(nodeId, processed, m1, uuid1, now1).Ok?
    requires ReceiveByWireId(nodeId, processed, m1, uuid1, now1).value.accepted.Some?
    ensures var after := ReceiveByWireId(nodeId, processed, m1, uuid1, now1).value.processed;
            ReceiveByWireId(nodeId, after, m2, uuid2, now2) == Ok(Delivery(after, None))
  {
    assert WireId(PayloadOf(m1).value.value, uuid1) == WireId(PayloadOf(m2).value.value, uuid2);
  }
}
