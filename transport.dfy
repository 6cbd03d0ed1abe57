/**
 * The node transport (`NetworkAdapter`): a routing table of neighbours, a table of one handler
 * per message type, `send` with its acknowledgement check, `broadcast`, and one iteration of the
 * accept loop. Sockets are replaced by what they deliver: the outcome of opening a connection
 * (`Link`) and the segments the peer's bytes arrive in. `json.dumps(...).encode('utf-8')` and
 * `bytes.decode('utf-8')` followed by `json.loads` are the parameters `encode` and `decode`
 * (`decode` answers None where Python raises).
 */
module Transport {
  import opened Wrappers
  import opened Values
  import opened Lists
  import opened Framing

  datatype Address = Address(host: string, port: int)

  /** What opening a connection to a neighbour's address gives `send`: a socket error (refused,
      timed out, reset while writing), or an open connection and what the peer writes back. */
  datatype Link = Refused | Connected(reply: Segments)

  /** The envelope `send` builds around a payload (`data.to_dict()` is `data`). */
  function Envelope(sender: string, target: string, msgType: string, data: Value, now: real): (m: Value)
    ensures m.VDict? && m.fields.Keys == {"sender_id", "target_id", "msg_type", "data", "timestamp"}
  {
    VDict(map["sender_id" := VStr(sender), "target_id" := VStr(target), "msg_type" := VStr(msgType),
              "data" := data, "timestamp" := VReal(now)])
  }

  function ErrorReply(message: string): Value
  {
    VDict(map["status" := VStr("error"), "message" := VStr(message)])
  }

  /** `_receive_response`: the acknowledgement read back after a send. Every failure becomes a
      dictionary whose status is "error"; the text of a caught exception is not modelled. */
  function ReplyOf(reply: Segments, decode: seq<byte> -> Option<Value>): (v: Value)
    requires WellFormed(reply)
    ensures reply == [] ==> v == ErrorReply("没有响应")
    ensures DecodeFrame(reply).Short? ==> v == ErrorReply("响应不完整")
    ensures DecodeFrame(reply).Body? && decode(DecodeFrame(reply).bytes).Some? ==> v == decode(DecodeFrame(reply).bytes).value
    ensures DecodeFrame(reply).Body? && decode(DecodeFrame(reply).bytes).None? ==> !IsSuccess(v)
    ensures !DecodeFrame(reply).Body? ==> !IsSuccess(v)
  {
    match DecodeFrame(reply)
    case NoPrefix => ErrorReply("没有响应")
    case Short(_, _) => ErrorReply("响应不完整")
    case Body(b) => match decode(b) case Some(v) => v case None => ErrorReply("decode error")
  }

  /** True exactly when the acknowledgement is a dictionary whose status is "success". */
  predicate IsSuccess(reply: Value)
  {
    reply.VDict? && Get(reply.fields, "status", VNull) == VStr("success")
  }

  /** The outcome of `send(target, msgType, data)`. */
  function SendOutcome(sender: string, neighbors: map<string, Address>, target: string, msgType: string,
                       data: Value, now: real, link: Link,
                       encode: Value -> seq<byte>, decode: seq<byte> -> Option<Value>): (r: Result<bool>)
    requires link.Connected? ==> WellFormed(link.reply)
    ensures target !in neighbors ==> r == Ok(false)
    ensures link.Refused? ==> r == Ok(false)
    ensures r == Ok(true) ==> target in neighbors && link.Connected? && IsSuccess(ReplyOf(link.reply, decode))
    ensures link.Connected? && link.reply == [] ==> r != Ok(true)
    ensures link.Connected? && DecodeFrame(link.reply).Short? ==> r != Ok(true)
    ensures target in neighbors && link.Connected? ==>
      var frame := EncodeFrame(encode(Envelope(sender, target, msgType, data, now)));
      && (frame.Raise? ==> r == Raise(frame.exc))
      && (frame.Ok? ==> (r.Ok? <==> ReplyOf(link.reply, decode).VDict?))
      && (frame.Ok? && r.Ok? ==> r.value == IsSuccess(ReplyOf(link.reply, decode)))
      && (frame.Ok? && r.Raise? ==> r.exc == AttributeError)
  {
    if target !in neighbors then Ok(false)
    else if link.Refused? then Ok(false)
    else
      var frame := EncodeFrame(encode(Envelope(sender, target, msgType, data, now)));
      if frame.Raise? then Raise(frame.exc)
      else
        var reply := ReplyOf(link.reply, decode);
        if reply.VDict? then Ok(IsSuccess(reply)) else Raise(AttributeError)
  }

  /** An acknowledgement that arrives whole, with its length prefix in the first segment, is
      read back as the value the peer encoded, whenever the text decoding inverts the encoding. */
  lemma ReplyOfWholeFrame(v: Value, reply: Segments, encode: Value -> seq<byte>, decode: seq<byte> -> Option<Value>)
    requires |encode(v)| < FrameLimit && decode(encode(v)) == Some(v)
    requires WellFormed(reply) && Flatten(reply) == EncodeFrame(encode(v)).value
    requires reply != [] && |reply[0]| >= 4
    ensures ReplyOf(reply, decode) == v
  {
    DecodeEncode(encode(v), reply);
  }

  /** An acknowledgement cut short after its prefix is an error, so `send` reports no success. */
  lemma ReplyOfCutFrame(v: Value, cut: nat, reply: Segments, encode: Value -> seq<byte>, decode: seq<byte> -> Option<Value>)
    requires |encode(v)| < FrameLimit && cut < |encode(v)|
    requires WellFormed(reply) && Flatten(reply) == EncodeFrame(encode(v)).value[..4 + cut]
    requires reply != [] && |reply[0]| >= 4
    ensures ReplyOf(reply, decode) == ErrorReply("响应不完整")
    ensures !IsSuccess(ReplyOf(reply, decode))
  {
    TruncatedFrameIsShort(encode(v), cut, reply);
  }

  /** The outcomes of sending the same message to each of `ids` in turn. */
  function SendsTo(sender: string, neighbors: map<string, Address>, ids: seq<string>, msgType: string,
                   data: Value, now: real, links: string -> Link,
                   encode: Value -> seq<byte>, decode: seq<byte> -> Option<Value>): (rs: seq<Result<bool>>)
    requires forall id :: links(id).Connected? ==> WellFormed(links(id).reply)
    ensures |rs| == |ids|
  {
    if ids == [] then []
    else
      var last := ids[|ids| - 1];
      SendsTo(sender, neighbors, ids[..|ids| - 1], msgType, data, now, links, encode, decode)
        + [SendOutcome(sender, neighbors, last, msgType, data, now, links(last), encode, decode)]
  }

  /** Each outcome is that of sending to the id at the same position. */
  lemma {:induction false} SendsToSpec(sender: string, neighbors: map<string, Address>, ids: seq<string>, msgType: string,
                                       data: Value, now: real, links: string -> Link,
                                       encode: Value -> seq<byte>, decode: seq<byte> -> Option<Value>)
    requires forall id :: links(id).Connected? ==> WellFormed(links(id).reply)
    ensures forall k :: 0 <= k < |ids| ==>
      SendsTo(sender, neighbors, ids, msgType, data, now, links, encode, decode)[k]
        == SendOutcome(sender, neighbors, ids[k], msgType, data, now, links(ids[k]), encode, decode)
  {
    if ids != [] {
      SendsToSpec(sender, neighbors, ids[..|ids| - 1], msgType, data, now, links, encode, decode);
    }
  }

  /** The neighbours of `order` that `broadcast` sends to, in table order. */
  function Eligible(order: seq<string>, exclude: seq<string>): (r: seq<string>)
    ensures |r| <= |order|
  {
    if order == [] then []
    else
      var last := order[|order| - 1];
      Eligible(order[..|order| - 1], exclude) + (if last in exclude then [] else [last])
  }

  /** What the accept loop does with one inbound message. */
  datatype Dispatch<H> =
    | Dropped                                  // unreadable frame or message; nothing is called
    | Unknown(msgType: Value)                  // well-formed, but no handler for the type
    | Invoke(handler: H, sender: Value, data: Value)

  /** `_handle_message`: validation of the envelope and the choice of the handler. */
  function HandleMessage<H>(message: Value, handlers: map<string, H>): (d: Dispatch<H>)
    ensures d.Invoke? ==>
      && message.VDict?
      && Get(message.fields, "msg_type", VNull).VStr?
      && Get(message.fields, "msg_type", VNull).s in handlers
      && d.handler == handlers[Get(message.fields, "msg_type", VNull).s]
      && d.sender == Get(message.fields, "sender_id", VNull) && Truthy(d.sender)
      && d.data == Get(message.fields, "data", VNull) && d.data != VNull
    ensures message.VDict? && Truthy(Get(message.fields, "sender_id", VNull))
            && Get(message.fields, "data", VNull) != VNull
            && Get(message.fields, "msg_type", VNull).VStr?
            && Get(message.fields, "msg_type", VNull).s in handlers - {""}
            ==> d.Invoke?
    ensures !message.VDict? || !Truthy(Get(message.fields, "msg_type", VNull))
            || !Truthy(Get(message.fields, "sender_id", VNull))
            || Get(message.fields, "data", VNull) == VNull
            ==> d.Dropped?
  {
    if !message.VDict? then Dropped
    else
      var msgType := Get(message.fields, "msg_type", VNull);
      var sender := Get(message.fields, "sender_id", VNull);
      var data := Get(message.fields, "data", VNull);
      if !Truthy(msgType) || !Truthy(sender) || data == VNull then Dropped
      else match msgType
        case VStr(t) => if t in handlers then Invoke(handlers[t], sender, data) else Unknown(msgType)
        case VList(_) => Dropped   // unhashable: `in` raises TypeError, caught by the loop
        case VDict(_) => Dropped
        case _ => Unknown(msgType)
  }

  /** One iteration of `_receive_loop` on an accepted connection. It never writes to the peer. */
  function ReceiveOutcome<H>(segs: Segments, decode: seq<byte> -> Option<Value>, handlers: map<string, H>): (d: Dispatch<H>)
    requires WellFormed(segs)
    ensures segs == [] ==> d.Dropped?
    ensures DecodeFrame(segs).Short? ==> d.Dropped?
  {
    match DecodeFrame(segs)
    case NoPrefix => Dropped
    case Short(_, _) => Dropped
    case Body(b) => match decode(b) case None => Dropped case Some(m) => HandleMessage(m, handlers)
  }


  class NetworkAdapter<H> {
    const nodeId: string
    var neighbors: map<string, Address>
    /** The neighbour ids in insertion order, the order of `self.neighbors.keys()`. */
    var order: seq<string>
    var handlers: map<string, H>

    ghost predicate Valid()
      reads this
    {
      NoDup(order) && forall id :: id in neighbors <==> id in order
    }

    constructor (nodeId: string)
      ensures Valid() && this.nodeId == nodeId
      ensures neighbors == map[] && order == [] && handlers == map[]
    {
      this.nodeId := nodeId;
      neighbors, order, handlers := map[], [], map[];
    }

    /** `register_handler`: the last registration for a type wins; other types are untouched. */
    method RegisterHandler(msgType: string, handler: H)
      requires Valid()
      modifies this
      ensures Valid()
      ensures handlers == old(handlers)[msgType := handler]
      ensures neighbors == old(neighbors) && order == old(order)
    {
      handlers := handlers[msgType := handler];
    }

    /** `add_neighbor`: inserts or overwrites one routing entry; no liveness check. An overwritten
        entry keeps its place in the table order. */
    method AddNeighbor(id: string, host: string, port: int)
      requires Valid()
      modifies this
      ensures Valid()
      ensures neighbors == old(neighbors)[id := Address(host, port)]
      ensures order == if id in old(neighbors) then old(order) else old(order) + [id]
      ensures handlers == old(handlers)
    {
      if id !in neighbors {
        order := order + [id];
      }
      neighbors := neighbors[id := Address(host, port)];
    }

    /** `_receive_response`, with its read loop. */
    method ReceiveResponse(reply: Segments, decode: seq<byte> -> Option<Value>) returns (v: Value)
      requires WellFormed(reply)
      ensures v == ReplyOf(reply, decode)
    {
      var prefix, rest := Recv(reply, 4).0, Recv(reply, 4).1;
      if prefix == [] {
        return ErrorReply("没有响应");
      }
      var len := FromBigEndian(prefix);
      var body, _ := ReadBody(rest, len);
      if |body| != len {
        return ErrorReply("响应不完整");
      }
      match decode(body)
      case Some(r) => v := r;
      case None => v := ErrorReply("decode error");
    }

    /** `send`. */
    method Send(target: string, msgType: string, data: Value, now: real, link: Link,
                encode: Value -> seq<byte>, decode: seq<byte> -> Option<Value>) returns (r: Result<bool>)
      requires link.Connected? ==> WellFormed(link.reply)
      ensures r == SendOutcome(nodeId, neighbors, target, msgType, data, now, link, encode, decode)
    {
      if target !in neighbors {
        return Ok(false);
      }
      if link.Refused? {
        return Ok(false);
      }
      var frame := EncodeFrame(encode(Envelope(nodeId, target, msgType, data, now)));
      if frame.Raise? {
        return Raise(frame.exc);
      }
      var reply := ReceiveResponse(link.reply, decode);
      if reply.VDict? {
        r := Ok(IsSuccess(reply));
      } else {
        r := Raise(AttributeError);
      }
    }

    /** `broadcast`: one `send` per neighbour not in `exclude`, in table order. A send that returns
        False does not stop the loop; only an exception out of `send` does. */
    method Broadcast(msgType: string, data: Value, exclude: seq<string>, now: real,
                     links: string -> Link, encode: Value -> seq<byte>, decode: seq<byte> -> Option<Value>)
      returns (calls: seq<string>, outcomes: seq<Result<bool>>)
      requires forall id :: links(id).Connected? ==> WellFormed(links(id).reply)
      ensures (calls, outcomes) == BroadcastRun(nodeId, neighbors, order, exclude, msgType, data, now, links, encode, decode)
    {
      calls, outcomes := [], [];
      var i := 0;
      var failed := false;
      while i < |order| && !failed
        invariant 0 <= i <= |order| && failed == Raised(outcomes)
        invariant (calls, outcomes) == BroadcastRun(nodeId, neighbors, order[..i], exclude, msgType, data, now, links, encode, decode)
      {
        assert order[..i + 1][..i] == order[..i];
        if order[i] !in exclude {
          var r := Send(order[i], msgType, data, now, links(order[i]), encode, decode);
          calls, outcomes := calls + [order[i]], outcomes + [r];
          failed := r.Raise?;
        }
        i := i + 1;
      }
      if failed {
        BroadcastRunStuck(nodeId, neighbors, order, i, exclude, msgType, data, now, links, encode, decode);
      } else {
        assert order[..i] == order;
      }
    }

    /** One iteration of the accept loop on a connection, with its read loop. */
    method ReceiveConnection(segs: Segments, decode: seq<byte> -> Option<Value>) returns (d: Dispatch<H>)
      requires WellFormed(segs)
      ensures d == ReceiveOutcome(segs, decode, handlers)
    {
      var prefix, rest := Recv(segs, 4).0, Recv(segs, 4).1;
      if prefix == [] {
        return Dropped;
      }
      var len := FromBigEndian(prefix);
      var body, _ := ReadBody(rest, len);
      if |body| != len {
        return Dropped;
      }
      match decode(body)
      case None => d := Dropped;
      case Some(m) => d := HandleMessage(m, handlers);
    }
  }

  /** The last send raised: `broadcast` stops there. */
  predicate Raised(outcomes: seq<Result<bool>>)
  {
    outcomes != [] && outcomes[|outcomes| - 1].Raise?
  }

  /** What `broadcast` has done once it has gone through the neighbours of `order`: the ids it
      sent to and what each send gave. A neighbour in `exclude` is skipped, and after a send
      raises nothing more is sent. */
  function BroadcastRun(sender: string, neighbors: map<string, Address>, order: seq<string>, exclude: seq<string>,
                        msgType: string, data: Value, now: real, links: string -> Link,
                        encode: Value -> seq<byte>, decode: seq<byte> -> Option<Value>)
    : (run: (seq<string>, seq<Result<bool>>))
    requires forall id :: links(id).Connected? ==> WellFormed(links(id).reply)
  {
    if order == [] then ([], [])
    else
      var prev := BroadcastRun(sender, neighbors, order[..|order| - 1], exclude, msgType, data, now, links, encode, decode);
      var last := order[|order| - 1];
      if Raised(prev.1) || last in exclude then prev
      else (prev.0 + [last], prev.1 + [SendOutcome(sender, neighbors, last, msgType, data, now, links(last), encode, decode)])
  }

  /** The ids sent to are a prefix of the eligible neighbours in table order. */
  lemma {:induction false} BroadcastRunPrefix(sender: string, neighbors: map<string, Address>, order: seq<string>,
                                              exclude: seq<string>, msgType: string, data: Value, now: real,
                                              links: string -> Link, encode: Value -> seq<byte>,
                                              decode: seq<byte> -> Option<Value>)
    requires forall id :: links(id).Connected? ==> WellFormed(links(id).reply)
    ensures BroadcastRun(sender, neighbors, order, exclude, msgType, data, now, links, encode, decode).0
      <= Eligible(order, exclude)
  {
    if order != [] {
      var init := order[..|order| - 1];
      BroadcastRunPrefix(sender, neighbors, init, exclude, msgType, data, now, links, encode, decode);
      BroadcastRunStops(sender, neighbors, init, exclude, msgType, data, now, links, encode, decode);
    }
  }

  /** Each outcome is that of the send to the id at the same position. */
  lemma {:induction false} BroadcastRunSends(sender: string, neighbors: map<string, Address>, order: seq<string>,
                                             exclude: seq<string>, msgType: string, data: Value, now: real,
                                             links: string -> Link, encode: Value -> seq<byte>,
                                             decode: seq<byte> -> Option<Value>)
    requires forall id :: links(id).Connected? ==> WellFormed(links(id).reply)
    ensures var run := BroadcastRun(sender, neighbors, order, exclude, msgType, data, now, links, encode, decode);
      run.1 == SendsTo(sender, neighbors, run.0, msgType, data, now, links, encode, decode)
  {
    if order != [] {
      var init := order[..|order| - 1];
      var last := order[|order| - 1];
      BroadcastRunSends(sender, neighbors, init, exclude, msgType, data, now, links, encode, decode);
      var prev := BroadcastRun(sender, neighbors, init, exclude, msgType, data, now, links, encode, decode);
      if !(Raised(prev.1) || last in exclude) {
        assert (prev.0 + [last])[..|prev.0|] == prev.0;
      }
    }
  }

  /** Every send but the last returned normally, and unless the last one raised, every eligible
      neighbour was sent to. */
  lemma {:induction false} BroadcastRunStops(sender: string, neighbors: map<string, Address>, order: seq<string>,
                                             exclude: seq<string>, msgType: string, data: Value, now: real,
                                             links: string -> Link, encode: Value -> seq<byte>,
                                             decode: seq<byte> -> Option<Value>)
    requires forall id :: links(id).Connected? ==> WellFormed(links(id).reply)
    ensures var run := BroadcastRun(sender, neighbors, order, exclude, msgType, data, now, links, encode, decode);
      && |run.0| == |run.1|
      && (forall k :: 0 <= k < |run.1| - 1 ==> run.1[k].Ok?)
      && (run.0 == Eligible(order, exclude) || Raised(run.1))
  {
    if order != [] {
      BroadcastRunStops(sender, neighbors, order[..|order| - 1], exclude, msgType, data, now, links, encode, decode);
    }
  }

  /** Once a send has raised, the rest of the table changes nothing. */
  lemma BroadcastRunStuck(sender: string, neighbors: map<string, Address>, order: seq<string>, i: nat,
                          exclude: seq<string>, msgType: string, data: Value, now: real,
                          links: string -> Link, encode: Value -> seq<byte>, decode: seq<byte> -> Option<Value>)
    requires forall id :: links(id).Connected? ==> WellFormed(links(id).reply)
    requires i <= |order|
    requires Raised(BroadcastRun(sender, neighbors, order[..i], exclude, msgType, data, now, links, encode, decode).1)
    ensures BroadcastRun(sender, neighbors, order, exclude, msgType, data, now, links, encode, decode)
      == BroadcastRun(sender, neighbors, order[..i], exclude, msgType, data, now, links, encode, decode)
    decreases |order| - i
  {
    if i < |order| {
      assert order[..i + 1][..i] == order[..i];
      BroadcastRunStuck(sender, neighbors, order, i + 1, exclude, msgType, data, now, links, encode, decode);
    } else {
      assert order[..i] == order;
    }
  }

  /** Exactly the neighbours outside `exclude` are sent to. */
  lemma {:induction false} EligibleMembers(order: seq<string>, exclude: seq<string>)
    ensures forall id :: id in Eligible(order, exclude) <==> id in order && id !in exclude
  {
    if order != [] {
      EligibleMembers(order[..|order| - 1], exclude);
      assert order == order[..|order| - 1] + [order[|order| - 1]];
    }
  }

  /** Sending to one more neighbour, unless excluded, extends the list at the end. */
  lemma EligibleSnoc(order: seq<string>, id: string, exclude: seq<string>)
    ensures Eligible(order + [id], exclude) == Eligible(order, exclude) + (if id in exclude then [] else [id])
  {
    assert (order + [id])[..|order|] == order;
  }

  /** Whatever was sent to before the loop stopped is a prefix of the full list. */
  lemma EligiblePrefix(order: seq<string>, i: nat, exclude: seq<string>)
    requires i <= |order|
    ensures Eligible(order[..i], exclude) <= Eligible(order, exclude)
    decreases |order| - i
  {
    if i < |order| {
      EligiblePrefix(order, i + 1, exclude);
      assert order[..i + 1] == order[..i] + [order[i]];
      EligibleSnoc(order[..i], order[i], exclude);
    } else {
      assert order[..i] == order;
    }
  }

  /** A peer running the accept loop reads the frame and closes the connection without writing
      an acknowledgement, so a send to it never reports success. */
  lemma SendToAcceptLoopNeverSucceeds(sender: string, neighbors: map<string, Address>, target: string,
                                       msgType: string, data: Value, now: real,
                                       encode: Value -> seq<byte>, decode: seq<byte> -> Option<Value>)
    ensures SendOutcome(sender, neighbors, target, msgType, data, now, Connected([]), encode, decode) != Ok(true)
  {
  }

  /** End to end: the envelope `send` frames reaches the receiver's handler for its type with the
      sender's id and the payload unchanged, whenever the encoding round-trips and the first read
      sees the whole prefix. */
  lemma SendThenReceive<H>(sender: string, target: string, msgType: string, data: Value, now: real,
                           encode: Value -> seq<byte>, decode: seq<byte> -> Option<Value>,
                           handlers: map<string, H>, segs: Segments)
    requires sender != "" && msgType in handlers && msgType != "" && data != VNull
    requires var body := encode(Envelope(sender, target, msgType, data, now));
             |body| < FrameLimit && decode(body) == Some(Envelope(sender, target, msgType, data, now))
             && WellFormed(segs) && Flatten(segs) == EncodeFrame(body).value
    requires segs != [] && |segs[0]| >= 4
    ensures ReceiveOutcome(segs, decode, handlers) == Invoke(handlers[msgType], VStr(sender), data)
  {
    var body := encode(Envelope(sender, target, msgType, data, now));
    DecodeEncode(body, segs);
  }
}
