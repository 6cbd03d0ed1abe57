/** Replies to a beacon (`protocol/response.py`). */
module Responses {
  import opened Wrappers
  import opened Values
  import opened Numeric

  /** A beacon response; the two scores are numbers rounded to three decimals. */
  datatype BeaconResponse = BeaconResponse(responseId: Value, responderId: Value, taskId: Value,
                                           matchScore: real, estimateCost: real, timestamp: Value)

  /** Both scores are multiples of a thousandth, as every constructed response's are. */
  predicate Rounded(r: BeaconResponse)
  {
    Round3(r.matchScore) == r.matchScore && Round3(r.estimateCost) == r.estimateCost
  }

  /** `BeaconResponse(responder_id, task_id, match_score=1.0, estimate_cost=1.0)`, with the
      fresh uuid and the clock given. */
  function NewResponse(responderId: Value, taskId: Value, uuid: string, now: int,
                       matchScore: real := 1.0, estimateCost: real := 1.0): (r: BeaconResponse)
    ensures Rounded(r)
    ensures r.responseId == VStr(uuid) && r.timestamp == VInt(now)
    ensures r.responderId == responderId && r.taskId == taskId
    ensures r.matchScore - 0.0005 <= matchScore < r.matchScore + 0.0005
    ensures r.estimateCost - 0.0005 <= estimateCost < r.estimateCost + 0.0005
    ensures 0.0 <= matchScore <= 1.0 ==> 0.0 <= r.matchScore <= 1.0
  {
    Round3Idempotent(matchScore);
    Round3Idempotent(estimateCost);
    Round3Near(matchScore);
    Round3Near(estimateCost);
    var r := BeaconResponse(VStr(uuid), responderId, taskId, Round3(matchScore), Round3(estimateCost), VInt(now));
    if 0.0 <= matchScore <= 1.0 then Round3Unit(matchScore); r else r
  }

  /** `to_dict` */
  function ToDict(r: BeaconResponse): (d: Dict)
    ensures d.Keys == {"response_id", "responder_id", "task_id", "match_score", "estimate_cost", "timestamp"}
    ensures d["match_score"] == VReal(r.matchScore) && d["estimate_cost"] == VReal(r.estimateCost)
  {
    map["response_id" := r.responseId, "responder_id" := r.responderId, "task_id" := r.taskId,
        "match_score" := VReal(r.matchScore), "estimate_cost" := VReal(r.estimateCost),
        "timestamp" := r.timestamp]
  }

  /** `from_dict`: `round` raises a TypeError on a score that is not a number; the defaults are
      responder "unknown", task id `[]` and scores 1.0. `uuid1`/`now1` are drawn by the
      constructor, `uuid2`/`now2` by the two defaults evaluated afterwards. */
  function FromDict(d: Dict, uuid1: string, now1: int, uuid2: string, now2: int): (res: Result<BeaconResponse>)
    ensures res.Raise? <==> AsNumber(Get(d, "match_score", VReal(1.0))).None?
                            || AsNumber(Get(d, "estimate_cost", VReal(1.0))).None?
    ensures res.Raise? ==> res.exc == TypeError
    ensures res.Ok? ==> Rounded(res.value)
    ensures res.Ok? ==> res.value.responderId == Get(d, "responder_id", VStr("unknown"))
    ensures res.Ok? ==> res.value.taskId == Get(d, "task_id", VList([]))
    ensures res.Ok? ==> res.value.responseId == Get(d, "response_id", VStr(uuid2))
    ensures res.Ok? ==> res.value.timestamp == Get(d, "timestamp", VInt(now2))
  {
    match (AsNumber(Get(d, "match_score", VReal(1.0))), AsNumber(Get(d, "estimate_cost", VReal(1.0))))
    case (Some(m), Some(c)) =>
      var r := NewResponse(Get(d, "responder_id", VStr("unknown")), Get(d, "task_id", VList([])), uuid1, now1, m, c);
      Ok(r.(responseId := Get(d, "response_id", VStr(uuid2)), timestamp := Get(d, "timestamp", VInt(now2))))
    case _ => Raise(TypeError)
  }

  /** Round trip: a response with rounded scores (every constructed one) comes back unchanged. */
  lemma FromToDict(r: BeaconResponse, uuid1: string, now1: int, uuid2: string, now2: int)
    requires Rounded(r)
    ensures FromDict(ToDict(r), uuid1, now1, uuid2, now2) == Ok(r)
  {
    var d := ToDict(r);
    assert AsNumber(d["match_score"]) == Some(r.matchScore);
    assert AsNumber(d["estimate_cost"]) == Some(r.estimateCost);
  }

  /** Decoding an empty dictionary yields the documented defaults. */
  lemma EmptyDictDefaults(uuid1: string, now1: int, uuid2: string, now2: int)
    ensures FromDict(map[], uuid1, now1, uuid2, now2)
         == Ok(BeaconResponse(VStr(uuid2), VStr("unknown"), VList([]), 1.0, 1.0, VInt(now2)))
  {
    assert Round3(1.0) == 1.0;
  }
}
