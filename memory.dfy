/** `LocalMemory` (ECN/core/memory.py): a bounded cache of recent task records and, per
    neighbour, what it declared and a window of its recent successes. */
module Memory {
  import opened Values
  import opened Lists
  import opened Numeric

  /** `deque(maxlen=20)`: how many outcomes are kept per neighbour. */
  const ScoreWindow: nat := 20

  /** `{"capabilities": ..., "last_seen": ..., "score": ...}` */
  datatype NeighborInfo = NeighborInfo(capabilities: seq<string>, lastSeen: int, score: real)

  /** All entries lie in [0, 1]. */
  predicate InUnit(scores: seq<real>)
  {
    forall v :: v in scores ==> 0.0 <= v <= 1.0
  }

  /** `sum(scores)`, added left to right. */
  function Sum(scores: seq<real>): real
  {
    if scores == [] then 0.0 else Sum(scores[..|scores| - 1]) + scores[|scores| - 1]
  }

  lemma {:induction false} SumInRange(scores: seq<real>)
    requires InUnit(scores)
    ensures 0.0 <= Sum(scores) <= |scores| as real
  {
    if scores != [] {
      var init := scores[..|scores| - 1];
      assert InUnit(init) by {
        forall v | v in init ensures v in scores {
          var i :| 0 <= i < |init| && init[i] == v;
          assert scores[i] == v;
        }
      }
      SumInRange(init);
      assert scores[|scores| - 1] in scores;
    }
  }

  /** `get_neighbor_score` on a window: the mean rounded to three decimals, or 0.5 when empty. */
  function MeanScore(scores: seq<real>): real
  {
    if scores == [] then 0.5 else Round3(Sum(scores) / |scores| as real)
  }

  /** The mean of a window of outcomes lies in [0, 1]. */
  lemma MeanScoreInUnit(scores: seq<real>)
    requires InUnit(scores)
    ensures 0.0 <= MeanScore(scores) <= 1.0
  {
    if scores != [] {
      SumInRange(scores);
      var n := |scores| as real;
      assert 0.0 <= Sum(scores) / n <= 1.0 by {
        assert Sum(scores) <= 1.0 * n;
      }
      Round3Unit(Sum(scores) / n);
    }
  }

  /** `list(cache)[-n:]`: the last `n` entries for positive `n`, all of them for `n == 0` (the
      slice starts at `-0`, that is at 0), and all but the first `-n` for negative `n`. */
  function RecentTasks(cache: seq<Dict>, n: int): (r: seq<Dict>)
    ensures n > 0 ==> r == cache[|cache| - (if n <= |cache| then n else |cache|)..]
    ensures n == 0 ==> r == cache
    ensures n < 0 ==> r == cache[(if -n <= |cache| then -n else |cache|)..]
  {
    SuffixFrom(cache, -n)
  }

  /** `n` copies of `c` add up to `n * c`. */
  lemma {:induction false} SumConstant(scores: seq<real>, c: real)
    requires forall v :: v in scores ==> v == c
    ensures Sum(scores) == |scores| as real * c
  {
    if scores != [] {
      var init := scores[..|scores| - 1];
      assert forall v :: v in init ==> v in scores;
      SumConstant(init, c);
      assert scores[|scores| - 1] in scores;
    }
  }

  /** A non-empty window of identical outcomes scores that outcome: 1.0 after only successes,
      0.0 after only failures. */
  lemma MeanScoreConstant(scores: seq<real>, c: real)
    requires scores != [] && (forall v :: v in scores ==> v == c)
    requires c == 0.0 || c == 1.0
    ensures MeanScore(scores) == c
  {
    SumConstant(scores, c);
    var n := |scores| as real;
    assert Sum(scores) / n == c;
    Round3Near(c);
    Round3Idempotent(c);
  }

  /** `{key: v, **d}`: `d` with `key` added, an entry of `d` for `key` winning. */
  function Stamp(d: Dict, key: string, v: Value): (r: Dict)
    ensures r.Keys == d.Keys + {key}
    ensures forall k :: k in d ==> r[k] == d[k]
    ensures key !in d ==> r[key] == v
  {
    if key in d then d else d[key := v]
  }

  /** The window of a neighbour, an absent one reading as the empty deque `defaultdict` makes. */
  function WindowOf(scores: map<string, seq<real>>, nodeId: string): seq<real>
  {
    if nodeId in scores then scores[nodeId] else []
  }

  /** `order` lists the keys of `data` from the first seen to the last, and every stored score is
      still the initial 0.5. */
  ghost predicate Listed(data: map<string, NeighborInfo>, order: seq<string>)
    decreases |order|
  {
    if order == [] then data == map[]
    else
      var id := order[|order| - 1];
      id in data && data[id].score == 0.5 && Listed(data - {id}, order[..|order| - 1])
  }

  /** What `Listed` means: `order` holds each key of `data` exactly once, and every stored
      score is 0.5. */
  lemma {:induction false} ListedFacts(data: map<string, NeighborInfo>, order: seq<string>)
    requires Listed(data, order)
    ensures NoDup(order)
    ensures forall id :: id in data <==> id in order
    ensures forall id :: id in data ==> data[id].score == 0.5
    decreases |order|
  {
    if order != [] {
      var id, init := order[|order| - 1], order[..|order| - 1];
      ListedFacts(data - {id}, init);
      assert order == init + [id];
      forall k | k in data ensures k in order && data[k].score == 0.5 {
        if k != id {
          assert k in data - {id};
        }
      }
    }
  }

  /** A first sighting goes to the end of the order. */
  lemma ListedInsert(data: map<string, NeighborInfo>, order: seq<string>, id: string, info: NeighborInfo)
    requires Listed(data, order) && id !in data && info.score == 0.5
    ensures Listed(data[id := info], order + [id])
  {
    assert (order + [id])[..|order|] == order;
    assert data[id := info] - {id} == data;
  }

  /** Updating a known neighbour with the same score keeps its place. */
  lemma {:induction false} ListedUpdate(data: map<string, NeighborInfo>, order: seq<string>, id: string, info: NeighborInfo)
    requires Listed(data, order) && id in data && info.score == 0.5
    ensures Listed(data[id := info], order)
    decreases |order|
  {
    var last, init := order[|order| - 1], order[..|order| - 1];
    if last == id {
      assert data[id := info] - {id} == data - {id};
    } else {
      assert id in data - {last};
      ListedUpdate(data - {last}, init, id, info);
      assert data[id := info] - {last} == (data - {last})[id := info];
    }
  }

  /** Every window holds at most `ScoreWindow` outcomes, each in [0, 1]. */
  predicate WindowsOk(scores: map<string, seq<real>>)
  {
    forall id :: id in scores ==> |scores[id]| <= ScoreWindow && InUnit(scores[id])
  }

  /** Recording an outcome in [0, 1] keeps every window well-formed. */
  lemma RecordKeepsWindows(scores: map<string, seq<real>>, nodeId: string, outcome: real)
    requires WindowsOk(scores) && 0.0 <= outcome <= 1.0
    ensures WindowsOk(scores[nodeId := AppendBounded(WindowOf(scores, nodeId), outcome, ScoreWindow)])
  {
    var w := WindowOf(scores, nodeId);
    AppendBoundedKeepsBound(w, outcome, ScoreWindow);
    AppendBoundedElements(w, outcome, ScoreWindow);
  }

  class LocalMemory {
    const taskLimit: nat
    /** Accepted by the constructor and not used anywhere. */
    const neighborLimit: int
    var taskCache: seq<Dict>
    var neighborData: map<string, NeighborInfo>
    /** The insertion order of `neighborData`'s keys. */
    var neighborOrder: seq<string>
    var neighborScores: map<string, seq<real>>

    ghost predicate Valid()
      reads this
    {
      && |taskCache| <= taskLimit
      && Listed(neighborData, neighborOrder)
      && WindowsOk(neighborScores)
    }

    /** `LocalMemory(task_limit, neighbor_limit)` */
    constructor(taskLimit: nat, neighborLimit: int)
      ensures this.taskLimit == taskLimit && this.neighborLimit == neighborLimit
      ensures taskCache == [] && neighborData == map[] && neighborOrder == [] && neighborScores == map[]
      ensures Valid()
    {
      this.taskLimit := taskLimit;
      this.neighborLimit := neighborLimit;
      taskCache := [];
      neighborData := map[];
      neighborOrder := [];
      neighborScores := map[];
    }

    /** `store_result(result)`: the result stamped with `now`, its own `timestamp` key winning. */
    method StoreResult(result: Dict, now: int)
      requires Valid()
      modifies this
      ensures taskCache == AppendBounded(old(taskCache), Stamp(result, "timestamp", VInt(now)), taskLimit)
      ensures neighborData == old(neighborData) && neighborOrder == old(neighborOrder)
      ensures neighborScores == old(neighborScores)
      ensures Valid()
    {
      var entry := Stamp(result, "timestamp", VInt(now));
      var cache := AppendBounded(taskCache, entry, taskLimit);
      taskCache := cache;
    }

    /** `cache_task(task_id, task_data)`: a `task_id` key inside `task_data` wins. */
    method CacheTask(taskId: string, taskData: Dict)
      requires Valid()
      modifies this
      ensures taskCache == AppendBounded(old(taskCache), Stamp(taskData, "task_id", VStr(taskId)), taskLimit)
      ensures neighborData == old(neighborData) && neighborOrder == old(neighborOrder)
      ensures neighborScores == old(neighborScores)
      ensures Valid()
    {
      var entry := Stamp(taskData, "task_id", VStr(taskId));
      var cache := AppendBounded(taskCache, entry, taskLimit);
      taskCache := cache;
    }

    /** `get_recent_tasks(n)` */
    method GetRecentTasks(n: int) returns (tasks: seq<Dict>)
      ensures tasks == RecentTasks(taskCache, n)
    {
      tasks := SuffixFrom(taskCache, -n);
    }

    /** `update_neighbor(node_id, capabilities, success)`, with `int(time.time())` as `now`. */
    method UpdateNeighbor(nodeId: string, capabilities: seq<string>, success: bool, now: int)
      requires Valid()
      modifies this
      ensures nodeId !in old(neighborData) ==>
                neighborData == old(neighborData)[nodeId := NeighborInfo(capabilities, now, 0.5)]
                && neighborOrder == old(neighborOrder) + [nodeId]
      ensures nodeId in old(neighborData) ==>
                neighborData == old(neighborData)[nodeId := old(neighborData)[nodeId].(capabilities := capabilities, lastSeen := now)]
                && neighborOrder == old(neighborOrder)
      ensures neighborScores == old(neighborScores)[nodeId := AppendBounded(WindowOf(old(neighborScores), nodeId), if success then 1.0 else 0.0, ScoreWindow)]
      ensures taskCache == old(taskCache)
      ensures Valid()
    {
      var data, order := neighborData, neighborOrder;
      if nodeId !in data {
        ListedInsert(data, order, nodeId, NeighborInfo(capabilities, now, 0.5));
        data, order := data[nodeId := NeighborInfo(capabilities, now, 0.5)], order + [nodeId];
      } else {
        ListedFacts(data, order);
        ListedUpdate(data, order, nodeId, data[nodeId].(capabilities := capabilities, lastSeen := now));
        data := data[nodeId := data[nodeId].(capabilities := capabilities, lastSeen := now)];
      }
      var outcome := if success then 1.0 else 0.0;
      RecordKeepsWindows(neighborScores, nodeId, outcome);
      var scores := neighborScores[nodeId := AppendBounded(WindowOf(neighborScores, nodeId), outcome, ScoreWindow)];
      assert WindowsOk(scores);
      neighborData, neighborOrder, neighborScores := data, order, scores;
    }

    /** The `score` stored with a neighbour is the 0.5 it was created with: no method updates it. */
    lemma StoredScoreIsInitial(nodeId: string)
      requires Valid() && nodeId in neighborData
      ensures neighborData[nodeId].score == 0.5
    {
      ListedFacts(neighborData, neighborOrder);
    }

    /** `get_neighbors()`: every neighbour seen, once each, in first-seen order. */
    method GetNeighbors() returns (ids: seq<string>)
      requires Valid()
      ensures NoDup(ids)
      ensures forall id :: id in ids <==> id in neighborData
      ensures ids == neighborOrder
    {
      ListedFacts(neighborData, neighborOrder);
      ids := neighborOrder;
    }

    /** `get_neighbor_score(node_id)`: reading an unknown neighbour records an empty window. */
    method GetNeighborScore(nodeId: string) returns (score: real)
      requires Valid()
      modifies this
      ensures score == MeanScore(WindowOf(old(neighborScores), nodeId))
      ensures 0.0 <= score <= 1.0
      ensures nodeId !in old(neighborScores) ==> score == 0.5
      ensures neighborScores == old(neighborScores)[nodeId := WindowOf(old(neighborScores), nodeId)]
      ensures taskCache == old(taskCache) && neighborData == old(neighborData) && neighborOrder == old(neighborOrder)
      ensures Valid()
    {
      var w := WindowOf(neighborScores, nodeId);
      neighborScores := neighborScores[nodeId := w];
      MeanScoreInUnit(w);
      score := MeanScore(w);
    }
  }
}
