/** Discovery beacons (`protocol/beacon.py`). */
module Beacons {
  import opened Values

  /** A beacon. Its fields hold whatever `from_dict` found in the dictionary, hence `Value`. */
  datatype Beacon = Beacon(beaconId: Value, sender: Value, taskId: Value, requirement: Value,
                           ttl: Value, timestamp: Value)

  /** `Beacon(sender, requirement, task_id=None, ttl=2)` with the fresh uuid and the clock given.
      A missing or empty task id falls back to the new beacon id. */
  function NewBeacon(sender: Value, requirement: Value, uuid: string, now: int,
                     taskId: Value := VNull, ttl: Value := VInt(2)): (b: Beacon)
    ensures b.beaconId == VStr(uuid) && b.timestamp == VInt(now)
    ensures b.taskId == (if Truthy(taskId) then taskId else VStr(uuid))
    ensures b.sender == sender && b.requirement == requirement && b.ttl == ttl
  {
    Beacon(VStr(uuid), sender, if Truthy(taskId) then taskId else VStr(uuid), requirement, ttl, VInt(now))
  }

  /** `to_dict` */
  function ToDict(b: Beacon): (d: Dict)
    ensures d.Keys == {"beacon_id", "sender", "task_id", "requirement", "ttl", "timestamp"}
  {
    map["beacon_id" := b.beaconId, "sender" := b.sender, "task_id" := b.taskId,
        "requirement" := b.requirement, "ttl" := b.ttl, "timestamp" := b.timestamp]
  }

  /** `from_dict`. The constructor draws a uuid and reads the clock (`uuid1`, `now1`), then the
      defaults of the two `get` calls draw a second uuid and read the clock again (`uuid2`,
      `now2`), which are used only when the keys are missing. */
  function FromDict(d: Dict, uuid1: string, now1: int, uuid2: string, now2: int): (b: Beacon)
    ensures b.sender == Get(d, "sender", VStr("unknown"))
    ensures b.requirement == Get(d, "requirement", VStr(""))
    ensures b.ttl == Get(d, "ttl", VInt(2))
    ensures b.beaconId == Get(d, "beacon_id", VStr(uuid2))
    ensures b.timestamp == Get(d, "timestamp", VInt(now2))
    ensures b.taskId == if Truthy(Get(d, "task_id", VNull)) then d["task_id"] else VStr(uuid1)
  {
    var b := NewBeacon(Get(d, "sender", VStr("unknown")), Get(d, "requirement", VStr("")), uuid1, now1,
                       Get(d, "task_id", VNull), Get(d, "ttl", VInt(2)));
    b.(beaconId := Get(d, "beacon_id", VStr(uuid2)), timestamp := Get(d, "timestamp", VInt(now2)))
  }

  /** Round trip: a beacon whose task id is truthy (every beacon the constructor builds, since a
      uuid is never empty) comes back unchanged in all six fields. */
  lemma FromToDict(b: Beacon, uuid1: string, now1: int, uuid2: string, now2: int)
    requires Truthy(b.taskId)
    ensures FromDict(ToDict(b), uuid1, now1, uuid2, now2) == b
  {
  }

  /** Every beacon the constructor builds has a truthy task id, so it survives the round trip. */
  lemma NewBeaconRoundTrips(sender: Value, requirement: Value, uuid: string, now: int, taskId: Value,
                            ttl: Value, uuid1: string, now1: int, uuid2: string, now2: int)
    requires uuid != ""
    ensures var b := NewBeacon(sender, requirement, uuid, now, taskId, ttl);
            FromDict(ToDict(b), uuid1, now1, uuid2, now2) == b
  {
    FromToDict(NewBeacon(sender, requirement, uuid, now, taskId, ttl), uuid1, now1, uuid2, now2);
  }

  /** A dictionary with a beacon id but no task id decodes to a task id that is a fresh uuid, not
      the restored beacon id (the link "task id defaults to beacon id" is lost). */
  lemma MissingTaskIdIsFresh(d: Dict, uuid1: string, now1: int, uuid2: string, now2: int)
    requires "beacon_id" in d && "task_id" !in d
    requires d["beacon_id"] != VStr(uuid1)
    ensures FromDict(d, uuid1, now1, uuid2, now2).taskId == VStr(uuid1)
    ensures FromDict(d, uuid1, now1, uuid2, now2).taskId != FromDict(d, uuid1, now1, uuid2, now2).beaconId
  {
  }
}
