/** LoRA patch descriptors shared by gossip (`ECN/protocol/lora_patch.py`). */
module LoraPatches {
  import opened Values

  datatype LoRAPatch = LoRAPatch(patchId: Value, sourceId: Value, patchPath: Value,
                                 layerNames: Value, timestamp: Value)

  function NewPatch(sourceId: Value, patchPath: Value, layerNames: Value, uuid: string, now: int): (p: LoRAPatch)
    ensures p.patchId == VStr(uuid) && p.timestamp == VInt(now)
    ensures p.sourceId == sourceId && p.patchPath == patchPath && p.layerNames == layerNames
  {
    LoRAPatch(VStr(uuid), sourceId, patchPath, layerNames, VInt(now))
  }

  function ToDict(p: LoRAPatch): (d: Dict)
    ensures d.Keys == {"patch_id", "source_id", "patch_path", "layer_names", "timestamp"}
    ensures d["patch_id"] == p.patchId
  {
    map["patch_id" := p.patchId, "source_id" := p.sourceId, "patch_path" := p.patchPath,
        "layer_names" := p.layerNames, "timestamp" := p.timestamp]
  }

  /** `from_dict` reads only the three payload keys (defaults "unknown", "" and `[]`); the
      patch id and the timestamp are drawn afresh and never read from the dictionary. */
  function FromDict(d: Dict, uuid: string, now: int): (p: LoRAPatch)
    ensures p.sourceId == Get(d, "source_id", VStr("unknown"))
    ensures p.patchPath == Get(d, "patch_path", VStr(""))
    ensures p.layerNames == Get(d, "layer_names", VList([]))
    ensures p.patchId == VStr(uuid) && p.timestamp == VInt(now)
  {
    NewPatch(Get(d, "source_id", VStr("unknown")), Get(d, "patch_path", VStr("")),
             Get(d, "layer_names", VList([])), uuid, now)
  }

  /** Round trip: source, path and layer names survive; id and timestamp do not. */
  lemma RoundTrip(p: LoRAPatch, uuid: string, now: int)
    ensures FromDict(ToDict(p), uuid, now) == p.(patchId := VStr(uuid), timestamp := VInt(now))
  {
  }

  /** Decoding the same dictionary twice, with two different uuids, gives two different patch
      ids — even when the dictionary carries a `patch_id` of its own. */
  lemma DecodeTwiceDiffers(d: Dict, uuid1: string, uuid2: string, now1: int, now2: int)
    requires uuid1 != uuid2
    ensures FromDict(d, uuid1, now1).patchId != FromDict(d, uuid2, now2).patchId
    ensures "patch_id" in d && d["patch_id"] != VStr(uuid1) ==> FromDict(d, uuid1, now1).patchId != d["patch_id"]
  {
  }
}
