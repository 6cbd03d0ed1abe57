/** Plan DAGs of named steps (`models/task_utils.py`). */
module TaskUtils {
  import opened Wrappers
  import opened Values

  datatype TaskStep = TaskStep(id: Value, desc: Value)

  function StepToDict(s: TaskStep): (d: Dict)
    ensures d.Keys == {"id", "desc"} && d["id"] == s.id && d["desc"] == s.desc
  {
    map["id" := s.id, "desc" := s.desc]
  }

  datatype TaskDAG = TaskDAG(steps: seq<TaskStep>, dependencies: Value)

  const EmptyDAG := TaskDAG([], VList([]))

  function StepDicts(ss: seq<TaskStep>): (vs: seq<Value>)
    ensures |vs| == |ss|
    ensures forall i :: 0 <= i < |ss| ==> vs[i] == VDict(StepToDict(ss[i]))
  {
    if ss == [] then [] else [VDict(StepToDict(ss[0]))] + StepDicts(ss[1..])
  }

  function DagToDict(g: TaskDAG): (d: Dict)
    ensures d.Keys == {"steps", "dependencies"}
    ensures d["steps"].VList? && |d["steps"].items| == |g.steps|
    ensures d["dependencies"] == g.dependencies
  {
    map["steps" := VList(StepDicts(g.steps)), "dependencies" := g.dependencies]
  }

  /** `TaskStep(s["id"], s["desc"])`: a dict lacking a key raises KeyError, anything else
      indexed by a string raises TypeError. */
  function StepOf(v: Value): (r: Result<TaskStep>)
    ensures r.Ok? <==> v.VDict? && "id" in v.fields && "desc" in v.fields
    ensures r.Ok? ==> r.value == TaskStep(v.fields["id"], v.fields["desc"])
  {
    match v
    case VDict(m) =>
      if "id" !in m then Raise(KeyError("id"))
      else if "desc" !in m then Raise(KeyError("desc"))
      else Ok(TaskStep(m["id"], m["desc"]))
    case _ => Raise(TypeError)
  }

  function StepsOfItems(xs: seq<Value>): (r: Result<seq<TaskStep>>)
    ensures r.Ok? <==> forall i :: 0 <= i < |xs| ==> StepOf(xs[i]).Ok?
    ensures r.Ok? ==> |r.value| == |xs| && forall i :: 0 <= i < |xs| ==> Ok(r.value[i]) == StepOf(xs[i])
  {
    if xs == [] then Ok([])
    else match StepOf(xs[0])
      case Raise(e) => Raise(e)
      case Ok(s) =>
        (match StepsOfItems(xs[1..])
         case Ok(rest) => Ok([s] + rest)
         case Raise(e) => Raise(e))
  }

  /** Iterating the `steps` value: a dict yields string keys, which cannot be indexed by "id". */
  function StepsOf(v: Value): (r: Result<seq<TaskStep>>)
    ensures v.VList? ==> r == StepsOfItems(v.items)
  {
    match Iterate(v)
    case Items(xs) => StepsOfItems(xs)
    case KeysOf(m) => if m == map[] then Ok([]) else Raise(TypeError)
    case NotIterable => Raise(TypeError)
  }

  /** `from_dict`: missing `steps` and `dependencies` are empty lists. */
  function DagFromDict(d: Dict): (r: Result<TaskDAG>)
    ensures "steps" !in d ==> r == Ok(TaskDAG([], Get(d, "dependencies", VList([]))))
    ensures r.Ok? <==> StepsOf(Get(d, "steps", VList([]))).Ok?
    ensures r.Ok? ==> r.value.dependencies == Get(d, "dependencies", VList([]))
  {
    match StepsOf(Get(d, "steps", VList([])))
    case Ok(ss) => Ok(TaskDAG(ss, Get(d, "dependencies", VList([]))))
    case Raise(e) => Raise(e)
  }

  /** `from_structure`: any exception of `from_dict` gives the empty DAG. */
  function DagFromStructure(raw: Value): (g: TaskDAG)
    ensures raw.VDict? && DagFromDict(raw.fields).Ok? ==> g == DagFromDict(raw.fields).value
    ensures !(raw.VDict? && DagFromDict(raw.fields).Ok?) ==> g == EmptyDAG
  {
    if raw.VDict? then
      match DagFromDict(raw.fields)
      case Ok(g) => g
      case Raise(_) => EmptyDAG
    else EmptyDAG
  }

  lemma {:induction false} StepsOfStepDicts(ss: seq<TaskStep>)
    ensures StepsOfItems(StepDicts(ss)) == Ok(ss)
  {
    if ss != [] {
      StepsOfStepDicts(ss[1..]);
      assert StepDicts(ss)[1..] == StepDicts(ss[1..]);
      assert [ss[0]] + ss[1..] == ss;
    }
  }

  /** Round trip: order, ids, descriptions and dependencies survive. */
  lemma DagRoundTrip(g: TaskDAG)
    ensures DagFromDict(DagToDict(g)) == Ok(g)
    ensures DagFromStructure(VDict(DagToDict(g))) == g
  {
    StepsOfStepDicts(g.steps);
  }

  /** A step without "id" or "desc" makes `from_structure` return the empty DAG. */
  lemma IncompleteStepGivesEmptyDAG(d: Dict, i: nat)
    requires "steps" in d && d["steps"].VList? && i < |d["steps"].items|
    requires d["steps"].items[i].VDict?
    requires "id" !in d["steps"].items[i].fields || "desc" !in d["steps"].items[i].fields
    ensures DagFromStructure(VDict(d)) == EmptyDAG
  {
    assert !StepOf(d["steps"].items[i]).Ok?;
  }

  function StepDict(id: string, desc: string): Value
  {
    VDict(map["id" := VStr(id), "desc" := VStr(desc)])
  }

  function Pair(a: string, b: string): Value
  {
    VList([VStr(a), VStr(b)])
  }

  /** The sample plan of the module's example: four steps and a chain of dependencies. */
  const Sample: Dict := map[
    "steps" := VList([StepDict("1", "Read the input array"), StepDict("2", "Choose pivot"),
                      StepDict("3", "Partition the array"), StepDict("4", "Recurse on subarrays")]),
    "dependencies" := VList([Pair("1", "2"), Pair("2", "3"), Pair("3", "4")])]

  /** The sample decodes to four steps in the given order with the chain 1 -> 2 -> 3 -> 4. */
  lemma SampleDecodes()
    ensures DagFromDict(Sample).Ok?
    ensures var g := DagFromDict(Sample).value;
            |g.steps| == 4
            && g.steps[0] == TaskStep(VStr("1"), VStr("Read the input array"))
            && g.steps[1] == TaskStep(VStr("2"), VStr("Choose pivot"))
            && g.steps[2] == TaskStep(VStr("3"), VStr("Partition the array"))
            && g.steps[3] == TaskStep(VStr("4"), VStr("Recurse on subarrays"))
            && g.dependencies == VList([Pair("1", "2"), Pair("2", "3"), Pair("3", "4")])
  {
    var xs := Sample["steps"].items;
    assert forall i :: 0 <= i < |xs| ==> StepOf(xs[i]).Ok?;
  }
}
