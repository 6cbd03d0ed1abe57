/** The fallback coordinator (`SoftCoordinator`, agents/soft_coordinator.py): when nobody answers
    a beacon it suggests up to three known agents whose capabilities fit, best reputation first. */
module SoftCoordinators {
  import opened Values
  import opened Lists
  import opened Ranking
  import Beacons
  import Responses
  import TaskContracts

  /** An entry of `known_agents`: its `id` and its `capabilities`. */
  datatype KnownAgent = KnownAgent(id: string, capabilities: seq<string>)

  /** The `(id, score)` pairs of the agents that pass the capability filter, in `known_agents`
      order. */
  function Matches(agents: seq<KnownAgent>, requirement: Value, fits: (Value, seq<string>) -> bool,
                   scoreOf: string -> real): (m: seq<Scored>)
    ensures |m| <= |agents|
    decreases |agents|
  {
    if agents == [] then []
    else
      var init := Matches(agents[..|agents| - 1], requirement, fits, scoreOf);
      var a := agents[|agents| - 1];
      if fits(requirement, a.capabilities) then init + [(a.id, scoreOf(a.id))] else init
  }

  /** Exactly the agents that pass the filter are matched, each with its reputation score. */
  lemma {:induction false} MatchesSpec(agents: seq<KnownAgent>, requirement: Value, fits: (Value, seq<string>) -> bool,
                                       scoreOf: string -> real)
    ensures forall k :: 0 <= k < |Matches(agents, requirement, fits, scoreOf)| ==>
      exists i :: 0 <= i < |agents| && fits(requirement, agents[i].capabilities)
                  && Matches(agents, requirement, fits, scoreOf)[k] == (agents[i].id, scoreOf(agents[i].id))
    ensures forall i :: 0 <= i < |agents| && fits(requirement, agents[i].capabilities) ==>
      (agents[i].id, scoreOf(agents[i].id)) in Matches(agents, requirement, fits, scoreOf)
    decreases |agents|
  {
    if agents != [] {
      var init := agents[..|agents| - 1];
      MatchesSpec(init, requirement, fits, scoreOf);
      var m0 := Matches(init, requirement, fits, scoreOf);
      var m := Matches(agents, requirement, fits, scoreOf);
      var last := agents[|agents| - 1];
      assert m == if fits(requirement, last.capabilities) then m0 + [(last.id, scoreOf(last.id))] else m0;
      forall k | 0 <= k < |m|
        ensures exists i :: 0 <= i < |agents| && fits(requirement, agents[i].capabilities)
                            && m[k] == (agents[i].id, scoreOf(agents[i].id))
      {
        if k < |m0| {
          assert exists i :: 0 <= i < |init| && fits(requirement, init[i].capabilities)
                             && Matches(init, requirement, fits, scoreOf)[k] == (init[i].id, scoreOf(init[i].id));
          var i :| 0 <= i < |init| && fits(requirement, init[i].capabilities) && m0[k] == (init[i].id, scoreOf(init[i].id));
          assert agents[i] == init[i] && m[k] == m0[k];
        } else {
          assert m[k] == (last.id, scoreOf(last.id)) && fits(requirement, last.capabilities);
        }
      }
      forall i | 0 <= i < |agents| && fits(requirement, agents[i].capabilities)
        ensures (agents[i].id, scoreOf(agents[i].id)) in m
      {
        if i < |init| {
          assert agents[i] == init[i];
        }
      }
    } else {
      assert Matches(agents, requirement, fits, scoreOf) == [];
    }
  }

  /** The agents suggested: the first three of the matches sorted by descending score. */
  function Top(m: seq<Scored>): seq<Scored>
  {
    Prefix(SortDesc(m), 3)
  }

  /** At most three suggestions, best first, drawn from the matches; no match left out scores
      above a suggested one, and matches of equal score keep their order. */
  lemma {:induction false} TopSpec(m: seq<Scored>)
    ensures |Top(m)| == if |m| <= 3 then |m| else 3
    ensures SortedDesc(Top(m))
    ensures multiset(Top(m)) <= multiset(m)
    ensures forall k, j :: |Top(m)| <= k < |m| && 0 <= j < |Top(m)| ==> SortDesc(m)[k].1 <= Top(m)[j].1
    ensures forall v :: WithScore(SortDesc(m), v) == WithScore(m, v)
  {
    SortDescSpec(m);
    PrefixOfSorted(SortDesc(m), 3);
  }

  /** The first `n` pairs of a sorted list are sorted, drawn from it, and none of the pairs left
      out scores above them. */
  lemma {:induction false} PrefixOfSorted(s: seq<Scored>, n: nat)
    requires SortedDesc(s)
    ensures SortedDesc(Prefix(s, n))
    ensures multiset(Prefix(s, n)) <= multiset(s)
    ensures forall k, j :: |Prefix(s, n)| <= k < |s| && 0 <= j < |Prefix(s, n)| ==> s[k].1 <= Prefix(s, n)[j].1
  {
    var t := Prefix(s, n);
    assert s == t + s[|t|..];
    assert multiset(s) == multiset(t) + multiset(s[|t|..]);
    forall k, j | |t| <= k < |s| && 0 <= j < |t|
      ensures s[k].1 <= t[j].1
    {
      assert t[j] == s[j];
    }
  }

  /** `BeaconResponse(agent_id, beacon.requirement)` for each suggested agent: the requirement
      takes the place of the task id; `uuids(i)` is the fresh id of the i-th response. */
  function Suggestions(top: seq<Scored>, requirement: Value, uuids: nat -> string, now: int)
    : (rs: seq<Responses.BeaconResponse>)
    ensures |rs| == |top|
    ensures forall i :: 0 <= i < |rs| ==> rs[i] == Responses.NewResponse(VStr(top[i].0), requirement, uuids(i), now)
  {
    seq(|top|, i requires 0 <= i < |top| => Responses.NewResponse(VStr(top[i].0), requirement, uuids(i), now))
  }

  class SoftCoordinator {
    const nodeId: string
    const knownAgents: seq<KnownAgent>

    constructor (nodeId: string, knownAgents: seq<KnownAgent>)
      ensures this.nodeId == nodeId && this.knownAgents == knownAgents
    {
      this.nodeId := nodeId;
      this.knownAgents := knownAgents;
    }

    /** `receive_beacon(beacon)`, with `match_capability` as `fits` and the reputation lookup as
        `scoreOf`: the filtering loop collects the matches, which are then sorted and cut to three. */
    method ReceiveBeacon(beacon: Beacons.Beacon, uuids: nat -> string, now: int,
                         fits: (Value, seq<string>) -> bool, scoreOf: string -> real)
      returns (responses: seq<Responses.BeaconResponse>)
      ensures responses == Suggestions(Top(Matches(knownAgents, beacon.requirement, fits, scoreOf)), beacon.requirement, uuids, now)
      ensures |responses| <= 3
      ensures forall i :: 0 <= i < |responses| ==> responses[i].taskId == beacon.requirement
    {
      var matches := [];
      var i := 0;
      while i < |knownAgents|
        invariant 0 <= i <= |knownAgents|
        invariant matches == Matches(knownAgents[..i], beacon.requirement, fits, scoreOf)
      {
        var agent := knownAgents[i];
        assert knownAgents[..i + 1][..i] == knownAgents[..i];
        if fits(beacon.requirement, agent.capabilities) {
          var score := scoreOf(agent.id);
          matches := matches + [(agent.id, score)];
        }
        i := i + 1;
      }
      assert knownAgents[..i] == knownAgents;
      responses := Suggestions(Top(matches), beacon.requirement, uuids, now);
      TopSpec(matches);
    }

    /** `delegate_subtask(subtask)`: the suggestions for a beacon built from the subtask's id and
        requirement with ttl 2. */
    method DelegateSubtask(subtask: TaskContracts.SubTask, uuid: string, uuids: nat -> string, now: int,
                           fits: (Value, seq<string>) -> bool, scoreOf: string -> real)
      returns (responses: seq<Responses.BeaconResponse>)
      ensures var beacon := Beacons.NewBeacon(VStr(nodeId), subtask.requirement, uuid, now, subtask.id, VInt(2));
        responses == Suggestions(Top(Matches(knownAgents, beacon.requirement, fits, scoreOf)), beacon.requirement, uuids, now)
      ensures |responses| <= 3
      ensures forall i :: 0 <= i < |responses| ==> responses[i].taskId == subtask.requirement
    {
      var beacon := Beacons.NewBeacon(VStr(nodeId), subtask.requirement, uuid, now, subtask.id, VInt(2));
      responses := ReceiveBeacon(beacon, uuids, now, fits, scoreOf);
    }
  }
}
