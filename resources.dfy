/**
 * Agent resource helpers (tools/resources.py): the inventory record of an
 * agent found by id, and energy consumption with the dead-battery flip.
 */
module Resources {
  import opened Wrappers
  import opened JsonData

  /**
   * A simulation agent with the attributes the helpers read and write; an
   * attribute the agent does not have is `None`. The id is kept as its
   * `str()` text, which is all the lookup compares.
   */
  class Agent {
    var uniqueId: string
    var battery: Option<Json>
    var energy: Option<int>
    var water: Option<Json>
    var tools: Option<Json>
    var carrying: Option<Json>
    var status: Option<string>

    constructor (uniqueId: string, energy: Option<int>)
      ensures this.uniqueId == uniqueId && this.energy == energy
      ensures battery == None && water == None && tools == None && carrying == None && status == None
    {
      this.uniqueId := uniqueId;
      this.energy := energy;
      battery, water, tools, carrying, status := None, None, None, None, None;
    }
  }

  const DeadBattery: string := "dead_battery"

  /** `max(0, getattr(agent, "energy", 0) - cost)`. */
  function EnergyAfter(energy: Option<int>, cost: int): (e: int)
    ensures e >= 0 && e >= energy.GetOr(0) - cost
    ensures e == 0 || e == energy.GetOr(0) - cost
  {
    var left := energy.GetOr(0) - cost;
    if left > 0 then left else 0
  }

  /** A non-negative cost never raises a non-negative energy. */
  lemma EnergyNeverIncreases(energy: Option<int>, cost: int)
    requires cost >= 0 && energy.GetOr(0) >= 0
    ensures EnergyAfter(energy, cost) <= energy.GetOr(0)
  {
  }

  /** The battery runs flat exactly when the cost reaches what is left. */
  lemma DepletedIff(energy: Option<int>, cost: int)
    ensures EnergyAfter(energy, cost) == 0 <==> energy.GetOr(0) <= cost
  {
  }

  /** Paying two non-negative costs one after the other is paying their sum. */
  lemma ConsumptionComposes(energy: Option<int>, c1: int, c2: int)
    requires c1 >= 0 && c2 >= 0
    ensures EnergyAfter(Some(EnergyAfter(energy, c1)), c2) == EnergyAfter(energy, c1 + c2)
  {
  }

  /** The status after a consumption: flipped to dead exactly when the new energy is 0. */
  function StatusAfter(status: Option<string>, energy: int): (r: Option<string>)
    ensures energy == 0 ==> r == Some(DeadBattery)
    ensures energy != 0 ==> r == status
  {
    if energy == 0 then Some(DeadBattery) else status
  }

  /** `consume_energy(agent, cost)`: clamp the energy at 0 and mark a flat battery; nothing else changes. */
  method ConsumeEnergy(agent: Agent, cost: int)
    modifies agent
    ensures agent.energy == Some(EnergyAfter(old(agent.energy), cost))
    ensures agent.status == StatusAfter(old(agent.status), EnergyAfter(old(agent.energy), cost))
    ensures agent.uniqueId == old(agent.uniqueId) && agent.battery == old(agent.battery)
    ensures agent.water == old(agent.water) && agent.tools == old(agent.tools)
    ensures agent.carrying == old(agent.carrying)
  {
    var left := agent.energy.GetOr(0) - cost;
    agent.energy := Some(if left > 0 then left else 0);
    if agent.energy == Some(0) {
      agent.status := Some(DeadBattery);
    }
  }

  /** A flat battery stays flat and dead under any further non-negative cost. */
  lemma DeadStaysDead(status: Option<string>, cost: int)
    requires cost >= 0
    ensures EnergyAfter(Some(0), cost) == 0
    ensures StatusAfter(status, EnergyAfter(Some(0), cost)) == Some(DeadBattery)
  {
  }

  /** The answer for an id no agent carries. */
  const NotFound: Json := JObject(map["status" := JString("error"), "reason" := JString("agent_not_found")])

  /** `getattr(a, name, None)` as a decoded value: the attribute when present, `null` when missing. */
  function OrNull(v: Option<Json>): (r: Json)
    ensures v.None? ==> r == JNull
    ensures v.Some? ==> r == v.value
  {
    v.GetOr(JNull)
  }

  /** The record `inventory_state` builds for a matching agent. */
  function Record(a: Agent, agentId: string): (r: Json)
    reads a
    ensures r.JObject? && r.fields.Keys == {"agent_id", "battery", "energy", "water", "tools", "carrying"}
    ensures r.fields["agent_id"] == JString(agentId)
    ensures r.fields["battery"] == OrNull(a.battery) && r.fields["water"] == OrNull(a.water)
    ensures r.fields["tools"] == OrNull(a.tools) && r.fields["carrying"] == a.carrying.GetOr(JBool(false))
    ensures a.energy.None? ==> r.fields["energy"] == JNull
    ensures a.energy.Some? ==> r.fields["energy"] == JNumber(a.energy.value, 0)
  {
    JObject(map[
      "agent_id" := JString(agentId),
      "battery" := OrNull(a.battery),
      "energy" := if a.energy.Some? then JNumber(a.energy.value, 0) else JNull,
      "water" := OrNull(a.water),
      "tools" := OrNull(a.tools),
      "carrying" := a.carrying.GetOr(JBool(false))
    ])
  }

  /** The position of the first agent whose id text is `agentId`. */
  function FirstMatch(agents: seq<Agent>, agentId: string): (r: Option<nat>)
    reads set a | a in agents
    ensures r.Some? ==> r.value < |agents| && agents[r.value].uniqueId == agentId
    ensures r.Some? ==> forall j :: 0 <= j < r.value ==> agents[j].uniqueId != agentId
    ensures r.None? <==> forall j :: 0 <= j < |agents| ==> agents[j].uniqueId != agentId
  {
    if |agents| == 0 then None
    else if agents[0].uniqueId == agentId then Some(0)
    else match FirstMatch(agents[1..], agentId)
      case None => None
      case Some(k) => Some(k + 1)
  }

  /** What `inventory_state(model, agent_id)` answers for the scheduled agents. */
  function Inventory(agents: seq<Agent>, agentId: string): Json
    reads set a | a in agents
  {
    match FirstMatch(agents, agentId)
    case Some(k) => Record(agents[k], agentId)
    case None => NotFound
  }

  /** The error record comes back exactly when no agent has the id. */
  lemma NotFoundIff(agents: seq<Agent>, agentId: string)
    ensures Inventory(agents, agentId) == NotFound
            <==> forall j :: 0 <= j < |agents| ==> agents[j].uniqueId != agentId
  {
    match FirstMatch(agents, agentId)
    case Some(k) =>
      assert "agent_id" in Inventory(agents, agentId).fields;
      assert "agent_id" !in NotFound.fields;
    case None =>
  }

  /** Agents after the first match do not matter. */
  lemma LaterAgentsIgnored(agents: seq<Agent>, more: seq<Agent>, agentId: string)
    requires exists j :: 0 <= j < |agents| && agents[j].uniqueId == agentId
    ensures Inventory(agents + more, agentId) == Inventory(agents, agentId)
  {
    var k := FirstMatch(agents, agentId).value;
    var r := FirstMatch(agents + more, agentId);
    assert (agents + more)[k] == agents[k];
    assert r.Some? && r.value <= k;
  }

  /** `inventory_state`: the loop over the scheduled agents, returning at the first match; reads only. */
  method InventoryState(agents: seq<Agent>, agentId: string) returns (r: Json)
    ensures r == Inventory(agents, agentId)
  {
    var i := 0;
    while i < |agents|
      invariant 0 <= i <= |agents|
      invariant forall j :: 0 <= j < i ==> agents[j].uniqueId != agentId
    {
      if agents[i].uniqueId == agentId {
        assert FirstMatch(agents, agentId) == Some(i);
        return Record(agents[i], agentId);
      }
      i := i + 1;
    }
    return NotFound;
  }
}
