/** The agent detail page (`/agents/:id`): the agent and today's activity. */
module AgentDetailPage {

  import opened Common
  import opened Lists
  import opened Records
  import opened RecordDetail
  import AgentsPage

  /** The page's own agent table holds the same four agents as the list page. */
  const MockAgents: seq<Agent> := AgentsPage.InitialAgents

  const MockActivities: map<string, seq<AgentActivity>> := map[
    "agent-1" := [
      AgentActivity("a1", "2025-10-22T10:05:00Z", FinePayment, "Amende #F-4562, Plaque BB123C", Some(50000)),
      AgentActivity("a2", "2025-10-22T09:45:00Z", MotorcycleRegistration, "Plaque GOM 101 GH", None),
      AgentActivity("a3", "2025-10-22T09:15:00Z", LicensePrint, "Permis P123456789", None)
    ],
    "agent-2" := [AgentActivity("b1", "2025-10-22T11:00:00Z", VehicleRegistration, "Plaque KIN22X", None)],
    "agent-3" := [],
    "agent-4" := [AgentActivity("d1", "2025-10-22T12:00:00Z", FinePayment, "Amende #F-9876, Plaque GOM45D", Some(80000))]
  ]

  datatype AgentView =
    | AgentNotFound
    | AgentFound(agent: Agent, activities: seq<AgentActivity>)
  {
    /** "No activity recorded today" replaces the list. */
    predicate ShowsNoActivityMessage()
    {
      AgentFound? && |activities| == 0
    }
  }

  /**
   * `id ? table[id] || [] : []`: the activity list of the id, empty for a
   * missing or empty id and for an id the table does not hold.
   */
  function Activities(table: map<string, seq<AgentActivity>>, id: Option<string>): (r: seq<AgentActivity>)
    ensures r != [] ==> id.Some? && id.value in table && r == table[id.value]
    ensures id.None? || id.value == "" ==> r == []
    ensures id.Some? && id.value != "" && id.value in table ==> r == table[id.value]
  {
    match id
    case None => []
    case Some(key) => if key == "" then [] else if key in table then table[key] else []
  }

  /**
   * What the page shows for the route parameter `id`: "not found" exactly
   * when no agent carries it, otherwise the agent and its activity list.
   */
  function View(agents: seq<Agent>, table: map<string, seq<AgentActivity>>, id: Option<string>): (r: AgentView)
    ensures r.AgentNotFound? <==> id.None? || forall i :: 0 <= i < |agents| ==> agents[i].id != id.value
    ensures r.AgentFound? ==> r.agent.id == id.value && r.agent in agents
    ensures r.AgentFound? ==> exists i :: 0 <= i < |agents| && agents[i] == r.agent
                                         && forall j :: 0 <= j < i ==> agents[j].id != id.value
    ensures r.AgentFound? && id.value != "" ==>
              r.activities == if id.value in table then table[id.value] else []
  {
    match Lookup(agents, AgentId, id)
    case None => AgentNotFound
    case Some(agent) => AgentFound(agent, Activities(table, id))
  }

  /** The page over its own mock tables. */
  function Page(id: Option<string>): (r: AgentView)
    ensures r.AgentNotFound? <==> id.None? || forall i :: 0 <= i < |MockAgents| ==> MockAgents[i].id != id.value
  {
    View(MockAgents, MockActivities, id)
  }

  /** Jane Smith (`agent-3`) is found and has an empty activity list, so the page shows the "no activity" message. */
  lemma InactiveAgentShowsNoActivity()
    ensures Page(Some("agent-3")).ShowsNoActivityMessage()
  {
    var agents := MockAgents;
    assert agents[2].id == "agent-3";
    var v := View(agents, MockActivities, Some("agent-3"));
    assert v.AgentFound?;
    assert "agent-3" in MockActivities && MockActivities["agent-3"] == [];
    assert v.activities == [];
  }
}
