/** The agents page: a searchable table with add, edit and delete through one modal. */
module AgentsPage {

  import opened Common
  import opened Text
  import opened JsNumber
  import opened Lists
  import opened Records

  const InitialAgents: seq<Agent> := [
    Agent("agent-1", "Agent Tambua", "agent@tambua.com", "AT", "Actif", 5, 120000),
    Agent("agent-2", "John Doe", "john.doe@tambua.com", "JD", "Actif", 3, 85000),
    Agent("agent-3", "Jane Smith", "jane.smith@tambua.com", "JS", "Inactif", 0, 0),
    Agent("agent-4", "Pierre Simon", "pierre.simon@tambua.com", "PS", "Actif", 8, 250000)
  ]

  /** What the agent modal hands back: an agent without id, avatar and counters. */
  datatype AgentData = AgentData(name: string, email: string, status: string)

  /** The row test of `filteredAgents`. */
  predicate Shown(a: Agent, searchTerm: string)
  {
    ContainsIgnoringCase(a.name, searchTerm) || ContainsIgnoringCase(a.email, searchTerm)
  }

  /** `filteredAgents`: an agent is listed exactly when its name or e-mail contains the term, ignoring case. */
  function FilteredAgents(agents: seq<Agent>, searchTerm: string): (r: seq<Agent>)
    ensures forall i :: 0 <= i < |agents| ==> (agents[i] in r <==> Shown(agents[i], searchTerm))
    ensures forall i :: 0 <= i < |r| ==> r[i] in agents
  {
    Filter(agents, a => Shown(a, searchTerm))
  }

  /** An empty search lists every agent, in order. */
  lemma EmptySearchShowsAll(agents: seq<Agent>)
    ensures FilteredAgents(agents, "") == agents
  {
    forall i | 0 <= i < |agents| ensures Shown(agents[i], "") {
      EmptyTermMatches(agents[i].name);
    }
    FilterKeepsAll(agents, a => Shown(a, ""));
  }

  /**
   * The initials of a new agent: the first character of the name and the
   * first character of the text between its first and second space, upper-cased.
   */
  function Avatar(name: string): (r: string)
    ensures |r| <= 2
    ensures name != [] ==> r != [] && r[0] == UpperChar(name[0])
    ensures name == [] ==> r == []
  {
    var second := match SecondWord(name) case None => "" case Some(w) => FirstChar(w);
    Upper(FirstChar(name) + second)
  }

  /** A name without a space gives a one-letter avatar. */
  lemma AvatarOfOneWord(name: string)
    requires name != [] && ' ' !in name
    ensures Avatar(name) == [UpperChar(name[0])]
  {
  }

  /** In "first rest", with no space in `first`, the first space sits right after `first`. */
  lemma {:induction false} FirstSpaceAfterWord(first: string, tail: string)
    requires ' ' !in first
    ensures IndexOf(first + " " + tail, ' ') == Some(|first|)
  {
    var s := first + " " + tail;
    if first != [] {
      assert s[0] == first[0];
      assert s[1..] == first[1..] + " " + tail;
      FirstSpaceAfterWord(first[1..], tail);
    }
  }

  /** "First Second ..." gives the two upper-cased initials. */
  lemma {:induction false} AvatarOfTwoWords(first: string, second: string)
    requires first != [] && ' ' !in first
    requires second != [] && second[0] != ' '
    ensures Avatar(first + " " + second) == [UpperChar(first[0]), UpperChar(second[0])]
  {
    var name := first + " " + second;
    FirstSpaceAfterWord(first, second);
    assert name[|first| + 1..] == second;
    var w := SecondWord(name).value;
    assert w != [] && w[0] == second[0];
    assert FirstChar(name) + FirstChar(w) == [first[0], second[0]];
  }

  /** `{ ...editingAgent, ...agentData }`: the form's fields over the agent being edited. */
  function Merge(editing: Agent, data: AgentData): (r: Agent)
    ensures r.id == editing.id && r.avatar == editing.avatar
    ensures r.registrationsToday == editing.registrationsToday
    ensures r.finesCollectedToday == editing.finesCollectedToday
    ensures r.name == data.name && r.email == data.email && r.status == data.status
  {
    editing.(name := data.name, email := data.email, status := data.status)
  }

  /** The id `agent-${Date.now()}`. */
  function NewAgentId(nowMs: nat): (r: string)
    ensures |r| > 6 && r[..6] == "agent-"
  {
    "agent-" + Decimal(nowMs)
  }

  /** The agent the add branch creates: the form's fields, a fresh id, its initials, no activity yet. */
  function NewAgent(data: AgentData, nowMs: nat): (r: Agent)
    ensures r.id == NewAgentId(nowMs) && r.avatar == Avatar(data.name)
    ensures r.name == data.name && r.email == data.email && r.status == data.status
    ensures r.registrationsToday == 0 && r.finesCollectedToday == 0
  {
    Agent(NewAgentId(nowMs), data.name, data.email, Avatar(data.name), data.status, 0, 0)
  }

  /** Different clock readings give different agent ids. */
  lemma {:induction false} NewAgentIdsDiffer(t1: nat, t2: nat)
    requires t1 != t2
    ensures NewAgentId(t1) != NewAgentId(t2)
  {
    var a, b := NewAgentId(t1), NewAgentId(t2);
    if a == b {
      assert a[6..] == Decimal(t1) && b[6..] == Decimal(t2);
      DecimalValue(t1);
      DecimalValue(t2);
    }
  }

  /** Deleting an agent right after adding it under a fresh id restores the list. */
  lemma DeleteUndoesAdd(agents: seq<Agent>, data: AgentData, nowMs: nat)
    requires forall i :: 0 <= i < |agents| ==> agents[i].id != NewAgentId(nowMs)
    ensures RemoveById([NewAgent(data, nowMs)] + agents, AgentId, NewAgentId(nowMs)) == agents
  {
    RemoveAfterPrepend(agents, AgentId, NewAgent(data, nowMs));
  }

  /** After an edit the agent is found under its id with the new fields and its old counters. */
  lemma EditedAgentFound(agents: seq<Agent>, editing: Agent, data: AgentData)
    requires exists i :: 0 <= i < |agents| && agents[i].id == editing.id
    ensures FindById(ReplaceById(agents, AgentId, Merge(editing, data)), AgentId, editing.id) == Some(Merge(editing, data))
  {
    var i :| 0 <= i < |agents| && agents[i].id == editing.id;
    assert AgentId(agents[i]) == AgentId(Merge(editing, data));
    FindAfterReplace(agents, AgentId, Merge(editing, data));
  }

  class AgentsPage {
    var agents: seq<Agent>
    var searchTerm: string
    var isModalOpen: bool
    var editingAgent: Option<Agent>

    constructor ()
      ensures agents == InitialAgents && searchTerm == "" && !isModalOpen && editingAgent == None
    {
      agents := InitialAgents;
      searchTerm := "";
      isModalOpen := false;
      editingAgent := None;
    }

    /** The rows on screen. */
    function Visible(): seq<Agent>
      reads this
    {
      FilteredAgents(agents, searchTerm)
    }

    /** The search box's `setSearchTerm`: the rows on screen are then those the new term selects. */
    method SetSearchTerm(value: string)
      modifies this
      ensures searchTerm == value
      ensures agents == old(agents) && isModalOpen == old(isModalOpen) && editingAgent == old(editingAgent)
      ensures forall i :: 0 <= i < |agents| ==> (agents[i] in Visible() <==> Shown(agents[i], searchTerm))
    {
      searchTerm := value;
    }

    /** `openAddModal`. */
    method OpenAddModal()
      modifies this
      ensures isModalOpen && editingAgent == None
      ensures agents == old(agents) && searchTerm == old(searchTerm)
    {
      editingAgent := None;
      isModalOpen := true;
    }

    /** `openEditModal`. */
    method OpenEditModal(agent: Agent)
      modifies this
      ensures isModalOpen && editingAgent == Some(agent)
      ensures agents == old(agents) && searchTerm == old(searchTerm)
    {
      editingAgent := Some(agent);
      isModalOpen := true;
    }

    /** The modal's close button hides it and leaves `editingAgent` as it was. */
    method CloseModal()
      modifies this
      ensures !isModalOpen
      ensures editingAgent == old(editingAgent) && agents == old(agents) && searchTerm == old(searchTerm)
    {
      isModalOpen := false;
    }

    /**
     * `handleSave`: with an agent under edit, every agent carrying its id
     * becomes that agent overwritten by the form; otherwise a new agent goes
     * first in the list. Either way the modal closes and nothing is under edit.
     */
    method HandleSave(data: AgentData, nowMs: nat)
      modifies this
      ensures old(editingAgent).Some? ==>
                agents == ReplaceById(old(agents), AgentId, Merge(old(editingAgent).value, data))
      ensures old(editingAgent).None? ==> agents == [NewAgent(data, nowMs)] + old(agents)
      ensures !isModalOpen && editingAgent == None && searchTerm == old(searchTerm)
    {
      match editingAgent {
        case Some(editing) =>
          agents := ReplaceById(agents, AgentId, Merge(editing, data));
        case None =>
          agents := [NewAgent(data, nowMs)] + agents;
      }
      isModalOpen := false;
      editingAgent := None;
    }

    /** `handleDelete`, behind the confirmation dialog's answer. */
    method HandleDelete(agentId: string, confirmed: bool)
      modifies this
      ensures agents == if confirmed then RemoveById(old(agents), AgentId, agentId) else old(agents)
      ensures isModalOpen == old(isModalOpen) && editingAgent == old(editingAgent) && searchTerm == old(searchTerm)
    {
      if confirmed {
        agents := RemoveById(agents, AgentId, agentId);
      }
    }
  }
}
