/** The side menu: a fixed list of links chosen by the signed-in user's role. */
module Sidebar {

  import opened Common
  import opened Records
  import opened AppRoutes

  /** A menu link: its target path and its caption. */
  datatype NavItem = NavItem(to: Path, caption: string)

  const AdminNavItems: seq<NavItem> := [
    NavItem(["dashboard"], "Tableau de bord"),
    NavItem(["vehicles"], "Voitures"),
    NavItem(["motorcycles"], "Motos"),
    NavItem(["fines"], "Amendes"),
    NavItem(["infractions"], "Infractions"),
    NavItem(["settings"], "Paramètres")]

  const AgentNavItems: seq<NavItem> := [
    NavItem(["agent-dashboard"], "Accueil Agent"),
    NavItem(["printing"], "Impression"),
    NavItem(["settings"], "Paramètres")]

  predicate IsSupervisor(user: Option<User>)
  {
    user.Some? && user.value.role == Superviseur
  }

  /** `navItems`: the admin menu for a Superviseur, the agent menu for anyone else, even no one. */
  function NavItems(user: Option<User>): (r: seq<NavItem>)
    ensures |r| == (if IsSupervisor(user) then 6 else 3)
    ensures r[|r| - 1] == NavItem(["settings"], "Paramètres")
  {
    if IsSupervisor(user) then AdminNavItems else AgentNavItems
  }

  /** Every link of a signed-in user's menu opens a page that user's role is routed to. */
  lemma MenuMatchesRoutes(user: User, i: int)
    requires 0 <= i < |NavItems(Some(user))|
    ensures Resolve(Session(true, Some(user)), NavItems(Some(user))[i].to).Show?
  {
    var session := Session(true, Some(user));
    if user.role == Superviseur {
      AdminLinkRouted(i);
      RoleRoutesAreGuarded(AdminNavItems[i].to);
      SignedInRoutes(session, AdminNavItems[i].to);
    } else {
      AgentLinkRouted(i);
      RoleRoutesAreGuarded(AgentNavItems[i].to);
      SignedInRoutes(session, AgentNavItems[i].to);
    }
  }

  lemma AdminLinkRouted(i: int)
    requires 0 <= i < |AdminNavItems|
    ensures SupervisorRoute(AdminNavItems[i].to).Show?
  {
    var name := AdminNavItems[i].to[0];
    LowerName(name);
    if i < 3 {
      assert name in {"dashboard", "vehicles", "motorcycles"};
    } else {
      assert name in {"fines", "infractions", "settings"};
    }
  }

  lemma AgentLinkRouted(i: int)
    requires 0 <= i < |AgentNavItems|
    ensures AgentRoute(AgentNavItems[i].to).Show?
  {
    LowerName(AgentNavItems[i].to[0]);
  }

  /** The agents and reports pages are routed for a Superviseur but no menu links to them. */
  lemma AgentsAndReportsUnlinked(user: Option<User>, i: int)
    requires 0 <= i < |NavItems(user)|
    ensures NavItems(user)[i].to != ["agents"] && NavItems(user)[i].to != ["reports"]
  {
  }
}
