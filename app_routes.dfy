/**
 * The route table: which screen a URL shows, or where it redirects, given
 * whether someone is signed in and with which role.
 */
module AppRoutes {

  import opened Common
  import opened Text
  import opened Records

  /** A URL path as its segments after the leading "/": "/" is `[]`, "/vehicles/5" is `["vehicles", "5"]`. */
  type Path = seq<string>

  /** What the authentication context holds. */
  datatype Session = Session(isAuthenticated: bool, user: Option<User>)

  datatype Screen =
    | Login | LocalPaymentSimulator
    | Dashboard | Vehicles | VehicleDetail(vehicleId: string) | Motorcycles
    | MotorcycleDetail(motorcycleId: string) | Fines | Infractions | Agents
    | AgentDetail(agentId: string) | Reports | AdminSettings
    | AgentDashboard | Printing | AgentSettings

  datatype Outcome = Show(screen: Screen) | Redirect(to: Path)

  /** The segment `s` matches the route segment `name`; route matching ignores letter case. */
  predicate Is(s: string, name: string)
  {
    Lower(s) == name
  }

  /** The routes of a Superviseur, under the main layout. */
  function SupervisorRoute(path: Path): (r: Outcome)
    ensures path == [] ==> r == Redirect(["dashboard"])
    ensures r.Redirect? ==> r.to == ["dashboard"]
    ensures r.Show? ==> r.screen !in {AgentDashboard, Printing, AgentSettings, Login, LocalPaymentSimulator}
  {
    if |path| == 1 && Is(path[0], "dashboard") then Show(Dashboard)
    else if |path| == 1 && Is(path[0], "vehicles") then Show(Vehicles)
    else if |path| == 2 && Is(path[0], "vehicles") then Show(VehicleDetail(path[1]))
    else if |path| == 1 && Is(path[0], "motorcycles") then Show(Motorcycles)
    else if |path| == 2 && Is(path[0], "motorcycles") then Show(MotorcycleDetail(path[1]))
    else if |path| == 1 && Is(path[0], "fines") then Show(Fines)
    else if |path| == 1 && Is(path[0], "infractions") then Show(Infractions)
    else if |path| == 1 && Is(path[0], "agents") then Show(Agents)
    else if |path| == 2 && Is(path[0], "agents") then Show(AgentDetail(path[1]))
    else if |path| == 1 && Is(path[0], "reports") then Show(Reports)
    else if |path| == 1 && Is(path[0], "settings") then Show(AdminSettings)
    else Redirect(["dashboard"])
  }

  /** The routes of a field agent, under the main layout. */
  function AgentRoute(path: Path): (r: Outcome)
    ensures path == [] ==> r == Redirect(["agent-dashboard"])
    ensures r.Redirect? ==> r.to == ["agent-dashboard"]
    ensures r.Show? ==> r.screen in {AgentDashboard, Printing, AgentSettings}
  {
    if |path| == 1 && Is(path[0], "agent-dashboard") then Show(AgentDashboard)
    else if |path| == 1 && Is(path[0], "printing") then Show(Printing)
    else if |path| == 1 && Is(path[0], "settings") then Show(AgentSettings)
    else Redirect(["agent-dashboard"])
  }

  /** `AppRoutes`: the two public pages first, then the main layout's guard, then the role's routes. */
  function Resolve(session: Session, path: Path): (r: Outcome)
    ensures |path| == 1 && Is(path[0], "login") ==> r == Show(Login)
    ensures |path| == 1 && Is(path[0], "local-payment-simulator") ==> r == Show(LocalPaymentSimulator)
  {
    if |path| == 1 && Is(path[0], "login") then Show(Login)
    else if |path| == 1 && Is(path[0], "local-payment-simulator") then Show(LocalPaymentSimulator)
    else if !session.isAuthenticated then Redirect(["login"])
    else match session.user
      case Some(User(_, Superviseur, _)) => SupervisorRoute(path)
      case Some(User(_, FieldAgent, _)) => AgentRoute(path)
      case None => Redirect(["login"])
  }

  /** A path other than the two public pages. */
  predicate Guarded(path: Path)
  {
    !(|path| == 1 && (Is(path[0], "login") || Is(path[0], "local-payment-simulator")))
  }

  /** The role routes never shadow the public pages: a path either table shows is guarded. */
  lemma RoleRoutesAreGuarded(path: Path)
    requires SupervisorRoute(path).Show? || AgentRoute(path).Show?
    ensures Guarded(path)
  {
  }

  /** Past the guard, a signed-in user with a role gets that role's routes. */
  lemma SignedInRoutes(session: Session, path: Path)
    requires session.isAuthenticated && session.user.Some? && Guarded(path)
    ensures session.user.value.role == Superviseur ==> Resolve(session, path) == SupervisorRoute(path)
    ensures session.user.value.role == FieldAgent ==> Resolve(session, path) == AgentRoute(path)
  {
  }

  /** Whoever asks, a guarded path without a signed-in session redirects to the login page. */
  lemma SignedOutGoesToLogin(session: Session, path: Path)
    requires !session.isAuthenticated && Guarded(path)
    ensures Resolve(session, path) == Redirect(["login"])
  {
  }

  /** A signed-in session without a user, hence without a role, is sent back to the login page. */
  lemma NoRoleGoesToLogin(path: Path)
    requires Guarded(path)
    ensures Resolve(Session(true, None), path) == Redirect(["login"])
  {
  }

  /** Lower-case names are matched as they are written. */
  lemma LowerName(s: string)
    requires forall i :: 0 <= i < |s| ==> !('A' <= s[i] <= 'Z')
    ensures Is(s, s)
  {
  }

  /**
   * A Superviseur and an agent are shown a page at the same path only for
   * the public pages and for "settings" (a different settings page each).
   */
  lemma SharedPathsArePublicOrSettings(supervisor: User, agent: User, path: Path)
    requires supervisor.role == Superviseur && agent.role == FieldAgent
    requires Guarded(path)
    ensures Resolve(Session(true, Some(supervisor)), path).Show? && Resolve(Session(true, Some(agent)), path).Show?
            <==> |path| == 1 && Is(path[0], "settings")
  {
  }

  /** Every redirect of a signed-in session lands on a page in one step. */
  lemma OneRedirectSuffices(session: Session, path: Path)
    requires Resolve(session, path).Redirect?
    ensures Resolve(session, Resolve(session, path).to).Show?
  {
    var r := Resolve(session, path);
    if !session.isAuthenticated || session.user.None? {
      assert r.to == ["login"];
      LowerName("login");
    } else if session.user.value.role == Superviseur {
      assert r.to == ["dashboard"];
      LowerName("dashboard");
      assert SupervisorRoute(["dashboard"]) == Show(Dashboard);
    } else {
      assert r.to == ["agent-dashboard"];
      LowerName("agent-dashboard");
      assert AgentRoute(["agent-dashboard"]) == Show(AgentDashboard);
    }
  }
}
