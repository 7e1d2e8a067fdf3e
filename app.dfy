/**
 * App.tsx: the session state held in the root component, the handlers that change it,
 * the list updates they hand to setProjects, and the role gating of pages.
 * Gateway calls are not made here: their answers arrive as method parameters.
 */
module App {
  import opened Types
  import opened Totals
  import Reconcile

  // ---------------------------------------------------------------------------------------
  // The list updates passed to setProjects

  /** `prev.map(p => p.id === updated.id ? updated : p)` */
  function UpdateById(ps: seq<Project>, updated: Project): (r: seq<Project>)
    ensures |r| == |ps|
    ensures forall i :: 0 <= i < |ps| ==> r[i] == if ps[i].id == updated.id then updated else ps[i]
  {
    seq(|ps|, i requires 0 <= i < |ps| => if ps[i].id == updated.id then updated else ps[i])
  }

  /** `[...prev, newProject]` */
  function Append(ps: seq<Project>, added: Project): (r: seq<Project>)
    ensures |r| == |ps| + 1 && r[..|ps|] == ps && r[|ps|] == added
  {
    ps + [added]
  }

  function IdIsNot(id: int): Project -> bool {
    (p: Project) => p.id != id
  }

  /** `prev.filter(p => p.id !== id)` */
  function DeleteById(ps: seq<Project>, id: int): (r: seq<Project>)
    ensures forall i :: 0 <= i < |r| ==> r[i].id != id
    ensures forall p :: multiset(r)[p] == if p.id != id then multiset(ps)[p] else 0
  {
    FilterCounts(ps, IdIsNot(id));
    Filter(ps, IdIsNot(id))
  }

  /** Deleting a project leaves the others in their original order. */
  lemma DeleteKeepsOrder(a: seq<Project>, b: seq<Project>, id: int)
    ensures DeleteById(a + b, id) == DeleteById(a, id) + DeleteById(b, id)
  {
    FilterConcat(a, b, IdIsNot(id));
  }

  /** Adding a project under an id nobody uses and deleting that id gives the list back. */
  lemma {:induction false} DeleteUndoesAppend(ps: seq<Project>, added: Project)
    requires forall i :: 0 <= i < |ps| ==> ps[i].id != added.id
    ensures DeleteById(Append(ps, added), added.id) == ps
  {
    DeleteKeepsOrder(ps, [added], added.id);
    DeleteMissing(ps, added.id);
    assert DeleteById([added], added.id) == [];
  }

  lemma DeleteMissing(ps: seq<Project>, id: int)
    requires forall i :: 0 <= i < |ps| ==> ps[i].id != id
    ensures DeleteById(ps, id) == ps
  {
    FilterKeepsAll(ps, IdIsNot(id));
  }

  /** Updating one id leaves the projects with any other id exactly as they were, in order. */
  lemma {:induction false} UpdateLeavesOthers(ps: seq<Project>, updated: Project)
    ensures DeleteById(UpdateById(ps, updated), updated.id) == DeleteById(ps, updated.id)
  {
    if ps != [] {
      var n := |ps| - 1;
      var r := UpdateById(ps, updated);
      assert r[..n] == UpdateById(ps[..n], updated);
      UpdateLeavesOthers(ps[..n], updated);
    }
  }

  /** One project after an acknowledged expense: spent grows, and Warning is set when spent passes budget. */
  function WithExpense(p: Project, amount: int): (r: Project)
    ensures r.spent == p.spent + amount
    ensures r.status == Warning <==> (r.spent > p.budget || p.status == Warning)
    ensures r.spent <= p.budget ==> r.status == p.status
    ensures r == p.(spent := r.spent, status := r.status)
  {
    var spent := p.spent + amount;
    p.(spent := spent, status := if spent > p.budget then Warning else p.status)
  }

  /** The map in handleRecordExpense: every project with that id records the expense. */
  function ApplyExpense(ps: seq<Project>, id: int, amount: int): (r: seq<Project>)
    ensures |r| == |ps|
    ensures forall i :: 0 <= i < |ps| ==> r[i] == if ps[i].id == id then WithExpense(ps[i], amount) else ps[i]
  {
    seq(|ps|, i requires 0 <= i < |ps| => if ps[i].id == id then WithExpense(ps[i], amount) else ps[i])
  }

  /** How many projects carry this id. */
  function CountId(ps: seq<Project>, id: int): nat {
    if ps == [] then 0 else CountId(ps[..|ps| - 1], id) + (if ps[|ps| - 1].id == id then 1 else 0)
  }

  /** Recording an expense adds the amount to the total spent once per matching project and keeps the total budget. */
  lemma {:induction false} ApplyExpenseTotals(ps: seq<Project>, id: int, amount: int)
    ensures SumSpent(ApplyExpense(ps, id, amount)) == SumSpent(ps) + amount * CountId(ps, id)
    ensures SumBudget(ApplyExpense(ps, id, amount)) == SumBudget(ps)
  {
    if ps != [] {
      var n := |ps| - 1;
      var r := ApplyExpense(ps, id, amount);
      assert r[..n] == ApplyExpense(ps[..n], id, amount);
      ApplyExpenseTotals(ps[..n], id, amount);
      assert SumSpent(r) == SumSpent(r[..n]) + r[n].spent;
      assert SumBudget(r) == SumBudget(r[..n]) + r[n].budget;
    }
  }

  // ---------------------------------------------------------------------------------------
  // Role gating

  /** allNavItems, in their display order. */
  const AllPages: seq<Page> := [HOME, RECORD, DASHBOARD, PROJECTS, REPORT, ACCESS_LOGS]

  /** The pages only an admin is shown. */
  predicate AdminOnly(page: Page) {
    page == RECORD || page == PROJECTS || page == REPORT || page == ACCESS_LOGS
  }

  /** navItems: a 'user' keeps HOME and DASHBOARD; any other role keeps all items. */
  function NavItems(role: Option<Role>): (r: seq<Page>)
    ensures role == Some(User) ==> r == [HOME, DASHBOARD]
    ensures role != Some(User) ==> r == AllPages
    ensures forall i :: 0 <= i < |r| ==> role == Some(User) ==> !AdminOnly(r[i])
  {
    if role == Some(User) then [HOME, DASHBOARD] else AllPages
  }

  /** What renderContent shows. */
  datatype View = LoadingView | HomeView | RecordView | DashboardView | ProjectsView | ReportView | LogsView

  function ViewOf(page: Page): View {
    match page
    case HOME => HomeView
    case RECORD => RecordView
    case DASHBOARD => DashboardView
    case PROJECTS => ProjectsView
    case REPORT => ReportView
    case ACCESS_LOGS => LogsView
  }

  /** renderContent: the spinner while loading; admin-only pages fall back to Home for non-admins. */
  function Render(loading: bool, page: Page, role: Option<Role>): (v: View)
    ensures loading ==> v == LoadingView
    ensures !loading && AdminOnly(page) && role != Some(Admin) ==> v == HomeView
    ensures !loading && (role == Some(Admin) || !AdminOnly(page)) ==> v == ViewOf(page)
  {
    if loading then LoadingView
    else if AdminOnly(page) && role != Some(Admin) then HomeView
    else ViewOf(page)
  }

  /** Every page a signed-in role finds in its navigation renders as itself, never as a fallback. */
  lemma NavItemsRenderThemselves(role: Role, i: nat)
    requires i < |NavItems(Some(role))|
    ensures Render(false, NavItems(Some(role))[i], Some(role)) == ViewOf(NavItems(Some(role))[i])
  {
  }

  // ---------------------------------------------------------------------------------------
  // The session

  class Session {
    /** The fallback catalog (MOCK_PROJECTS): the first list shown, and the one used by every merge. */
    const catalog: seq<Project>
    var isAuthenticated: bool
    var userRole: Option<Role>
    var currentUser: string
    var currentPage: Page
    var projects: seq<Project>
    var accessLogs: seq<LogEntry>
    var loading: bool

    /** The initial hook state: signed out, on HOME, showing the catalog and the seed log. */
    constructor (fallback: seq<Project>, seedLogs: seq<LogEntry>)
      ensures catalog == fallback
      ensures !isAuthenticated && userRole == None && currentUser == "" && currentPage == HOME
      ensures projects == fallback && accessLogs == seedLogs && !loading
      ensures Consistent()
    {
      catalog := fallback;
      isAuthenticated, userRole, currentUser, currentPage := false, None, "", HOME;
      projects, accessLogs, loading := fallback, seedLogs, false;
    }

    /** A role is set exactly while someone is signed in. */
    predicate Consistent()
      reads this
    {
      isAuthenticated <==> userRole.Some?
    }

    /** What the root component draws: the login form until signed in, then the page. */
    function Screen(): (v: Option<View>)
      reads this
      ensures !isAuthenticated <==> v.None?
      ensures v.Some? ==> v.value == Render(loading, currentPage, userRole)
    {
      if !isAuthenticated then None else Some(Render(loading, currentPage, userRole))
    }

    /** handleLogin */
    method Login(role: Role, name: string)
      modifies this
      ensures isAuthenticated && userRole == Some(role) && currentUser == name
      ensures Consistent()
      ensures currentPage == old(currentPage) && projects == old(projects)
      ensures accessLogs == old(accessLogs) && loading == old(loading)
    {
      isAuthenticated, userRole, currentUser := true, Some(role), name;
    }

    /** The fetch effect's first step once signed in: the loading spinner replaces the page. */
    method BeginFetch()
      requires isAuthenticated
      modifies this`loading
      ensures loading && Screen() == Some(LoadingView)
    {
      loading := true;
    }

    /**
     * The fetch effect once the gateway answered (the gateway answers [] for anything that is
     * not a list): the lists are replaced and the `finally` turns loading off.
     */
    method Refresh(remoteProjects: seq<Project>, remoteLogs: seq<LogEntry>)
      requires isAuthenticated && Consistent()
      modifies this
      ensures projects == Reconcile.Merge(remoteProjects, catalog)
      ensures Consistent()
      ensures accessLogs == if remoteLogs != [] then remoteLogs else old(accessLogs)
      ensures !loading
      ensures isAuthenticated && userRole == old(userRole) && currentUser == old(currentUser)
      ensures currentPage == old(currentPage)
    {
      if remoteProjects != [] {
        projects := Reconcile.Merge(remoteProjects, catalog);
      } else {
        projects := catalog;
      }
      if remoteLogs != [] {
        accessLogs := remoteLogs;
      }
      loading := false;
    }

    /** handleRecordLog: the new entry goes in front; `now` is the clock reading in milliseconds. */
    method RecordLog(username: string, role: LogRole, status: LogStatus, now: int)
      modifies this`accessLogs
      ensures accessLogs == [LogEntry(now, now, username, role, status)] + old(accessLogs)
    {
      accessLogs := [LogEntry(now, now, username, role, status)] + accessLogs;
    }

    /** handleLogout: signs out and returns to HOME; the collections stay. */
    method Logout()
      modifies this
      ensures !isAuthenticated && userRole == None && currentUser == "" && currentPage == HOME
      ensures Consistent()
      ensures projects == old(projects) && accessLogs == old(accessLogs) && loading == old(loading)
    {
      isAuthenticated, userRole, currentUser, currentPage := false, None, "", HOME;
    }

    /** handleNavClick */
    method NavClick(page: Page)
      modifies this`currentPage
      ensures currentPage == page
    {
      currentPage := page;
    }

    /** handleUpdateProject (the local half; the gateway write is fire-and-forget). */
    method UpdateProject(updated: Project)
      modifies this`projects
      ensures projects == UpdateById(old(projects), updated)
    {
      projects := UpdateById(projects, updated);
    }

    /** handleAddProject */
    method AddProject(added: Project)
      modifies this`projects
      ensures projects == Append(old(projects), added)
    {
      projects := Append(projects, added);
    }

    /** handleDeleteProject */
    method DeleteProject(id: int)
      modifies this`projects
      ensures projects == DeleteById(old(projects), id)
    {
      projects := DeleteById(projects, id);
    }

    /**
     * handleRecordExpense, given the gateway's answer (None when it gave none):
     * the projects change only on an explicit "success".
     */
    method RecordExpense(projectId: int, amount: int, answer: Option<Reply>) returns (ok: bool)
      modifies this`projects
      ensures ok <==> answer.Some? && IsSuccess(answer.value)
      ensures projects == if ok then ApplyExpense(old(projects), projectId, amount) else old(projects)
    {
      if answer.Some? && IsSuccess(answer.value) {
        projects := ApplyExpense(projects, projectId, amount);
        ok := true;
      } else {
        ok := false;
      }
    }
  }
}
