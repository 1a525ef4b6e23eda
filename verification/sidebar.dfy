/**
 * `Sidebar.tsx`: the navigation menu, chosen by the lower-cased role alias of
 * the session.
 */
module Sidebar {
  import opened Wrappers
  import opened Text
  import opened Auth

  /** One entry of the menu; the icon is left out. */
  datatype MenuItem = MenuItem(path: string, caption: string)

  const DashboardItem: MenuItem := MenuItem("/", "Dashboard")

  /** Whether some entry leads to this path. */
  predicate Offers(items: seq<MenuItem>, path: string) {
    exists i :: 0 <= i < |items| && items[i].path == path
  }

  predicate DistinctPaths(items: seq<MenuItem>) {
    forall i, j :: 0 <= i < j < |items| ==> items[i].path != items[j].path
  }

  /** The five roles the menu knows. */
  predicate KnownRole(role: Option<string>) {
    role.Some? && role.value in {"superadmin", "admin", "pbm", "teamleader", "worker"}
  }

  function SuperadminMenu(): seq<MenuItem> {
    [DashboardItem,
     MenuItem("/jobs", "Job Management"),
     MenuItem("/tenants", "Tenant Management"),
     MenuItem("/pbm", "PBM Management"),
     MenuItem("/members", "Member Management"),
     MenuItem("/equipment", "Equipment Management"),
     MenuItem("/billing", "Billing Management"),
     MenuItem("/reports", "National Reports"),
     MenuItem("/settings", "System Settings")]
  }

  function AdminMenu(): seq<MenuItem> {
    [DashboardItem,
     MenuItem("/jobs", "Job Management"),
     MenuItem("/members", "Members"),
     MenuItem("/equipment", "Heavy Equipment"),
     MenuItem("/pbm", "PBM Partners"),
     MenuItem("/attendance", "Attendance"),
     MenuItem("/tracking", "Job Tracking"),
     MenuItem("/billing", "Billing"),
     MenuItem("/payroll", "Payroll"),
     MenuItem("/reports", "Reports")]
  }

  function PbmMenu(): seq<MenuItem> {
    [DashboardItem,
     MenuItem("/jobs", "My Job Requests"),
     MenuItem("/billing", "Invoices"),
     MenuItem("/tracking", "Job Progress")]
  }

  function TeamLeaderMenu(): seq<MenuItem> {
    [DashboardItem,
     MenuItem("/jobs", "Assigned Jobs"),
     MenuItem("/attendance", "Team Attendance"),
     MenuItem("/tracking", "Job Tracking"),
     MenuItem("/payroll", "My Payroll")]
  }

  function WorkerMenu(): seq<MenuItem> {
    [DashboardItem,
     MenuItem("/jobs", "My Jobs"),
     MenuItem("/attendance", "My Attendance"),
     MenuItem("/payroll", "My Payroll")]
  }

  /** `getMenuItems`: the dashboard entry, followed by the entries of the role. */
  function MenuItems(role: Option<string>): (items: seq<MenuItem>)
    ensures |items| >= 1 && items[0] == DashboardItem
    ensures !KnownRole(role) ==> items == [DashboardItem]
    ensures role == Some("superadmin") ==> |items| == 9
    ensures role == Some("admin") ==> |items| == 10
    ensures role == Some("pbm") ==> |items| == 4
    ensures role == Some("teamleader") ==> |items| == 5
    ensures role == Some("worker") ==> |items| == 4
  {
    if role == Some("superadmin") then SuperadminMenu()
    else if role == Some("admin") then AdminMenu()
    else if role == Some("pbm") then PbmMenu()
    else if role == Some("teamleader") then TeamLeaderMenu()
    else if role == Some("worker") then WorkerMenu()
    else [DashboardItem]
  }

  lemma SuperadminPathsDistinct()
    ensures DistinctPaths(SuperadminMenu())
  {
  }

  lemma AdminPathsDistinct()
    ensures DistinctPaths(AdminMenu())
  {
  }

  lemma StaffPathsDistinct()
    ensures DistinctPaths(PbmMenu()) && DistinctPaths(TeamLeaderMenu()) && DistinctPaths(WorkerMenu())
  {
  }

  /** No menu leads to the same path twice. */
  lemma MenuPathsDistinct(role: Option<string>)
    ensures DistinctPaths(MenuItems(role))
  {
    SuperadminPathsDistinct();
    AdminPathsDistinct();
    StaffPathsDistinct();
  }

  /** Tenant management and system settings are reachable for a superadmin
      only; the job page for every known role and for nobody else. */
  lemma MenuAccess(role: Option<string>)
    ensures Offers(MenuItems(role), "/tenants") <==> role == Some("superadmin")
    ensures Offers(MenuItems(role), "/settings") <==> role == Some("superadmin")
    ensures Offers(MenuItems(role), "/jobs") <==> KnownRole(role)
  {
    var items := MenuItems(role);
    if role == Some("superadmin") {
      assert items[2].path == "/tenants" && items[8].path == "/settings";
    }
    if KnownRole(role) {
      assert items[1].path == "/jobs";
    }
  }

  /** After `login` the menu is the one of the lower-cased account name, so
      settings appear exactly for the sessions the pages treat as superadmin. */
  lemma LoginMenu(c: Credentials)
    ensures MenuItems(RoleAlias(Some(Login(c)))) == MenuItems(Some(Lower(c.account)))
    ensures Offers(MenuItems(RoleAlias(Some(Login(c)))), "/settings") <==> IsSuperadmin(Some(Login(c)))
  {
    LoginRole(c);
    MenuAccess(RoleAlias(Some(Login(c))));
  }
}
