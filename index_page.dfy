/** The application page (src/pages/Index.tsx): the session state (signed
    in or not, role, active view), its three handlers, the sign-in gate and
    the switch that picks the screen for the active view. */
module IndexPage {
  import DesktopSidebar
  import MobileNavigation

  /** The screens the page can show in its content area. */
  datatype Screen =
    | AdminDashboard
    | TeacherDashboard
    | StudentManagement
    | ClassSchedule
    | Attendance
    | Messages
    | BillingInvoice
    | AnnouncementManagement

  /** The view ids with a screen of their own; `dashboard` and every other
      id fall back to the role's dashboard. */
  predicate IsFixedView(view: string)
  {
    view in {"students", "schedule", "attendance", "messages", "billing", "announcements"}
  }

  /** The role's dashboard: the administrator's for `admin`, the teacher's
      for every other role. */
  function RoleDashboard(role: string): (r: Screen)
    ensures r == AdminDashboard <==> role == "admin"
    ensures r == AdminDashboard || r == TeacherDashboard
  {
    if role == "admin" then AdminDashboard else TeacherDashboard
  }

  /** `renderActiveView`. */
  function RenderActiveView(view: string, role: string): (r: Screen)
    ensures !IsFixedView(view) ==> r == RoleDashboard(role)
    ensures r == StudentManagement <==> view == "students"
    ensures r == ClassSchedule <==> view == "schedule"
    ensures r == Attendance <==> view == "attendance"
    ensures r == Messages <==> view == "messages"
    ensures r == BillingInvoice <==> view == "billing"
    ensures r == AnnouncementManagement <==> view == "announcements"
    ensures r == AdminDashboard <==> !IsFixedView(view) && role == "admin"
    ensures r == TeacherDashboard <==> !IsFixedView(view) && role != "admin"
  {
    match view
    case "dashboard" => RoleDashboard(role)
    case "students" => StudentManagement
    case "schedule" => ClassSchedule
    case "attendance" => Attendance
    case "messages" => Messages
    case "billing" => BillingInvoice
    case "announcements" => AnnouncementManagement
    case _ => RoleDashboard(role)
  }

  /** The fixed screens do not depend on the role. */
  lemma FixedViewsIgnoreRole(view: string, role1: string, role2: string)
    requires IsFixedView(view)
    ensures RenderActiveView(view, role1) == RenderActiveView(view, role2)
  {
  }

  /** What the page shows: the sign-in form, or the workspace with the
      sidebar, the content screen and the bottom bar. */
  datatype Page =
    | SignIn
    | Workspace(sidebar: seq<DesktopSidebar.NavItem>, content: Screen, bar: seq<MobileNavigation.NavItem>)

  function Render(authenticated: bool, role: string, view: string): (r: Page)
    ensures r == SignIn <==> !authenticated
    ensures r.Workspace? ==> r.content == RenderActiveView(view, role)
    ensures r.Workspace? ==> r.sidebar == DesktopSidebar.SidebarItems(role)
    ensures r.Workspace? ==> r.bar == MobileNavigation.BarItems(role)
  {
    if !authenticated then SignIn
    else Workspace(DesktopSidebar.SidebarItems(role), RenderActiveView(view, role),
                   MobileNavigation.BarItems(role))
  }

  /** Signed out, the page is the sign-in form whatever the role and the
      view. */
  lemma SignedOutShowsSignIn(role1: string, view1: string, role2: string, view2: string)
    ensures Render(false, role1, view1) == Render(false, role2, view2) == SignIn
  {
  }

  /** The name in the sign-in toast: "Admin" for `admin`, "Guru" for every
      other role. */
  function WelcomeName(role: string): (r: string)
    ensures r == "Admin" <==> role == "admin"
    ensures r == "Guru" <==> role != "admin"
  {
    if role == "admin" then "Admin" else "Guru"
  }

  /** The state of the `Index` page. Credentials are not checked: any
      e-mail and password sign in with the chosen role. */
  class Session {
    var authenticated: bool
    var role: string
    var activeView: string

    constructor()
      ensures !authenticated && role == "admin" && activeView == "dashboard"
    {
      authenticated := false;
      role := "admin";
      activeView := "dashboard";
    }

    /** `handleLogin`: signs in with the chosen role on the dashboard and
      returns the name the toast greets. */
    method Login(email: string, password: string, chosenRole: string) returns (welcome: string)
      modifies this
      ensures authenticated && role == chosenRole && activeView == "dashboard"
      ensures welcome == WelcomeName(chosenRole)
      ensures Current().content == RoleDashboard(chosenRole)
    {
      authenticated := true;
      role := chosenRole;
      activeView := "dashboard";
      welcome := WelcomeName(chosenRole);
    }

    /** `handleLogout`: signs out and resets the role to `admin`; the active
      view is kept. */
    method Logout()
      modifies this
      ensures !authenticated && role == "admin" && activeView == old(activeView)
      ensures Current() == SignIn
    {
      authenticated := false;
      role := "admin";
    }

    /** `handleNavigate`: only the active view changes. */
    method Navigate(view: string)
      modifies this
      ensures activeView == view
      ensures authenticated == old(authenticated) && role == old(role)
    {
      activeView := view;
    }

    function Current(): (r: Page)
      reads this
      ensures r == SignIn <==> !authenticated
      ensures r.Workspace? ==> r.content == RenderActiveView(activeView, role)
    {
      Render(authenticated, role, activeView)
    }
  }
}
