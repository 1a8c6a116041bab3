// The top bar shared by every page: the role guessed from the address, the
// role's name, icon and three quick actions, the notification badge and
// the search box. Navigation and the console logging of the handlers are
// left to the caller; the address is a parameter.

/**
 * The addresses of the application's pages that the navigation leads to;
 * three are written in pieces so that the role word each carries stands apart.
 */
module Pages {
  const LearningPath: string := "/course-detail-learning"
  const CoachPath: string := "/ai-career-coach-chat"
  const RecruiterDashboardPath: string := "/recruiter-dashboard"
  const DiscoveryPath: string := "/" + "candidate-discovery" + "-sourcing"
  const PipelinePath: string := "/" + "application-tracking" + "-pipeline"
  const AdminDashboardPath: string := "/" + "admin" + "-dashboard-system-management"
}

/** Who the application takes the visitor for, read off the address. */
module Roles {
  import opened Strings

  datatype Role = JobSeeker | Recruiter | Admin

  /**
   * The role detection effect, shared word for word by the sidebar: the
   * recruiter words win, then "admin", else job seeker.
   */
  function DetectRole(path: string): (r: Role)
    ensures r == Recruiter <==> (Contains(path, "recruiter") || Contains(path, "candidate-discovery")
      || Contains(path, "application-tracking"))
    ensures r == Admin <==> (!Contains(path, "recruiter") && !Contains(path, "candidate-discovery")
      && !Contains(path, "application-tracking") && Contains(path, "admin"))
  {
    if Contains(path, "recruiter") || Contains(path, "candidate-discovery") || Contains(path, "application-tracking") then Recruiter
    else if Contains(path, "admin") then Admin
    else JobSeeker
  }

  /**
   * A path that lacks one letter of each role word is a job seeker's. The
   * letters are witnesses: `a` from "recruiter", `b` from
   * "candidate-discovery", `c` from "application-tracking", `d` from "admin".
   */
  lemma NoRoleWords(path: string, a: char, b: char, c: char, d: char)
    requires a in "recruiter" && a !in path && b in "candidate-discovery" && b !in path
    requires c in "application-tracking" && c !in path && d in "admin" && d !in path
    ensures DetectRole(path) == JobSeeker
  {
    LacksChar(path, "recruiter", a);
    LacksChar(path, "candidate-discovery", b);
    LacksChar(path, "application-tracking", c);
    LacksChar(path, "admin", d);
  }

  /** A path that names a recruiter word is a recruiter's, whatever else it names. */
  lemma RecruiterWordWins(path: string, word: string)
    requires word in ["recruiter", "candidate-discovery", "application-tracking"] && Contains(path, word)
    ensures DetectRole(path) == Recruiter
  {
  }

  /** A path that names "admin" and lacks a letter of each recruiter word is an administrator's. */
  lemma AdminWordWithoutRecruiterWords(path: string, a: char, b: char, c: char)
    requires Contains(path, "admin")
    requires a in "recruiter" && a !in path && b in "candidate-discovery" && b !in path
    requires c in "application-tracking" && c !in path
    ensures DetectRole(path) == Admin
  {
    LacksChar(path, "recruiter", a);
    LacksChar(path, "candidate-discovery", b);
    LacksChar(path, "application-tracking", c);
  }
}

module Header {
  import opened Wrappers
  import opened Strings
  import opened Pages
  import opened Roles

  /** The learning page's address has every letter of "recruiter", but never "re" side by side. */
  lemma LearningPageLetters()
    ensures !HasPair(LearningPath, 'r', 'e')
    ensures 'v' !in LearningPath && 'p' !in LearningPath && 'm' !in LearningPath
  {
    var s := LearningPath;
    assert forall i :: 0 <= i < |s| - 1 && s[i] == 'r' ==> s[i + 1] != 'e';
  }

  lemma LearningPageRole()
    ensures DetectRole(LearningPath) == JobSeeker
  {
    LearningPageLetters();
    LacksPair(LearningPath, "recruiter", 0);
    LacksChar(LearningPath, "candidate-discovery", 'v');
    LacksChar(LearningPath, "application-tracking", 'p');
    LacksChar(LearningPath, "admin", 'm');
  }

  lemma CoachPageRole()
    ensures DetectRole(CoachPath) == JobSeeker
  {
    NoRoleWords(CoachPath, 'u', 'd', 'p', 'd');
  }

  /** Each recruiter page's address names its recruiter word right after the slash. */
  lemma RecruiterPagesRoles()
    ensures DetectRole(RecruiterDashboardPath) == Recruiter
    ensures DetectRole(DiscoveryPath) == Recruiter
    ensures DetectRole(PipelinePath) == Recruiter
  {
    OccurrenceContained(RecruiterDashboardPath, "recruiter", 1);
    OccurrenceContained(DiscoveryPath, "candidate-discovery", 1);
    OccurrenceContained(PipelinePath, "application-tracking", 1);
  }

  /** The administration page's address says "admin" and has neither a 'u' nor a 'c'. */
  lemma AdminPageWord()
    ensures Contains(AdminDashboardPath, "admin")
  {
    assert AdminDashboardPath[1..6] == "admin" by { assert ("/" + "admin")[1..] == "admin"; }
    OccurrenceContained(AdminDashboardPath, "admin", 1);
  }

  lemma AdminPageLetters()
    ensures 'u' !in AdminDashboardPath && 'c' !in AdminDashboardPath
  {
  }

  lemma AdminPageRole()
    ensures DetectRole(AdminDashboardPath) == Admin
  {
    AdminPageWord();
    AdminPageLetters();
    AdminWordWithoutRecruiterWords(AdminDashboardPath, 'u', 'c', 'c');
  }

  /** A button of the desktop navigation. */
  datatype NavButton = NavButton(title: string, icon: string, path: string)

  /** The desktop navigation each role sees. */
  function NavButtons(role: Role): seq<NavButton>
  {
    match role
    case JobSeeker => [NavButton("Learning", "BookOpen", LearningPath), NavButton("AI Coach", "MessageCircle", CoachPath)]
    case Recruiter => [NavButton("Dashboard", "BarChart3", RecruiterDashboardPath), NavButton("Candidates", "Search", DiscoveryPath),
                       NavButton("Pipeline", "GitBranch", PipelinePath)]
    case Admin => [NavButton("System Management", "Settings", AdminDashboardPath)]
  }

  /** Following any of the header's own buttons lands on a page detected as the same role. */
  lemma NavKeepsRole(role: Role, i: nat)
    requires i < |NavButtons(role)|
    ensures DetectRole(NavButtons(role)[i].path) == role
  {
    var path := NavButtons(role)[i].path;
    match role
    case JobSeeker =>
      assert path == LearningPath || path == CoachPath;
      LearningPageRole();
      CoachPageRole();
    case Recruiter =>
      assert path == RecruiterDashboardPath || path == DiscoveryPath || path == PipelinePath;
      RecruiterPagesRoles();
    case Admin =>
      assert path == AdminDashboardPath;
      AdminPageRole();
  }

  /** A button is highlighted exactly when the address is its page. */
  function ButtonVariant(pathname: string, b: NavButton): (variant: string)
    ensures variant == "primary" <==> pathname == b.path
  {
    if pathname == b.path then "primary" else "ghost"
  }

  /** The header's label for the role. */
  function RoleDisplayName(role: Role): string
  {
    match role
    case Recruiter => "Recruiter"
    case Admin => "Administrator"
    case JobSeeker => "Job Seeker"
  }

  function RoleIcon(role: Role): string
  {
    match role
    case Recruiter => "Briefcase"
    case Admin => "Shield"
    case JobSeeker => "User"
  }

  /** Different roles are told apart by both their label and their icon. */
  lemma RoleBadgesDistinct(a: Role, b: Role)
    requires a != b
    ensures RoleDisplayName(a) != RoleDisplayName(b) && RoleIcon(a) != RoleIcon(b)
  {
  }

  datatype QuickAction = QuickAction(title: string, icon: string)

  /** `getQuickActions`: three per role. */
  function QuickActions(role: Role): (actions: seq<QuickAction>)
    ensures |actions| == 3
    ensures forall i, j :: 0 <= i < j < 3 ==> actions[i].title != actions[j].title
  {
    match role
    case Recruiter => [QuickAction("Post New Job", "Plus"), QuickAction("Add Candidate", "UserPlus"),
                       QuickAction("Schedule Interview", "Calendar")]
    case Admin => [QuickAction("Add User", "UserPlus"), QuickAction("System Settings", "Settings"),
                   QuickAction("Generate Report", "FileText")]
    case JobSeeker => [QuickAction("Enroll in Course", "BookOpen"), QuickAction("Update Profile", "User"),
                       QuickAction("Schedule Coaching", "MessageCircle")]
  }

  /** No two roles share a quick action, so the menu alone tells the role. */
  lemma QuickActionsTellRole(a: Role, b: Role, i: nat, j: nat)
    requires i < 3 && j < 3 && QuickActions(a)[i] == QuickActions(b)[j]
    ensures a == b
  {
  }

  datatype Notification = Notification(id: int, title: string, message: string, kind: string, time: string)

  const MockNotifications: seq<Notification> := [
    Notification(1, "New course available", "Advanced React Development is now live", "info", "2 min ago"),
    Notification(2, "Application update", "Your application status has changed", "success", "1 hour ago"),
    Notification(3, "System maintenance", "Scheduled maintenance tonight", "warning", "3 hours ago")
  ]

  /** The dot beside a notification: success and warning have their own colour, everything else the primary one. */
  function NotificationDot(kind: string): (colour: string)
    ensures colour == "bg-primary" <==> kind != "success" && kind != "warning"
  {
    if kind == "success" then "bg-success" else if kind == "warning" then "bg-warning" else "bg-primary"
  }

  class TopBar {
    var isSearchExpanded: bool
    var searchQuery: string
    var notifications: seq<Notification>
    var unreadCount: nat
    var isNotificationOpen: bool
    var isQuickActionsOpen: bool
    var isMobileMenuOpen: bool
    var userRole: Role

    constructor ()
      ensures !isSearchExpanded && searchQuery == "" && notifications == [] && unreadCount == 3
      ensures !isNotificationOpen && !isQuickActionsOpen && !isMobileMenuOpen && userRole == JobSeeker
    {
      isSearchExpanded := false;
      searchQuery := "";
      notifications := [];
      unreadCount := 3;
      isNotificationOpen := false;
      isQuickActionsOpen := false;
      isMobileMenuOpen := false;
      userRole := JobSeeker;
    }

    /** The mount effect loads the three sample notifications; the badge count is separate state and stays. */
    method LoadNotifications()
      modifies this
      ensures notifications == MockNotifications && unreadCount == old(unreadCount)
      ensures isSearchExpanded == old(isSearchExpanded) && searchQuery == old(searchQuery)
      ensures isNotificationOpen == old(isNotificationOpen) && isQuickActionsOpen == old(isQuickActionsOpen)
      ensures isMobileMenuOpen == old(isMobileMenuOpen) && userRole == old(userRole)
    {
      notifications := MockNotifications;
    }

    /** The address effect. */
    method SyncRole(path: string)
      modifies this
      ensures userRole == DetectRole(path)
      ensures isSearchExpanded == old(isSearchExpanded) && searchQuery == old(searchQuery)
      ensures notifications == old(notifications) && unreadCount == old(unreadCount)
      ensures isNotificationOpen == old(isNotificationOpen) && isQuickActionsOpen == old(isQuickActionsOpen)
      ensures isMobileMenuOpen == old(isMobileMenuOpen)
    {
      userRole := DetectRole(path);
    }

    /** `handleSearch`: it acts, on the query as typed, only when the trimmed query is not empty. */
    function SearchRequest(): (request: Option<string>)
      reads this
      ensures request.None? <==> AllSpace(searchQuery)
      ensures request.Some? ==> request.value == searchQuery
    {
      TrimEmptyIff(searchQuery);
      if Trim(searchQuery) != "" then Some(searchQuery) else None
    }

    method ExpandSearch()
      modifies this
      ensures isSearchExpanded && searchQuery == old(searchQuery)
      ensures notifications == old(notifications) && unreadCount == old(unreadCount) && userRole == old(userRole)
      ensures isNotificationOpen == old(isNotificationOpen) && isQuickActionsOpen == old(isQuickActionsOpen)
      ensures isMobileMenuOpen == old(isMobileMenuOpen)
    {
      isSearchExpanded := true;
    }

    method TypeQuery(text: string)
      modifies this
      ensures searchQuery == text && isSearchExpanded == old(isSearchExpanded)
      ensures notifications == old(notifications) && unreadCount == old(unreadCount) && userRole == old(userRole)
      ensures isNotificationOpen == old(isNotificationOpen) && isQuickActionsOpen == old(isQuickActionsOpen)
      ensures isMobileMenuOpen == old(isMobileMenuOpen)
    {
      searchQuery := text;
    }

    /** The close button collapses the box and forgets the query. */
    method CancelSearch()
      modifies this
      ensures !isSearchExpanded && searchQuery == ""
      ensures notifications == old(notifications) && unreadCount == old(unreadCount) && userRole == old(userRole)
      ensures isNotificationOpen == old(isNotificationOpen) && isQuickActionsOpen == old(isQuickActionsOpen)
      ensures isMobileMenuOpen == old(isMobileMenuOpen)
    {
      isSearchExpanded := false;
      searchQuery := "";
    }

    method ToggleQuickActions()
      modifies this
      ensures isQuickActionsOpen == !old(isQuickActionsOpen)
      ensures isSearchExpanded == old(isSearchExpanded) && searchQuery == old(searchQuery)
      ensures notifications == old(notifications) && unreadCount == old(unreadCount) && userRole == old(userRole)
      ensures isNotificationOpen == old(isNotificationOpen) && isMobileMenuOpen == old(isMobileMenuOpen)
    {
      isQuickActionsOpen := !isQuickActionsOpen;
    }

    /** Picking a quick action runs it, here by returning it, and closes the menu. */
    method PickQuickAction(i: nat) returns (action: QuickAction)
      requires i < 3
      modifies this
      ensures action == QuickActions(userRole)[i] && !isQuickActionsOpen
      ensures isSearchExpanded == old(isSearchExpanded) && searchQuery == old(searchQuery)
      ensures notifications == old(notifications) && unreadCount == old(unreadCount) && userRole == old(userRole)
      ensures isNotificationOpen == old(isNotificationOpen) && isMobileMenuOpen == old(isMobileMenuOpen)
    {
      action := QuickActions(userRole)[i];
      isQuickActionsOpen := false;
    }

    method ToggleNotifications()
      modifies this
      ensures isNotificationOpen == !old(isNotificationOpen)
      ensures isSearchExpanded == old(isSearchExpanded) && searchQuery == old(searchQuery)
      ensures notifications == old(notifications) && unreadCount == old(unreadCount) && userRole == old(userRole)
      ensures isQuickActionsOpen == old(isQuickActionsOpen) && isMobileMenuOpen == old(isMobileMenuOpen)
    {
      isNotificationOpen := !isNotificationOpen;
    }

    /** "Mark all read" zeroes the badge and keeps the list. */
    method MarkAllRead()
      modifies this
      ensures unreadCount == 0 && notifications == old(notifications)
      ensures isSearchExpanded == old(isSearchExpanded) && searchQuery == old(searchQuery) && userRole == old(userRole)
      ensures isNotificationOpen == old(isNotificationOpen) && isQuickActionsOpen == old(isQuickActionsOpen)
      ensures isMobileMenuOpen == old(isMobileMenuOpen)
    {
      unreadCount := 0;
    }

    /** Clicking a notification closes the panel; it does not lower the count. */
    method ClickNotification(n: Notification)
      modifies this
      ensures !isNotificationOpen && unreadCount == old(unreadCount) && notifications == old(notifications)
      ensures isSearchExpanded == old(isSearchExpanded) && searchQuery == old(searchQuery) && userRole == old(userRole)
      ensures isQuickActionsOpen == old(isQuickActionsOpen) && isMobileMenuOpen == old(isMobileMenuOpen)
    {
      isNotificationOpen := false;
    }

    method ToggleMobileMenu()
      modifies this
      ensures isMobileMenuOpen == !old(isMobileMenuOpen)
      ensures isSearchExpanded == old(isSearchExpanded) && searchQuery == old(searchQuery)
      ensures notifications == old(notifications) && unreadCount == old(unreadCount) && userRole == old(userRole)
      ensures isNotificationOpen == old(isNotificationOpen) && isQuickActionsOpen == old(isQuickActionsOpen)
    {
      isMobileMenuOpen := !isMobileMenuOpen;
    }

    /**
     * A button of the mobile menu: the menu lists the role's buttons of the
     * desktop bar, and a click leads to the button's page and closes the menu.
     */
    method MobileNavigate(i: nat) returns (navigated: string)
      requires i < |NavButtons(userRole)|
      modifies this
      ensures navigated == NavButtons(old(userRole))[i].path && DetectRole(navigated) == old(userRole)
      ensures !isMobileMenuOpen
      ensures isSearchExpanded == old(isSearchExpanded) && searchQuery == old(searchQuery)
      ensures notifications == old(notifications) && unreadCount == old(unreadCount) && userRole == old(userRole)
      ensures isNotificationOpen == old(isNotificationOpen) && isQuickActionsOpen == old(isQuickActionsOpen)
    {
      navigated := NavButtons(userRole)[i].path;
      NavKeepsRole(userRole, i);
      isMobileMenuOpen := false;
    }

    /** The red badge shows the count, and only while it is positive. */
    function BadgeShown(): (shown: bool)
      reads this
      ensures shown <==> unreadCount != 0
    {
      unreadCount > 0
    }
  }

  /**
   * From the first render the badge shows; after "Mark all read" and a click
   * on a notification it is gone, and the list is still there.
   */
  method MarkReadHidesBadge() returns (bar: TopBar)
    ensures fresh(bar) && !bar.BadgeShown() && bar.notifications == MockNotifications
  {
    bar := new TopBar();
    bar.LoadNotifications();
    assert bar.BadgeShown();
    bar.ToggleNotifications();
    bar.MarkAllRead();
    bar.ClickNotification(MockNotifications[0]);
  }
}
