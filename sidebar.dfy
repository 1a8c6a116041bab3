// The side navigation: the role read off the address by the same rule as
// the top bar, five navigation items per role, one of them with a submenu,
// the submenu toggle, which item is highlighted, and the user card at the
// bottom. Navigation itself is left to the caller: a click that navigates
// returns the address it leads to.

module Sidebar {
  import opened Wrappers
  import opened Strings
  import opened Roles
  import opened Pages
  import Header

  datatype SubItem = SubItem(title: string, path: string)

  datatype NavItem = NavItem(title: string, icon: string, path: string, description: string,
                             submenu: Option<seq<SubItem>>)

  const JobsSubmenu: seq<SubItem> := [
    SubItem("Active Jobs", "/jobs/active"), SubItem("Draft Jobs", "/jobs/drafts"),
    SubItem("Archived Jobs", "/jobs/archived")
  ]

  const UsersSubmenu: seq<SubItem> := [
    SubItem("All Users", "/users/all"), SubItem("Job Seekers", "/users/job-seekers"),
    SubItem("Recruiters", "/users/recruiters"), SubItem("Administrators", "/users/admins")
  ]

  const JobSearchSubmenu: seq<SubItem> := [
    SubItem("Browse Jobs", "/job-search/browse"), SubItem("Saved Jobs", "/job-search/saved"),
    SubItem("Applications", "/job-search/applications")
  ]

  /** The position of the one item that opens a submenu: "Jobs", "User Management" or "Job Search". */
  function SubmenuIndex(role: Role): nat
  {
    if role == Admin then 1 else 3
  }

  /**
   * `getNavigationItems`: five items for every role, with distinct labels,
   * and exactly one of them, at `SubmenuIndex`, opens a submenu.
   */
  function NavigationItems(role: Role): (items: seq<NavItem>)
    ensures |items| == 5
    ensures forall i, j :: 0 <= i < j < 5 ==> items[i].title != items[j].title
    ensures forall i :: 0 <= i < 5 ==> (items[i].submenu.Some? <==> i == SubmenuIndex(role))
  {
    match role
    case Recruiter => [
      NavItem("Dashboard", "BarChart3", RecruiterDashboardPath, "Overview & Analytics", None),
      NavItem("Candidates", "Users", DiscoveryPath, "Discovery & Sourcing", None),
      NavItem("Pipeline", "GitBranch", PipelinePath, "Application Tracking", None),
      NavItem("Jobs", "Briefcase", "/jobs", "Job Management", Some(JobsSubmenu)),
      NavItem("Reports", "FileText", "/reports", "Analytics & Insights", None)
    ]
    case Admin => [
      NavItem("System Management", "Settings", AdminDashboardPath, "Platform Overview", None),
      NavItem("User Management", "Users", "/users", "Manage Users", Some(UsersSubmenu)),
      NavItem("Content Management", "BookOpen", "/content", "Courses & Resources", None),
      NavItem("System Health", "Activity", "/system-health", "Monitoring & Logs", None),
      NavItem("Analytics", "TrendingUp", "/analytics", "Platform Analytics", None)
    ]
    case JobSeeker => [
      NavItem("Dashboard", "Home", "/dashboard", "Your Progress", None),
      NavItem("Learning", "BookOpen", LearningPath, "Courses & Skills", None),
      NavItem("AI Career Coach", "MessageCircle", CoachPath, "Personalized Guidance", None),
      NavItem("Job Search", "Search", "/job-search", "Find Opportunities", Some(JobSearchSubmenu)),
      NavItem("Profile", "User", "/profile", "Manage Profile", None)
    ]
  }

  /** `isActive`: a button is highlighted when the address is exactly its page. */
  predicate IsActive(pathname: string, path: string)
  {
    pathname == path
  }

  /** `submenu.some(...)`: some entry of the submenu leads to the address. */
  function SomeSubPath(subs: seq<SubItem>, pathname: string): (found: bool)
    ensures found <==> exists k :: 0 <= k < |subs| && IsActive(pathname, subs[k].path)
  {
    if subs == [] then false
    else if IsActive(pathname, subs[0].path) then true
    else
      var found := SomeSubPath(subs[1..], pathname);
      assert found ==> exists k :: 1 <= k < |subs| && IsActive(pathname, subs[k].path) by {
        if found {
          var k :| 0 <= k < |subs[1..]| && IsActive(pathname, subs[1..][k].path);
          assert subs[k + 1] == subs[1..][k];
        }
      }
      found
  }

  /**
   * `isParentActive`: an item with a submenu is highlighted when one of its
   * entries is the current page, and then only; any other item when it is.
   */
  function IsParentActive(pathname: string, item: NavItem): (active: bool)
    ensures item.submenu.Some? ==> (active <==> exists k :: 0 <= k < |item.submenu.value| && item.submenu.value[k].path == pathname)
    ensures item.submenu.None? ==> (active <==> pathname == item.path)
  {
    match item.submenu
    case Some(subs) => SomeSubPath(subs, pathname)
    case None => IsActive(pathname, item.path)
  }

  /** A submenu parent's own address, never an entry of its submenu, does not highlight it. */
  lemma ParentPageNotHighlighted(role: Role)
    ensures !IsParentActive(NavigationItems(role)[SubmenuIndex(role)].path, NavigationItems(role)[SubmenuIndex(role)])
  {
    var item := NavigationItems(role)[SubmenuIndex(role)];
    var subs := item.submenu.value;
    forall k | 0 <= k < |subs|
      ensures subs[k].path != item.path
    {
      assert |subs[k].path| > |item.path|;
    }
  }

  /** A submenu is drawn under its item when the bar is wide and that item's label is the open one. */
  function SubmenuShown(isCollapsed: bool, activeSubmenu: Option<string>, item: NavItem): (shown: bool)
    ensures shown <==> !isCollapsed && item.submenu.Some? && activeSubmenu == Some(item.title)
  {
    !isCollapsed && item.submenu.Some? && activeSubmenu == Some(item.title)
  }

  /** The chevron beside a submenu parent points down exactly while its label is the open one. */
  function Chevron(activeSubmenu: Option<string>, item: NavItem): (icon: string)
    ensures icon == "ChevronDown" <==> activeSubmenu == Some(item.title)
  {
    if activeSubmenu == Some(item.title) then "ChevronDown" else "ChevronRight"
  }

  /** Since the open submenu is one label and labels are distinct, at most one item shows its submenu. */
  lemma AtMostOneSubmenuShown(role: Role, isCollapsed: bool, activeSubmenu: Option<string>, i: nat, j: nat)
    requires i < 5 && j < 5
    requires SubmenuShown(isCollapsed, activeSubmenu, NavigationItems(role)[i])
    requires SubmenuShown(isCollapsed, activeSubmenu, NavigationItems(role)[j])
    ensures i == j
  {
  }

  /** The card at the bottom: the mock user's name and title for the role. */
  function UserName(role: Role): string
  {
    match role
    case Recruiter => "Sarah Johnson"
    case Admin => "Admin User"
    case JobSeeker => "John Doe"
  }

  function UserTitle(role: Role): string
  {
    match role
    case Recruiter => "Senior Recruiter"
    case Admin => "System Administrator"
    case JobSeeker => "Software Developer"
  }

  /** Different roles see different users on the card, by name and by title. */
  lemma UserCardsDistinct(a: Role, b: Role)
    requires a != b
    ensures UserName(a) != UserName(b) && UserTitle(a) != UserTitle(b)
  {
  }

  class SideBar {
    var isCollapsed: bool
    var userRole: Role
    var activeSubmenu: Option<string>

    constructor ()
      ensures !isCollapsed && userRole == JobSeeker && activeSubmenu == None
    {
      isCollapsed := false;
      userRole := JobSeeker;
      activeSubmenu := None;
    }

    /** The address effect, the very rule the top bar applies. */
    method SyncRole(path: string)
      modifies this
      ensures userRole == DetectRole(path)
      ensures isCollapsed == old(isCollapsed) && activeSubmenu == old(activeSubmenu)
    {
      userRole := DetectRole(path);
    }

    /** The arrow button narrows or widens the bar; the open label is kept while narrow. */
    method ToggleCollapse()
      modifies this
      ensures isCollapsed == !old(isCollapsed)
      ensures userRole == old(userRole) && activeSubmenu == old(activeSubmenu)
    {
      isCollapsed := !isCollapsed;
    }

    /**
     * `handleNavigation`: an item with a submenu opens it, or closes it when
     * it is the open one, and goes nowhere; any other item leads to its page
     * and closes the open submenu.
     */
    method HandleNavigation(item: NavItem) returns (navigated: Option<string>)
      modifies this
      ensures item.submenu.Some? ==> (navigated == None
        && activeSubmenu == (if old(activeSubmenu) == Some(item.title) then None else Some(item.title)))
      ensures item.submenu.None? ==> navigated == Some(item.path) && activeSubmenu == None
      ensures isCollapsed == old(isCollapsed) && userRole == old(userRole)
    {
      if item.submenu.Some? {
        activeSubmenu := if activeSubmenu == Some(item.title) then None else Some(item.title);
        navigated := None;
      } else {
        navigated := Some(item.path);
        activeSubmenu := None;
      }
    }

    /** A submenu entry leads to its page and leaves the bar as it is. */
    method ClickSubItem(sub: SubItem) returns (navigated: string)
      ensures navigated == sub.path
    {
      navigated := sub.path;
    }
  }

  /**
   * A second click on the same submenu parent undoes the first only when its
   * submenu was the open one; had another item's submenu been open, two clicks
   * leave none open rather than that other one.
   */
  method ToggleTwice(bar: SideBar, item: NavItem) returns (first: Option<string>, second: Option<string>)
    requires item.submenu.Some?
    modifies bar
    ensures first == None && second == None
    ensures old(bar.activeSubmenu) == Some(item.title) ==> bar.activeSubmenu == Some(item.title)
    ensures old(bar.activeSubmenu) != Some(item.title) ==> bar.activeSubmenu == None
    ensures bar.isCollapsed == old(bar.isCollapsed) && bar.userRole == old(bar.userRole)
  {
    first := bar.HandleNavigation(item);
    second := bar.HandleNavigation(item);
  }

  // The role of each page the bar links to outside the top bar's own
  // buttons, one page at a time: the letters passed are ones the page lacks.

  lemma DashboardRole()
    ensures DetectRole("/dashboard") == JobSeeker
  {
    NoRoleWords("/dashboard", 'u', 'c', 'p', 'm');
  }

  lemma JobSearchRole()
    ensures DetectRole("/job-search") == JobSeeker
  {
    NoRoleWords("/job-search", 'u', 'd', 'p', 'd');
  }

  lemma ProfileRole()
    ensures DetectRole("/profile") == JobSeeker
  {
    NoRoleWords("/profile", 'u', 'c', 'a', 'a');
  }

  lemma ReportsRole()
    ensures DetectRole("/reports") == JobSeeker
  {
    NoRoleWords("/reports", 'u', 'c', 'a', 'a');
  }

  lemma ActiveJobsRole()
    ensures DetectRole("/jobs/active") == JobSeeker
  {
    NoRoleWords("/jobs/active", 'u', 'n', 'p', 'm');
  }

  lemma DraftJobsRole()
    ensures DetectRole("/jobs/drafts") == JobSeeker
  {
    NoRoleWords("/jobs/drafts", 'u', 'c', 'p', 'm');
  }

  lemma ArchivedJobsRole()
    ensures DetectRole("/jobs/archived") == JobSeeker
  {
    NoRoleWords("/jobs/archived", 'u', 'n', 'p', 'm');
  }

  lemma AllUsersRole()
    ensures DetectRole("/users/all") == JobSeeker
  {
    NoRoleWords("/users/all", 'c', 'c', 'c', 'd');
  }

  lemma JobSeekerUsersRole()
    ensures DetectRole("/users/job-seekers") == JobSeeker
  {
    NoRoleWords("/users/job-seekers", 'c', 'c', 'a', 'a');
  }

  lemma RecruiterUsersRole()
    ensures DetectRole("/users/recruiters") == Recruiter
  {
    OccurrenceContained("/users/recruiters", "recruiter", 7);
  }

  lemma AdminUsersRole()
    ensures DetectRole("/users/admins") == Admin
  {
    OccurrenceContained("/users/admins", "admin", 7);
    AdminWordWithoutRecruiterWords("/users/admins", 'c', 'c', 'c');
  }

  /** The paths of the job seeker's five items, in order. */
  const JobSeekerPaths: seq<string> := ["/dashboard", LearningPath, CoachPath, "/job-search", "/profile"]

  lemma JobSeekerPathsListed(i: nat)
    requires i < 5
    ensures NavigationItems(JobSeeker)[i].path == JobSeekerPaths[i]
  {
  }

  /** Each of those paths is detected as a job seeker's. */
  lemma JobSeekerItemsKeepRole(i: nat)
    requires i < 5
    ensures DetectRole(JobSeekerPaths[i]) == JobSeeker
  {
    if i == 0 {
      assert JobSeekerPaths[0] == "/dashboard";
      DashboardRole();
    } else if i == 1 {
      assert JobSeekerPaths[1] == LearningPath;
      Header.LearningPageRole();
    } else if i == 2 {
      assert JobSeekerPaths[2] == CoachPath;
      Header.CoachPageRole();
    } else if i == 3 {
      assert JobSeekerPaths[3] == "/job-search";
      JobSearchRole();
    } else {
      assert JobSeekerPaths[4] == "/profile";
      ProfileRole();
    }
  }

  /** So following any of the job seeker's items keeps both bars the job seeker's. */
  lemma JobSeekerNavKeepsRole(i: nat)
    requires i < 5
    ensures DetectRole(NavigationItems(JobSeeker)[i].path) == JobSeeker
  {
    JobSeekerPathsListed(i);
    JobSeekerItemsKeepRole(i);
  }

  /**
   * The recruiter's first three items lead to recruiter pages, but "Reports"
   * names no role word, so opening it turns both bars into the job seeker's.
   */
  lemma RecruiterItemsRoles(i: nat)
    requires i < 5 && i != 3
    ensures DetectRole(NavigationItems(Recruiter)[i].path) == if i < 3 then Recruiter else JobSeeker
  {
    Header.RecruiterPagesRoles();
    ReportsRole();
  }

  /** The same holds for every entry of the recruiter's "Jobs" submenu. */
  lemma JobsSubmenuLeavesRecruiterView(k: nat)
    requires k < |JobsSubmenu|
    ensures DetectRole(JobsSubmenu[k].path) == JobSeeker
  {
    if k == 0 {
      ActiveJobsRole();
    } else if k == 1 {
      DraftJobsRole();
    } else {
      ArchivedJobsRole();
    }
  }

  /** The role each entry of the administrator's "User Management" submenu leads to. */
  const UsersSubmenuRoles: seq<Role> := [JobSeeker, JobSeeker, Recruiter, Admin]

  /**
   * From the administrator's "User Management" submenu, "All Users" and "Job
   * Seekers" lead to a job seeker's bars and "Recruiters" to a recruiter's;
   * only "Administrators" keeps the administrator's.
   */
  lemma UsersSubmenuSwitchesRole(k: nat)
    requires k < |UsersSubmenu|
    ensures DetectRole(UsersSubmenu[k].path) == UsersSubmenuRoles[k]
  {
    if k == 0 {
      assert UsersSubmenu[0].path == "/users/all";
      AllUsersRole();
    } else if k == 1 {
      assert UsersSubmenu[1].path == "/users/job-seekers";
      JobSeekerUsersRole();
    } else if k == 2 {
      assert UsersSubmenu[2].path == "/users/recruiters";
      RecruiterUsersRole();
    } else {
      assert UsersSubmenu[3].path == "/users/admins";
      AdminUsersRole();
    }
  }
}
