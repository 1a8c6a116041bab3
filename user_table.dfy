// The admin dashboard's user table: search and role filter, the last-login
// sort, row and select-all checkboxes, bulk actions and the last-login text.
// A `lastLogin` is held as the millisecond timestamp its ISO text parses to.

module UserTable {
  import opened Wrappers
  import opened Strings
  import opened Lists
  import opened Sorting
  import opened Clock

  datatype User = User(id: int, name: string, email: string, role: string, status: string, lastLogin: int, activityScore: int)

  const Users: seq<User> := [
    User(1, "Sarah Johnson", "sarah.johnson@email.com", "recruiter", "active", 1705314600000, 95),
    User(2, "Michael Chen", "michael.chen@email.com", "job-seeker", "active", 1705310100000, 87),
    User(3, "Emily Rodriguez", "emily.rodriguez@email.com", "admin", "active", 1705319100000, 98),
    User(4, "David Thompson", "david.thompson@email.com", "job-seeker", "suspended", 1704896400000, 45),
    User(5, "Lisa Wang", "lisa.wang@email.com", "recruiter", "inactive", 1704472200000, 72)
  ]

  /** The row filter: the query in the name or the email, ignoring case, and the chosen role unless it is 'all'. */
  predicate MatchesUser(u: User, query: string, filterRole: string)
  {
    (IncludesCI(u.name, query) || IncludesCI(u.email, query)) && (filterRole == "all" || u.role == filterRole)
  }

  function MatchesAt(query: string, filterRole: string): User -> bool
  {
    (u: User) => MatchesUser(u, query, filterRole)
  }

  /** `filteredUsers`. */
  function FilteredUsers(users: seq<User>, query: string, filterRole: string): (r: seq<User>)
    ensures forall u :: u in r <==> u in users && MatchesUser(u, query, filterRole)
    ensures IsSubsequence(r, users)
  {
    FilterMembers(users, MatchesAt(query, filterRole));
    Filter(users, MatchesAt(query, filterRole))
  }

  /** The empty query with 'all' roles keeps every user in place. */
  lemma NoFilterKeepsAll(users: seq<User>)
    ensures FilteredUsers(users, "", "all") == users
  {
    forall u | u in users ensures MatchesAt("", "all")(u) {
      EmptyQueryMatches(u.name);
    }
    FilterKeepsAll(users, MatchesAt("", "all"));
  }

  datatype SortOrder = Asc | Desc

  /** The table's sort column and order; their setters are never called. */
  const InitialSortOrder: SortOrder := Desc

  function LastLogin(u: User): int
  {
    u.lastLogin
  }

  /**
   * `sortedUsers` on the last-login column. The comparator never answers 0,
   * so there is no promise about users with the same last login; the model
   * keeps them in their filtered order.
   */
  function SortedUsers(filtered: seq<User>, order: SortOrder): (r: seq<User>)
    ensures multiset(r) == multiset(filtered)
    ensures order == Asc ==> SortedBy(r, LastLogin)
    ensures order == Desc ==> SortedDesc(r, LastLogin)
  {
    if order == Asc then SortBy(filtered, LastLogin) else SortDesc(filtered, LastLogin)
  }

  /**
   * Where the last logins differ, the descending order is the only one
   * possible, so any correct sort shows the same rows as the model.
   */
  lemma SortedUsersDetermined(filtered: seq<User>, shown: seq<User>)
    requires forall i, j :: 0 <= i < j < |filtered| ==> filtered[i].lastLogin != filtered[j].lastLogin
    requires multiset(shown) == multiset(filtered) && SortedDesc(shown, LastLogin)
    ensures shown == SortedUsers(filtered, Desc)
  {
    var r := SortedUsers(filtered, Desc);
    forall x, y | x in r && y in r && LastLogin(x) == LastLogin(y) ensures x == y {
      assert x in multiset(filtered) && y in multiset(filtered);
      var p :| 0 <= p < |filtered| && filtered[p] == x;
      var q :| 0 <= q < |filtered| && filtered[q] == y;
      assert p == q;
    }
    SortedDescUnique(r, shown, LastLogin);
  }

  /** What the last-login cell shows. */
  datatype LoginText = LoggedInJustNow | LoggedInHoursAgo(h: nat) | LoggedInOn

  /** `formatLastLogin`: the whole hours elapsed, rounded down. */
  function LoginAge(now: int, lastLogin: int): (t: LoginText)
    ensures t == LoggedInJustNow <==> now - lastLogin < HourMs
    ensures t.LoggedInHoursAgo? ==> t.h == (now - lastLogin) / HourMs && 1 <= t.h < 24
    ensures t == LoggedInOn <==> now - lastLogin >= DayMs
  {
    var hours := (now - lastLogin) / HourMs;
    if hours < 1 then LoggedInJustNow
    else if hours < 24 then LoggedInHoursAgo(hours)
    else LoggedInOn
  }

  /** The printed text; past a day it is the date in the browser's locale, passed in as `localeDate`. */
  function FormatLastLogin(now: int, lastLogin: int, localeDate: string): string
  {
    match LoginAge(now, lastLogin)
    case LoggedInJustNow => AgoText(JustNow)
    case LoggedInHoursAgo(h) => AgoText(Hours(h))
    case LoggedInOn => localeDate
  }

  /** Below a day the cell reads like the activity lists' text, and the hour count reads back. */
  lemma LastLoginReadsBack(now: int, lastLogin: int, localeDate: string)
    requires now - lastLogin < DayMs
    ensures now - lastLogin < HourMs ==> FormatLastLogin(now, lastLogin, localeDate) == "Just now"
    ensures now - lastLogin >= HourMs ==> ParseInt(FormatLastLogin(now, lastLogin, localeDate)) == Some((now - lastLogin) / HourMs)
  {
    if now - lastLogin >= HourMs {
      AgoTextReadsBack(Hours((now - lastLogin) / HourMs));
    }
  }

  function Ids(us: seq<User>): (ids: seq<int>)
    ensures |ids| == |us| && forall i :: 0 <= i < |us| ==> ids[i] == us[i].id
  {
    seq(|us|, i requires 0 <= i < |us| => us[i].id)
  }

  class Table {
    const users: seq<User>
    var searchQuery: string
    var selectedUsers: seq<int>
    var filterRole: string

    constructor ()
      ensures users == Users && searchQuery == "" && selectedUsers == [] && filterRole == "all"
    {
      users := Users;
      searchQuery := "";
      selectedUsers := [];
      filterRole := "all";
    }

    function Filtered(): seq<User>
      reads this
    {
      FilteredUsers(users, searchQuery, filterRole)
    }

    function Shown(): seq<User>
      reads this
    {
      SortedUsers(Filtered(), InitialSortOrder)
    }

    /** The header checkbox is ticked when the selection is as long as a non-empty filtered list. */
    function AllChecked(): (checked: bool)
      reads this
      ensures checked ==> |selectedUsers| > 0
    {
      |selectedUsers| == |Filtered()| && |Filtered()| > 0
    }

    method Search(query: string)
      modifies this
      ensures searchQuery == query && selectedUsers == old(selectedUsers) && filterRole == old(filterRole)
    {
      searchQuery := query;
    }

    method ChooseRole(role: string)
      modifies this
      ensures filterRole == role && selectedUsers == old(selectedUsers) && searchQuery == old(searchQuery)
    {
      filterRole := role;
    }

    /** `handleUserSelect`: a row checkbox adds or removes that one id. */
    method SelectUser(id: int)
      modifies this
      ensures selectedUsers == Toggle(old(selectedUsers), id)
      ensures searchQuery == old(searchQuery) && filterRole == old(filterRole)
    {
      selectedUsers := Toggle(selectedUsers, id);
    }

    /**
     * `handleSelectAll`: clears the selection when it is as long as the
     * filtered list (whichever ids it holds), otherwise selects exactly the
     * filtered ids.
     */
    method SelectAll()
      modifies this
      ensures |old(selectedUsers)| == |Filtered()| ==> selectedUsers == []
      ensures |old(selectedUsers)| != |Filtered()| ==> selectedUsers == Ids(Filtered())
      ensures searchQuery == old(searchQuery) && filterRole == old(filterRole)
    {
      var filtered := Filtered();
      if |selectedUsers| == |filtered| {
        selectedUsers := [];
      } else {
        selectedUsers := Ids(filtered);
      }
    }

    /** Suspend, activate and delete only clear the selection. */
    method BulkAction(action: string)
      modifies this
      ensures selectedUsers == []
      ensures searchQuery == old(searchQuery) && filterRole == old(filterRole)
    {
      selectedUsers := [];
    }
  }
}
