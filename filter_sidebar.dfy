// The filter sidebar of the candidate-discovery page: the include-or-remove
// toggles of its four choice lists, the salary boxes, clearing, the
// active-filter count and the save-search dialog. The sidebar edits a local
// copy of the filters, which it hands to the page after a debounce delay.

module FilterSidebar {
  import opened Wrappers
  import opened Strings
  import opened Lists
  import opened DiscoverySearch
  import DiscoveryPage

  function ToggleSkill(f: SearchFilters, skill: string): (r: SearchFilters)
    ensures r.(skills := f.skills) == f
    ensures skill in r.skills <==> skill !in f.skills
    ensures forall x :: x != skill ==> (x in r.skills <==> x in f.skills)
  {
    f.(skills := Toggle(f.skills, skill))
  }

  function ToggleExperience(f: SearchFilters, level: string): (r: SearchFilters)
    ensures r.(experience := f.experience) == f
    ensures level in r.experience <==> level !in f.experience
    ensures forall x :: x != level ==> (x in r.experience <==> x in f.experience)
  {
    f.(experience := Toggle(f.experience, level))
  }

  /** The location toggle changes the types and keeps the cities text. */
  function ToggleLocationType(f: SearchFilters, t: string): (r: SearchFilters)
    ensures r.location.cities == f.location.cities && r.(location := f.location) == f
    ensures t in r.location.types <==> t !in f.location.types
    ensures forall x :: x != t ==> (x in r.location.types <==> x in f.location.types)
  {
    f.(location := f.location.(types := Toggle(f.location.types, t)))
  }

  function ToggleAvailability(f: SearchFilters, a: string): (r: SearchFilters)
    ensures r.(availability := f.availability) == f
    ensures a in r.availability <==> a !in f.availability
    ensures forall x :: x != a ==> (x in r.availability <==> x in f.availability)
  {
    f.(availability := Toggle(f.availability, a))
  }

  datatype SalaryField = Min | Max

  /** `handleSalaryChange`: one bound is replaced, the other kept. */
  function SetSalary(f: SearchFilters, field: SalaryField, value: string): (r: SearchFilters)
    ensures field == Min ==> r.salary == SalaryBounds(value, f.salary.max)
    ensures field == Max ==> r.salary == SalaryBounds(f.salary.min, value)
    ensures r.(salary := f.salary) == f
  {
    match field
    case Min => f.(salary := f.salary.(min := value))
    case Max => f.(salary := f.salary.(max := value))
  }

  /** The cities box keeps the selected location types. */
  function SetCities(f: SearchFilters, text: string): (r: SearchFilters)
    ensures r.location == LocationFilter(f.location.types, text)
    ensures r.(location := f.location) == f
  {
    f.(location := f.location.(cities := text))
  }

  /** The match-score slider (its value text always reads as a number). */
  function SetMatchScore(f: SearchFilters, score: int): (r: SearchFilters)
    ensures r.matchScore == score && r.(matchScore := f.matchScore) == f
  {
    f.(matchScore := score)
  }

  /** Toggling a value that was not selected, and toggling it again, gives back the same filters. */
  lemma ToggleTwiceRestoresFilters(f: SearchFilters, v: string)
    ensures v !in f.skills ==> ToggleSkill(ToggleSkill(f, v), v) == f
    ensures v !in f.experience ==> ToggleExperience(ToggleExperience(f, v), v) == f
    ensures v !in f.location.types ==> ToggleLocationType(ToggleLocationType(f, v), v) == f
    ensures v !in f.availability ==> ToggleAvailability(ToggleAvailability(f, v), v) == f
  {
    if v !in f.skills { ToggleTwiceRestores(f.skills, v); }
    if v !in f.experience { ToggleTwiceRestores(f.experience, v); }
    if v !in f.location.types { ToggleTwiceRestores(f.location.types, v); }
    if v !in f.availability { ToggleTwiceRestores(f.availability, v); }
  }

  /** The toggles keep every choice list free of duplicates. */
  lemma TogglesKeepListsDistinct(f: SearchFilters, v: string)
    requires Distinct(f.skills) && Distinct(f.experience) && Distinct(f.location.types) && Distinct(f.availability)
    ensures Distinct(ToggleSkill(f, v).skills)
    ensures Distinct(ToggleExperience(f, v).experience)
    ensures Distinct(ToggleLocationType(f, v).location.types)
    ensures Distinct(ToggleAvailability(f, v).availability)
  {
    ToggleDistinct(f.skills, v);
    ToggleDistinct(f.experience, v);
    ToggleDistinct(f.location.types, v);
    ToggleDistinct(f.availability, v);
  }

  /** `handleClearFilters`. */
  function Cleared(): (r: SearchFilters)
    ensures r.skills == [] && r.experience == [] && r.availability == []
    ensures r.salary == SalaryBounds("", "") && r.location == LocationFilter([], "") && r.matchScore == 0
  {
    SearchFilters([], [], SalaryBounds("", ""), LocationFilter([], ""), [], 0)
  }

  lemma ClearedIsInitial()
    ensures Cleared() == NoFilters
  {
  }

  /** The six counted dimensions of the filters. */
  datatype Dimension = Skills | Experience | Salary | Location | Availability | MatchScore

  /** A dimension counts when its list is non-empty, a salary box or the cities box is non-empty, or the match floor is positive. */
  predicate IsSet(f: SearchFilters, d: Dimension)
  {
    match d
    case Skills => |f.skills| > 0
    case Experience => |f.experience| > 0
    case Salary => f.salary.min != "" || f.salary.max != ""
    case Location => |f.location.types| > 0 || f.location.cities != ""
    case Availability => |f.availability| > 0
    case MatchScore => f.matchScore > 0
  }

  function Listed(b: bool, d: Dimension): seq<Dimension>
  {
    if b then [d] else []
  }

  /** The dimensions in use, in the order the sidebar tests them. */
  function ActiveDimensions(f: SearchFilters): (ds: seq<Dimension>)
    ensures |ds| <= 6
    ensures forall d :: d in ds <==> IsSet(f, d)
  {
    Listed(IsSet(f, Skills), Skills) + Listed(IsSet(f, Experience), Experience)
      + Listed(IsSet(f, Salary), Salary) + Listed(IsSet(f, Location), Location)
      + Listed(IsSet(f, Availability), Availability) + Listed(IsSet(f, MatchScore), MatchScore)
  }

  /**
   * `getActiveFilterCount`: one increment per dimension in use, so the
   * count is the number of dimensions in use, between 0 and 6.
   */
  method ActiveFilterCount(f: SearchFilters) returns (count: nat)
    ensures count == |ActiveDimensions(f)|
    ensures count <= 6
    ensures count == 0 <==> forall d :: !IsSet(f, d)
  {
    count := 0;
    if |f.skills| > 0 { count := count + 1; }
    ghost var ds := Listed(IsSet(f, Skills), Skills);
    assert count == |ds|;
    if |f.experience| > 0 { count := count + 1; }
    ds := ds + Listed(IsSet(f, Experience), Experience);
    assert count == |ds|;
    if f.salary.min != "" || f.salary.max != "" { count := count + 1; }
    ds := ds + Listed(IsSet(f, Salary), Salary);
    assert count == |ds|;
    if |f.location.types| > 0 || f.location.cities != "" { count := count + 1; }
    ds := ds + Listed(IsSet(f, Location), Location);
    assert count == |ds|;
    if |f.availability| > 0 { count := count + 1; }
    ds := ds + Listed(IsSet(f, Availability), Availability);
    assert count == |ds|;
    if f.matchScore > 0 { count := count + 1; }
    ds := ds + Listed(IsSet(f, MatchScore), MatchScore);
    assert count == |ds|;
    assert ds == ActiveDimensions(f);
    if count == 0 {
      forall d ensures !IsSet(f, d) {
        assert d !in ActiveDimensions(f);
      }
    } else {
      assert ActiveDimensions(f)[0] in ActiveDimensions(f);
    }
  }

  /** Nothing counts after clearing. */
  lemma ClearedCountsNothing()
    ensures ActiveDimensions(Cleared()) == []
  {
  }

  /** A cities text alone makes the location dimension count, although the search never reads it. */
  lemma CitiesAloneCounts(f: SearchFilters, text: string)
    requires text != ""
    ensures Location in ActiveDimensions(SetCities(f, text))
  {
  }

  /** The sidebar's own state. */
  class Sidebar {
    var localFilters: SearchFilters
    var isCollapsed: bool
    var searchName: string
    var showSaveDialog: bool

    /** The local copy starts from the page's filters. */
    constructor (filters: SearchFilters)
      ensures localFilters == filters && !isCollapsed && searchName == "" && !showSaveDialog
    {
      localFilters := filters;
      isCollapsed := false;
      searchName := "";
      showSaveDialog := false;
    }

    /** Any edit of the local filters, by one of the functions above. */
    method Edit(f: SearchFilters)
      modifies this
      ensures localFilters == f
      ensures isCollapsed == old(isCollapsed) && searchName == old(searchName) && showSaveDialog == old(showSaveDialog)
    {
      localFilters := f;
    }

    /** Choosing a saved search replaces the whole local filter set. */
    method LoadSaved(s: DiscoveryPage.SavedSearch)
      modifies this
      ensures localFilters == s.filters
      ensures isCollapsed == old(isCollapsed) && searchName == old(searchName) && showSaveDialog == old(showSaveDialog)
    {
      localFilters := s.filters;
    }

    method OpenSaveDialog()
      modifies this
      ensures showSaveDialog && localFilters == old(localFilters) && searchName == old(searchName)
      ensures isCollapsed == old(isCollapsed)
    {
      showSaveDialog := true;
    }

    method TypeSearchName(text: string)
      modifies this
      ensures searchName == text && localFilters == old(localFilters) && showSaveDialog == old(showSaveDialog)
      ensures isCollapsed == old(isCollapsed)
    {
      searchName := text;
    }

    /**
     * The dialog's Save button: with a name that is not only white space the
     * name as typed and the local filters go to the page, the name box is
     * emptied and the dialog closes; otherwise nothing happens.
     */
    method SaveSearch() returns (saved: Option<DiscoveryPage.SavedSearch>)
      modifies this
      ensures Trim(old(searchName)) != "" ==>
        saved == Some(DiscoveryPage.SavedSearch(old(searchName), old(localFilters))) && searchName == "" && !showSaveDialog
      ensures Trim(old(searchName)) == "" ==>
        saved == None && searchName == old(searchName) && showSaveDialog == old(showSaveDialog)
      ensures localFilters == old(localFilters) && isCollapsed == old(isCollapsed)
    {
      if Trim(searchName) != "" {
        saved := Some(DiscoveryPage.SavedSearch(searchName, localFilters));
        searchName := "";
        showSaveDialog := false;
      } else {
        saved := None;
      }
    }

    method CancelSave()
      modifies this
      ensures !showSaveDialog && searchName == old(searchName) && localFilters == old(localFilters)
      ensures isCollapsed == old(isCollapsed)
    {
      showSaveDialog := false;
    }

    method ToggleCollapsed()
      modifies this
      ensures isCollapsed == !old(isCollapsed) && localFilters == old(localFilters)
      ensures searchName == old(searchName) && showSaveDialog == old(showSaveDialog)
    {
      isCollapsed := !isCollapsed;
    }

    /** The debounce callback hands the local filters to the page. */
    method Publish() returns (f: SearchFilters)
      ensures f == localFilters
    {
      f := localFilters;
    }
  }

  /** A name of blanks only is refused: exactly the names made of white space. */
  lemma BlankNameRefused(name: string)
    ensures Trim(name) == "" <==> AllSpace(name)
  {
    TrimEmptyIff(name);
  }
}
