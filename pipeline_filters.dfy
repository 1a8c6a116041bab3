// The filter bar above the pipeline board: changing one filter, clearing all
// of them, the active-filter count, and the bulk-action menu.

module PipelineFilterBar {
  import opened Lists
  import opened PipelineBoard

  /** The keys the bar's controls write. */
  datatype FilterKey = Search | DateRange | SkillMatch | Source | Experience

  function Get(f: Filters, k: FilterKey): string
  {
    match k
    case Search => f.search
    case DateRange => f.dateRange
    case SkillMatch => f.skillMatch
    case Source => f.source
    case Experience => f.experience
  }

  /** `handleFilterChange`: `{ ...filters, [key]: value }`. */
  function WithFilter(f: Filters, k: FilterKey, value: string): (r: Filters)
    ensures Get(r, k) == value
    ensures forall other :: other != k ==> Get(r, other) == Get(f, other)
  {
    match k
    case Search => f.(search := value)
    case DateRange => f.(dateRange := value)
    case SkillMatch => f.(skillMatch := value)
    case Source => f.(source := value)
    case Experience => f.(experience := value)
  }

  /** `clearFilters`. */
  function Cleared(): (r: Filters)
    ensures Get(r, Search) == ""
    ensures forall k :: k != Search ==> Get(r, k) == "all"
  {
    Filters("", "all", "all", "all", "all")
  }

  /** `Object.values(filters)`, in declaration order. */
  function Values(f: Filters): (vs: seq<string>)
    ensures |vs| == 5
    ensures forall k :: Get(f, k) in vs
  {
    [f.search, f.dateRange, f.skillMatch, f.source, f.experience]
  }

  predicate IsActiveValue(v: string)
  {
    v != "" && v != "all"
  }

  function IsActive(): string -> bool
  {
    v => IsActiveValue(v)
  }

  /** `activeFiltersCount`. */
  function ActiveCount(f: Filters): nat
  {
    |Filter(Values(f), IsActive())|
  }

  function Bit(v: string): nat
  {
    if IsActiveValue(v) then 1 else 0
  }

  /** The count adds one for every active value. */
  lemma {:induction false} ActiveCountIsSum(f: Filters)
    ensures ActiveCount(f) == Bit(f.search) + Bit(f.dateRange) + Bit(f.skillMatch) + Bit(f.source) + Bit(f.experience)
  {
    var p := IsActive();
    var e := [f.experience];
    var d := [f.source] + e;
    var c := [f.skillMatch] + d;
    var b := [f.dateRange] + c;
    assert Values(f) == [f.search] + b;
    FilterCons(f.search, b, p);
    FilterCons(f.dateRange, c, p);
    FilterCons(f.skillMatch, d, p);
    FilterCons(f.source, e, p);
    FilterCons(f.experience, [], p);
  }

  /** The count lies in 0..5 and is zero exactly when every value is '' or 'all'. */
  lemma ActiveCountBounds(f: Filters)
    ensures 0 <= ActiveCount(f) <= 5
    ensures ActiveCount(f) == 0 <==> forall k :: !IsActiveValue(Get(f, k))
  {
    ActiveCountIsSum(f);
    if ActiveCount(f) != 0 {
      var k :| k in [Search, DateRange, SkillMatch, Source, Experience] && IsActiveValue(Get(f, k));
    }
  }

  /** Changing one filter of the cleared set to an active value gives a count of one. */
  lemma OneChangeCountsOne(k: FilterKey, value: string)
    requires IsActiveValue(value)
    ensures ActiveCount(WithFilter(Cleared(), k, value)) == 1
  {
    ActiveCountIsSum(WithFilter(Cleared(), k, value));
  }

  lemma ClearedCountsZero()
    ensures ActiveCount(Cleared()) == 0
  {
    ActiveCountIsSum(Cleared());
  }

  /** The page's board starts from the same values the bar clears to. */
  lemma ClearedIsDefault()
    ensures Cleared() == DefaultFilters
  {
  }

  /** The Clear button is disabled exactly when no filter is active. */
  predicate ClearDisabled(f: Filters)
  {
    ActiveCount(f) == 0
  }

  /** The bulk menu, in display order. */
  const BulkActions: seq<string> := ["move-screening", "schedule-interview", "send-email", "add-shortlist", "reject"]

  /** Of the five menu entries, only 'move-screening' and 'reject' change any candidate. */
  lemma OnlyTwoActionsRestage()
    ensures forall i :: 0 <= i < |BulkActions| ==> (BulkStage(BulkActions[i]).Some? <==> i == 0 || i == 4)
  {
  }

  /** The bar's own state: the extra-filters panel and the bulk menu. */
  class FilterBar {
    var isExpanded: bool
    var showBulkActions: bool

    constructor ()
      ensures !isExpanded && !showBulkActions
    {
      isExpanded := false;
      showBulkActions := false;
    }

    /** The bulk area itself is shown only while something is selected. */
    static function BulkAreaShown(selectedCount: nat): bool
    {
      selectedCount > 0
    }

    method ToggleBulkMenu()
      modifies this
      ensures showBulkActions == !old(showBulkActions) && isExpanded == old(isExpanded)
    {
      showBulkActions := !showBulkActions;
    }

    method ToggleExpanded()
      modifies this
      ensures isExpanded == !old(isExpanded) && showBulkActions == old(showBulkActions)
    {
      isExpanded := !isExpanded;
    }

    /** A menu entry forwards its code and closes the menu. */
    method PickBulkAction(i: nat) returns (forwarded: string)
      requires i < |BulkActions|
      modifies this
      ensures forwarded == BulkActions[i]
      ensures !showBulkActions && isExpanded == old(isExpanded)
    {
      forwarded := BulkActions[i];
      showBulkActions := false;
    }
  }
}
