// The result feed of the candidate-discovery page: select-all and
// deselect-all through the page's one-id toggle, the selection-mode flag, and
// which of the empty state, skeleton cards, load-more button and end note are
// drawn.

module CandidateFeed {
  import opened Lists
  import DiscoverySearch
  import DiscoveryPage

  function Ids(cs: seq<DiscoverySearch.Candidate>): (ids: seq<int>)
    ensures |ids| == |cs| && forall i :: 0 <= i < |cs| ==> ids[i] == cs[i].id
  {
    seq(|cs|, i requires 0 <= i < |cs| => cs[i].id)
  }

  /** `allIds.every(id => selectedCandidates.includes(id))`. */
  predicate AllSelected(ids: seq<int>, selected: seq<int>)
  {
    forall i :: 0 <= i < |ids| ==> ids[i] in selected
  }

  /** What select-all leaves: the earlier selection, then the shown ids it lacked, in list order. */
  function SelectedAll(ids: seq<int>, selected: seq<int>): seq<int>
  {
    selected + Filter(ids, NotIn(selected))
  }

  /** What deselect-all leaves: the earlier selection without the shown ids. */
  function DeselectedAll(ids: seq<int>, selected: seq<int>): seq<int>
  {
    Filter(selected, NotIn(ids))
  }

  /** Select-all selects every shown id and keeps everything selected before. */
  lemma SelectedAllMembers(ids: seq<int>, selected: seq<int>)
    ensures forall x :: x in SelectedAll(ids, selected) <==> x in selected || x in ids
    ensures AllSelected(ids, SelectedAll(ids, selected))
  {
    FilterMembers(ids, NotIn(selected));
  }

  /** Deselect-all removes exactly the shown ids. */
  lemma DeselectedAllMembers(ids: seq<int>, selected: seq<int>)
    ensures forall x :: x in DeselectedAll(ids, selected) <==> x in selected && x !in ids
  {
    FilterMembers(selected, NotIn(ids));
  }

  /** A second click after select-all deselects; the two clicks together remove the shown ids from the earlier selection. */
  lemma {:induction false} SelectThenDeselect(ids: seq<int>, selected: seq<int>)
    ensures AllSelected(ids, SelectedAll(ids, selected))
    ensures DeselectedAll(ids, SelectedAll(ids, selected)) == DeselectedAll(ids, selected)
  {
    SelectedAllMembers(ids, selected);
    var added := Filter(ids, NotIn(selected));
    FilterConcat(selected, added, NotIn(ids));
    FilterMembers(ids, NotIn(selected));
    FilterKeepsNone(added, NotIn(ids));
    assert Filter(selected, NotIn(ids)) + [] == Filter(selected, NotIn(ids));
  }

  lemma AppendStep(ids: seq<int>, i: nat, p: int -> bool)
    requires i < |ids|
    ensures Filter(ids[..i + 1], p) == Filter(ids[..i], p) + (if p(ids[i]) then [ids[i]] else [])
  {
    assert ids[..i + 1] == ids[..i] + [ids[i]];
    FilterConcat(ids[..i], [ids[i]], p);
  }

  /**
   * `handleSelectAll`: one call of the page's toggle for each shown id the
   * selection lacks, or, when all are selected, for each one it holds; the
   * test reads the selection as it was when the button was pressed.
   * For shown ids without repeats the result is select-all or deselect-all.
   */
  method SelectAll(page: DiscoveryPage.Page, shown: seq<DiscoverySearch.Candidate>)
    modifies page
    ensures Distinct(Ids(shown)) && !AllSelected(Ids(shown), old(page.selectedCandidates)) ==>
      page.selectedCandidates == SelectedAll(Ids(shown), old(page.selectedCandidates))
    ensures Distinct(Ids(shown)) && AllSelected(Ids(shown), old(page.selectedCandidates)) ==>
      page.selectedCandidates == DeselectedAll(Ids(shown), old(page.selectedCandidates))
    ensures page.filters == old(page.filters) && page.searchQuery == old(page.searchQuery) && page.sortBy == old(page.sortBy)
    ensures page.candidates == old(page.candidates)
    ensures page.viewMode == old(page.viewMode) && page.loading == old(page.loading) && page.hasMore == old(page.hasMore)
    ensures page.page == old(page.page) && page.savedSearches == old(page.savedSearches)
  {
    var allIds := Ids(shown);
    var snapshot := page.selectedCandidates;
    var allSelected := forall i :: 0 <= i < |allIds| ==> allIds[i] in snapshot;
    if allSelected {
      DeselectHeld(page, allIds);
    } else {
      SelectMissing(page, allIds);
    }
  }

  /** The deselect loop: a toggle for every id the selection held when the loop began. */
  method DeselectHeld(page: DiscoveryPage.Page, allIds: seq<int>)
    modifies page
    ensures Distinct(allIds) ==> page.selectedCandidates == DeselectedAll(allIds, old(page.selectedCandidates))
    ensures page.filters == old(page.filters) && page.searchQuery == old(page.searchQuery) && page.sortBy == old(page.sortBy)
    ensures page.candidates == old(page.candidates)
    ensures page.viewMode == old(page.viewMode) && page.loading == old(page.loading) && page.hasMore == old(page.hasMore)
    ensures page.page == old(page.page) && page.savedSearches == old(page.savedSearches)
  {
    var snapshot := page.selectedCandidates;
    FilterKeepsAll(snapshot, NotIn(allIds[..0]));
    var i := 0;
    while i < |allIds|
      invariant 0 <= i <= |allIds|
      invariant Distinct(allIds) ==> page.selectedCandidates == Filter(snapshot, NotIn(allIds[..i]))
      invariant page.filters == old(page.filters) && page.searchQuery == old(page.searchQuery) && page.sortBy == old(page.sortBy)
      invariant page.candidates == old(page.candidates)
      invariant page.viewMode == old(page.viewMode) && page.loading == old(page.loading) && page.hasMore == old(page.hasMore)
      invariant page.page == old(page.page) && page.savedSearches == old(page.savedSearches)
    {
      var id := allIds[i];
      if id in snapshot {
        if Distinct(allIds) {
          DeselectStep(snapshot, allIds, i);
        }
        page.SelectCandidate(id);
      } else {
        assert allIds[..i + 1] == allIds[..i] + [id];
        FilterExt(snapshot, NotIn(allIds[..i]), NotIn(allIds[..i + 1]));
      }
      i := i + 1;
    }
    assert allIds[..i] == allIds;
  }

  /** The select loop: a toggle for every id the selection lacked when the loop began. */
  method SelectMissing(page: DiscoveryPage.Page, allIds: seq<int>)
    modifies page
    ensures Distinct(allIds) ==> page.selectedCandidates == SelectedAll(allIds, old(page.selectedCandidates))
    ensures page.filters == old(page.filters) && page.searchQuery == old(page.searchQuery) && page.sortBy == old(page.sortBy)
    ensures page.candidates == old(page.candidates)
    ensures page.viewMode == old(page.viewMode) && page.loading == old(page.loading) && page.hasMore == old(page.hasMore)
    ensures page.page == old(page.page) && page.savedSearches == old(page.savedSearches)
  {
    var snapshot := page.selectedCandidates;
    var i := 0;
    while i < |allIds|
      invariant 0 <= i <= |allIds|
      invariant Distinct(allIds) ==> page.selectedCandidates == snapshot + Filter(allIds[..i], NotIn(snapshot))
      invariant page.filters == old(page.filters) && page.searchQuery == old(page.searchQuery) && page.sortBy == old(page.sortBy)
      invariant page.candidates == old(page.candidates)
      invariant page.viewMode == old(page.viewMode) && page.loading == old(page.loading) && page.hasMore == old(page.hasMore)
      invariant page.page == old(page.page) && page.savedSearches == old(page.savedSearches)
    {
      var id := allIds[i];
      AppendStep(allIds, i, NotIn(snapshot));
      if id !in snapshot {
        if Distinct(allIds) {
          FilterMembers(allIds[..i], NotIn(snapshot));
          assert id !in allIds[..i];
        }
        page.SelectCandidate(id);
      }
      i := i + 1;
    }
    assert allIds[..i] == allIds;
  }

  /** One deselect step: toggling a selected, not yet removed id removes it. */
  lemma DeselectStep(snapshot: seq<int>, ids: seq<int>, i: nat)
    requires i < |ids| && Distinct(ids) && ids[i] in snapshot
    ensures Toggle(Filter(snapshot, NotIn(ids[..i])), ids[i]) == Filter(snapshot, NotIn(ids[..i + 1]))
  {
    var x, before := ids[i], ids[..i];
    assert x !in before by {
      forall k | 0 <= k < i
        ensures before[k] != x
      {
        assert before[k] == ids[k];
      }
    }
    ToggleOffStep(snapshot, before, x);
    assert ids[..i + 1] == before + [x];
  }

  /** The label of the select-all button. */
  function SelectAllLabel(ids: seq<int>, selected: seq<int>): string
  {
    if AllSelected(ids, selected) then "Deselect All" else "Select All"
  }

  /** The feed's own flag: checkboxes are drawn in selection mode. */
  class Feed {
    var isSelectionMode: bool

    constructor ()
      ensures !isSelectionMode
    {
      isSelectionMode := false;
    }

    /** The effect on the selection size: selection mode follows whether anything is selected. */
    method SelectionSizeChanged(size: nat)
      modifies this
      ensures isSelectionMode <==> size > 0
    {
      isSelectionMode := size > 0;
    }

    /** The "Select Multiple" / "Exit Selection" button. */
    method ToggleSelectionMode()
      modifies this
      ensures isSelectionMode == !old(isSelectionMode)
    {
      isSelectionMode := !isSelectionMode;
    }
  }

  /** What the feed draws below the header. */
  datatype FeedView =
    | NoCandidates
    | Listing(controls: bool, skeletons: bool, loadMore: bool, endNote: bool)

  function View(count: nat, loading: bool, hasMore: bool): (v: FeedView)
    ensures v == NoCandidates <==> count == 0 && !loading
    ensures v.Listing? ==> (v.controls <==> count > 0) && (v.skeletons <==> loading)
    ensures v.Listing? ==> (v.loadMore <==> hasMore && !loading) && (v.endNote <==> !hasMore && count > 0)
  {
    if count == 0 && !loading then NoCandidates
    else Listing(count > 0, loading, hasMore && !loading, !hasMore && count > 0)
  }

  /** The load-more button and the end note never show together, and neither shows while loading with no results. */
  lemma ViewExclusive(count: nat, loading: bool, hasMore: bool)
    ensures View(count, loading, hasMore).Listing? ==> !(View(count, loading, hasMore).loadMore && View(count, loading, hasMore).endNote)
    ensures count == 0 && loading ==> View(count, loading, hasMore) == Listing(false, true, false, false)
  {
  }
}
