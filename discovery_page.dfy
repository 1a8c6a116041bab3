// The candidate-discovery page: its state and the handlers the sidebar, the
// search header and the result feed call. The result list is always built
// from the page's constant candidate list, never from the `candidates` state
// the shortlist and note handlers update.

module DiscoveryPage {
  import opened Lists
  import opened DiscoverySearch

  datatype SavedSearch = SavedSearch(name: string, filters: SearchFilters)

  /** The bulk 'shortlist' update: the listed ids are marked, nothing else changes. */
  function MarkShortlisted(cs: seq<Candidate>, ids: seq<int>): (r: seq<Candidate>)
    ensures |r| == |cs|
    ensures forall i :: 0 <= i < |cs| ==> r[i] == if cs[i].id in ids then cs[i].(isShortlisted := true) else cs[i]
  {
    seq(|cs|, i requires 0 <= i < |cs| => if cs[i].id in ids then cs[i].(isShortlisted := true) else cs[i])
  }

  /** `handleShortlist`: every entry with the id gets the given flag. */
  function SetShortlisted(cs: seq<Candidate>, id: int, flag: bool): (r: seq<Candidate>)
    ensures |r| == |cs|
    ensures forall i :: 0 <= i < |cs| ==> r[i] == if cs[i].id == id then cs[i].(isShortlisted := flag) else cs[i]
  {
    seq(|cs|, i requires 0 <= i < |cs| => if cs[i].id == id then cs[i].(isShortlisted := flag) else cs[i])
  }

  /** `handleAddNote`: every entry with the id gets the note. */
  function SetNote(cs: seq<Candidate>, id: int, note: string): (r: seq<Candidate>)
    ensures |r| == |cs|
    ensures forall i :: 0 <= i < |cs| ==> r[i] == if cs[i].id == id then cs[i].(notes := note) else cs[i]
  {
    seq(|cs|, i requires 0 <= i < |cs| => if cs[i].id == id then cs[i].(notes := note) else cs[i])
  }

  /** Of the four bulk actions only 'shortlist' changes a candidate. */
  function BulkUpdate(cs: seq<Candidate>, action: string, ids: seq<int>): seq<Candidate>
  {
    if action == "shortlist" then MarkShortlisted(cs, ids) else cs
  }

  /** After a bulk shortlist an entry is shortlisted iff it was before or its id is listed; its other fields are kept. */
  lemma BulkShortlistMarksListed(cs: seq<Candidate>, ids: seq<int>, i: nat)
    requires i < |cs|
    ensures |BulkUpdate(cs, "shortlist", ids)| == |cs|
    ensures BulkUpdate(cs, "shortlist", ids)[i].isShortlisted <==> cs[i].isShortlisted || cs[i].id in ids
    ensures BulkUpdate(cs, "shortlist", ids)[i].(isShortlisted := cs[i].isShortlisted) == cs[i]
  {
  }

  /** Bulk shortlisting twice is bulk shortlisting once. */
  lemma BulkShortlistIdempotent(cs: seq<Candidate>, ids: seq<int>)
    ensures MarkShortlisted(MarkShortlisted(cs, ids), ids) == MarkShortlisted(cs, ids)
  {
  }

  /** The other bulk actions leave the list as it was. */
  lemma OtherBulkActionsKeepList(cs: seq<Candidate>, action: string, ids: seq<int>)
    requires action != "shortlist"
    ensures BulkUpdate(cs, action, ids) == cs
  {
  }

  /** Of two shortlist calls for one id the later one wins. */
  lemma ShortlistLastWins(cs: seq<Candidate>, id: int, a: bool, b: bool)
    ensures SetShortlisted(SetShortlisted(cs, id, a), id, b) == SetShortlisted(cs, id, b)
  {
  }

  /** The card's second click reports the flag back, which restores the list when the id names one entry. */
  lemma ShortlistUndo(cs: seq<Candidate>, i: nat)
    requires i < |cs|
    requires forall j :: 0 <= j < |cs| && cs[j].id == cs[i].id ==> cs[j] == cs[i]
    ensures SetShortlisted(SetShortlisted(cs, cs[i].id, !cs[i].isShortlisted), cs[i].id, cs[i].isShortlisted) == cs
  {
  }

  lemma NoteLastWins(cs: seq<Candidate>, id: int, a: string, b: string)
    ensures SetNote(SetNote(cs, id, a), id, b) == SetNote(cs, id, b)
  {
  }

  class Page {
    /** `mockCandidates`, the constant list every search runs over. */
    const pool: seq<Candidate>
    var filters: SearchFilters
    var searchQuery: string
    var sortBy: string
    var viewMode: string
    var selectedCandidates: seq<int>
    var candidates: seq<Candidate>
    var loading: bool
    var hasMore: bool
    var page: int
    var savedSearches: seq<SavedSearch>

    constructor (mock: seq<Candidate>)
      ensures pool == mock && filters == NoFilters && searchQuery == "" && sortBy == "match"
      ensures viewMode == "grid" && selectedCandidates == [] && candidates == []
      ensures !loading && hasMore && page == 1 && savedSearches == []
    {
      pool := mock;
      filters := NoFilters;
      searchQuery := "";
      sortBy := "match";
      viewMode := "grid";
      selectedCandidates := [];
      candidates := [];
      loading := false;
      hasMore := true;
      page := 1;
      savedSearches := [];
    }

    /** What the page hands to the feed: the constant list, filtered and sorted. */
    function Results(): seq<Candidate>
      reads this`filters, this`searchQuery, this`sortBy
    {
      Arrange(Filter(pool, Matches(searchQuery, filters)), sortBy)
    }

    method CurrentCandidates() returns (r: seq<Candidate>)
      ensures r == Results()
    {
      r := FilteredCandidates(pool, searchQuery, filters, sortBy);
    }

    /** The mount effect starts loading; the timer callback then fills the lists. */
    method StartInitialLoad()
      modifies this
      ensures loading
      ensures filters == old(filters) && searchQuery == old(searchQuery) && sortBy == old(sortBy)
      ensures candidates == old(candidates) && selectedCandidates == old(selectedCandidates)
      ensures page == old(page) && savedSearches == old(savedSearches) && hasMore == old(hasMore)
      ensures viewMode == old(viewMode)
    {
      loading := true;
    }

    method FinishInitialLoad(saved: seq<SavedSearch>)
      modifies this
      ensures candidates == pool && savedSearches == saved && !loading
      ensures filters == old(filters) && searchQuery == old(searchQuery) && sortBy == old(sortBy)
      ensures selectedCandidates == old(selectedCandidates) && page == old(page) && hasMore == old(hasMore)
      ensures viewMode == old(viewMode)
    {
      candidates := pool;
      savedSearches := saved;
      loading := false;
    }

    /** A filter change goes back to the first page. */
    method ChangeFilters(f: SearchFilters)
      modifies this
      ensures filters == f && page == 1
      ensures searchQuery == old(searchQuery) && sortBy == old(sortBy) && candidates == old(candidates)
      ensures selectedCandidates == old(selectedCandidates) && savedSearches == old(savedSearches)
      ensures loading == old(loading) && hasMore == old(hasMore)
      ensures viewMode == old(viewMode)
    {
      filters := f;
      page := 1;
    }

    /** So does a change of the search text. */
    method ChangeSearch(q: string)
      modifies this
      ensures searchQuery == q && page == 1
      ensures filters == old(filters) && sortBy == old(sortBy) && candidates == old(candidates)
      ensures selectedCandidates == old(selectedCandidates) && savedSearches == old(savedSearches)
      ensures loading == old(loading) && hasMore == old(hasMore)
      ensures viewMode == old(viewMode)
    {
      searchQuery := q;
      page := 1;
    }

    /** A sort change keeps the page. */
    method ChangeSort(s: string)
      modifies this
      ensures sortBy == s && page == old(page)
      ensures filters == old(filters) && searchQuery == old(searchQuery) && candidates == old(candidates)
      ensures selectedCandidates == old(selectedCandidates) && savedSearches == old(savedSearches)
      ensures viewMode == old(viewMode) && loading == old(loading) && hasMore == old(hasMore)
    {
      sortBy := s;
    }

    method ChangeViewMode(mode: string)
      modifies this
      ensures filters == old(filters) && searchQuery == old(searchQuery) && sortBy == old(sortBy)
      ensures viewMode == mode && page == old(page)
      ensures selectedCandidates == old(selectedCandidates) && candidates == old(candidates)
      ensures loading == old(loading) && hasMore == old(hasMore) && savedSearches == old(savedSearches)
    {
      viewMode := mode;
    }

    /** `handleCandidateSelect`: the id is removed if selected, appended otherwise. */
    method SelectCandidate(id: int)
      modifies this
      ensures selectedCandidates == Toggle(old(selectedCandidates), id)
      ensures filters == old(filters) && searchQuery == old(searchQuery) && sortBy == old(sortBy)
      ensures candidates == old(candidates) && page == old(page)
      ensures viewMode == old(viewMode) && loading == old(loading) && hasMore == old(hasMore) && savedSearches == old(savedSearches)
    {
      selectedCandidates := Toggle(selectedCandidates, id);
    }

    /** Every bulk action empties the selection; only 'shortlist' touches the candidates, and the results stay as they were. */
    method BulkAction(action: string, ids: seq<int>)
      modifies this
      ensures candidates == BulkUpdate(old(candidates), action, ids) && selectedCandidates == []
      ensures filters == old(filters) && searchQuery == old(searchQuery) && sortBy == old(sortBy)
      ensures page == old(page) && savedSearches == old(savedSearches)
      ensures viewMode == old(viewMode) && loading == old(loading) && hasMore == old(hasMore)
    {
      var updated := BulkUpdate(candidates, action, ids);
      candidates := updated;
      selectedCandidates := [];
    }

    method Shortlist(id: int, flag: bool)
      modifies this
      ensures candidates == SetShortlisted(old(candidates), id, flag)
      ensures filters == old(filters) && searchQuery == old(searchQuery) && sortBy == old(sortBy)
      ensures selectedCandidates == old(selectedCandidates) && page == old(page)
      ensures viewMode == old(viewMode) && loading == old(loading) && hasMore == old(hasMore) && savedSearches == old(savedSearches)
    {
      candidates := SetShortlisted(candidates, id, flag);
    }

    method AddNote(id: int, note: string)
      modifies this
      ensures candidates == SetNote(old(candidates), id, note)
      ensures filters == old(filters) && searchQuery == old(searchQuery) && sortBy == old(sortBy)
      ensures selectedCandidates == old(selectedCandidates) && page == old(page)
      ensures viewMode == old(viewMode) && loading == old(loading) && hasMore == old(hasMore) && savedSearches == old(savedSearches)
    {
      candidates := SetNote(candidates, id, note);
    }

    /** A saved search is appended with the filters it was saved with. */
    method SaveSearch(name: string, f: SearchFilters)
      modifies this
      ensures savedSearches == old(savedSearches) + [SavedSearch(name, f)]
      ensures filters == old(filters) && searchQuery == old(searchQuery) && sortBy == old(sortBy)
      ensures candidates == old(candidates)
      ensures selectedCandidates == old(selectedCandidates) && page == old(page)
      ensures viewMode == old(viewMode) && loading == old(loading) && hasMore == old(hasMore)
    {
      savedSearches := savedSearches + [SavedSearch(name, f)];
    }

    /** Load-more sets the loading flag; its timer callback advances the page and clears it. */
    method StartLoadMore()
      modifies this
      ensures filters == old(filters) && searchQuery == old(searchQuery) && sortBy == old(sortBy)
      ensures loading && page == old(page)
      ensures candidates == old(candidates) && selectedCandidates == old(selectedCandidates)
      ensures viewMode == old(viewMode) && hasMore == old(hasMore) && savedSearches == old(savedSearches)
    {
      loading := true;
    }

    method FinishLoadMore()
      modifies this
      ensures filters == old(filters) && searchQuery == old(searchQuery) && sortBy == old(sortBy)
      ensures page == old(page) + 1 && !loading && hasMore == old(hasMore)
      ensures candidates == old(candidates) && selectedCandidates == old(selectedCandidates)
      ensures viewMode == old(viewMode) && savedSearches == old(savedSearches)
    {
      page := page + 1;
      loading := false;
    }
  }
}
