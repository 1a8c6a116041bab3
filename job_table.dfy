// The recruiter dashboard's job postings table: the search and status
// filter, the three sort orders applied to a copy of the list, the row's
// status text and the Pause-or-Close action. A `postedDate` is held as the
// millisecond timestamp its text parses to.

module JobTable {
  import opened Strings
  import opened Lists
  import opened Sorting

  datatype Job = Job(id: int, title: string, department: string, location: string, applications: int,
                     qualityScore: int, timeToFill: int, status: string, postedDate: int)

  /** The row filter: the term in the title or the department, ignoring case, and the status unless it is 'all'. */
  predicate MatchesJob(j: Job, term: string, filterStatus: string)
  {
    (IncludesCI(j.title, term) || IncludesCI(j.department, term)) && (filterStatus == "all" || j.status == filterStatus)
  }

  function MatchesAt(term: string, filterStatus: string): Job -> bool
  {
    (j: Job) => MatchesJob(j, term, filterStatus)
  }

  /** `filteredJobs`. */
  function FilteredJobs(jobs: seq<Job>, term: string, filterStatus: string): (r: seq<Job>)
    ensures forall j :: j in r <==> j in jobs && MatchesJob(j, term, filterStatus)
    ensures IsSubsequence(r, jobs)
  {
    FilterMembers(jobs, MatchesAt(term, filterStatus));
    Filter(jobs, MatchesAt(term, filterStatus))
  }

  function Applications(j: Job): int
  {
    j.applications
  }

  function Posted(j: Job): int
  {
    j.postedDate
  }

  /**
   * The title order. `localeCompare` depends on the browser's collation;
   * the caller supplies it as a collation key, titles that compare equal
   * sharing a key.
   */
  function TitleKey(collate: string -> int): Job -> int
  {
    (j: Job) => collate(j.title)
  }

  /**
   * `sortedJobs`: most applications first, by title, or (the default and any
   * other choice) most recently posted first; the comparators return 0 on
   * ties, so tied jobs keep their filtered order.
   */
  function SortedJobs(filtered: seq<Job>, sortBy: string, collate: string -> int): (r: seq<Job>)
    ensures multiset(r) == multiset(filtered)
    ensures sortBy == "applications" ==> SortedDesc(r, Applications)
    ensures sortBy == "title" ==> SortedBy(r, TitleKey(collate))
    ensures sortBy != "applications" && sortBy != "title" ==> SortedDesc(r, Posted)
  {
    match sortBy
    case "applications" => SortDesc(filtered, Applications)
    case "title" => SortBy(filtered, TitleKey(collate))
    case _ => SortDesc(filtered, Posted)
  }

  /** Jobs with the same application count keep the order the filter gave them. */
  lemma ApplicationTiesKeepOrder(filtered: seq<Job>, collate: string -> int, k: int)
    ensures Filter(SortedJobs(filtered, "applications", collate), KeyIs(Applications, k)) == Filter(filtered, KeyIs(Applications, k))
  {
    SortDescStable(filtered, Applications, k);
  }

  /** Jobs posted at the same instant keep the order the filter gave them. */
  lemma PostedTiesKeepOrder(filtered: seq<Job>, sortBy: string, collate: string -> int, k: int)
    requires sortBy != "applications" && sortBy != "title"
    ensures Filter(SortedJobs(filtered, sortBy, collate), KeyIs(Posted, k)) == Filter(filtered, KeyIs(Posted, k))
  {
    SortDescStable(filtered, Posted, k);
  }

  /** The table's rows for the current search box and drop-downs. */
  function Rows(jobs: seq<Job>, term: string, filterStatus: string, sortBy: string, collate: string -> int): seq<Job>
  {
    SortedJobs(FilteredJobs(jobs, term, filterStatus), sortBy, collate)
  }

  /** The rows are exactly the jobs that pass the filter, each as often as in the list. */
  lemma RowsAreTheMatches(jobs: seq<Job>, term: string, filterStatus: string, sortBy: string, collate: string -> int)
    ensures forall j :: j in Rows(jobs, term, filterStatus, sortBy, collate) <==> j in jobs && MatchesJob(j, term, filterStatus)
    ensures |Rows(jobs, term, filterStatus, sortBy, collate)| == |FilteredJobs(jobs, term, filterStatus)|
  {
    var f := FilteredJobs(jobs, term, filterStatus);
    var r := Rows(jobs, term, filterStatus, sortBy, collate);
    assert |r| == |multiset(r)| == |multiset(f)| == |f|;
    forall j ensures j in r <==> j in f {
      assert j in r <==> j in multiset(r);
      assert j in f <==> j in multiset(f);
    }
  }

  /** "No jobs found matching your criteria" shows exactly when no job passes the filter. */
  lemma EmptyMessageIff(jobs: seq<Job>, term: string, filterStatus: string, sortBy: string, collate: string -> int)
    ensures Rows(jobs, term, filterStatus, sortBy, collate) == [] <==> forall i :: 0 <= i < |jobs| ==> !MatchesJob(jobs[i], term, filterStatus)
  {
    RowsAreTheMatches(jobs, term, filterStatus, sortBy, collate);
    var r := Rows(jobs, term, filterStatus, sortBy, collate);
    if r != [] {
      assert r[0] in r;
    }
  }

  /** The status badge: the first letter upper-cased. */
  function StatusText(status: string): (text: string)
    ensures |text| == |status|
    ensures status != "" ==> text[1..] == status[1..]
    ensures status != "" ==> text[0] == UpperChar(status[0])
  {
    if status == "" then "" else [UpperChar(status[0])] + status[1..]
  }

  /** A lower-case status reads back from its badge. */
  lemma StatusTextReadsBack(status: string)
    requires status != "" && 'a' <= status[0] <= 'z'
    ensures StatusText(status) != "" && [LowerChar(StatusText(status)[0])] + StatusText(status)[1..] == status
  {
  }

  /** The row action: active jobs can be paused, every other job closed. */
  datatype RowAction = Pause(id: int) | Close(id: int)

  function ActionFor(j: Job): (a: RowAction)
    ensures a.id == j.id
    ensures a.Pause? <==> j.status == "active"
  {
    if j.status == "active" then Pause(j.id) else Close(j.id)
  }
}
