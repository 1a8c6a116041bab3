// The application-tracking pipeline page: the candidate list it owns, the
// filters that narrow it, the grouping into the six stage columns and the
// handlers that move, reject, annotate and bulk-update candidates.

module PipelineBoard {
  import opened Wrappers
  import opened Strings
  import opened Lists
  import PipelineCard

  /** A JavaScript value handed to a handler: ids are numbers, drag payloads are strings. */
  datatype JsValue = Num(n: int) | Str(s: string)

  datatype Candidate = Candidate(
    id: int,
    name: string,
    position: string,
    experience: int,
    stage: string,
    skillMatch: int,
    source: string,
    topSkills: seq<string>,
    notes: string,
    rating: int)

  datatype Filters = Filters(search: string, dateRange: string, skillMatch: string, source: string, experience: string)

  const DefaultFilters := Filters("", "all", "all", "all", "all")

  /** The six columns of the board, in display order. */
  const StageNames: seq<string> := ["Applied", "Screening", "Interview", "Offer", "Hired", "Rejected"]

  // ---------------------------------------------------------------- filtering

  /** The search box: an empty query matches all; otherwise name, position or some skill must include it. */
  predicate PassesSearch(c: Candidate, q: string)
  {
    q == "" || IncludesCI(c.name, q) || IncludesCI(c.position, q)
    || exists i :: 0 <= i < |c.topSkills| && IncludesCI(c.topSkills[i], q)
  }

  /** The skill-match bucket; a level other than the three named ones lets every score through. */
  predicate PassesSkillMatch(score: int, level: string)
  {
    level == "all" ||
    (!(level == "high" && score < 90)
     && !(level == "medium" && (score < 70 || score >= 90))
     && !(level == "low" && score >= 70))
  }

  predicate PassesSource(c: Candidate, source: string)
  {
    source == "all" || Lower(c.source) == Lower(source)
  }

  /** The experience band in years; the senior and expert bands share the value 10. */
  predicate PassesExperience(years: int, band: string)
  {
    band == "all" ||
    (!(band == "entry" && years > 2)
     && !(band == "mid" && (years < 3 || years > 5))
     && !(band == "senior" && (years < 6 || years > 10))
     && !(band == "expert" && years < 10))
  }

  /** The date-range filter is kept in the state but never consulted. */
  predicate Passes(c: Candidate, f: Filters)
  {
    PassesSearch(c, f.search) && PassesSkillMatch(c.skillMatch, f.skillMatch)
    && PassesSource(c, f.source) && PassesExperience(c.experience, f.experience)
  }

  function PassesUnder(f: Filters): Candidate -> bool
  {
    c => Passes(c, f)
  }

  /** `filteredCandidates`. */
  function FilterCandidates(cs: seq<Candidate>, f: Filters): (r: seq<Candidate>)
    ensures |r| <= |cs|
    ensures forall i :: 0 <= i < |r| ==> Passes(r[i], f)
  {
    Filter(cs, PassesUnder(f))
  }

  /** The filtered list is the candidates that pass, in board order. */
  lemma FilteredMembers(cs: seq<Candidate>, f: Filters)
    ensures forall c :: c in FilterCandidates(cs, f) <==> c in cs && Passes(c, f)
    ensures IsSubsequence(FilterCandidates(cs, f), cs)
  {
    FilterMembers(cs, PassesUnder(f));
  }

  /** The initial filters hide nobody. */
  lemma DefaultFiltersKeepAll(cs: seq<Candidate>)
    ensures FilterCandidates(cs, DefaultFilters) == cs
  {
    forall i | 0 <= i < |cs| ensures PassesUnder(DefaultFilters)(cs[i]) {
    }
    FilterKeepsAll(cs, PassesUnder(DefaultFilters));
  }

  /** Changing the date range never changes what is shown. */
  lemma DateRangeIgnored(cs: seq<Candidate>, f: Filters, d: string)
    ensures FilterCandidates(cs, f.(dateRange := d)) == FilterCandidates(cs, f)
  {
    FilterExt(cs, PassesUnder(f.(dateRange := d)), PassesUnder(f));
  }

  /** The high, medium and low buckets split every score between them. */
  lemma SkillBucketsPartition(score: int)
    ensures PassesSkillMatch(score, "high") ==> !PassesSkillMatch(score, "medium") && !PassesSkillMatch(score, "low")
    ensures PassesSkillMatch(score, "medium") ==> !PassesSkillMatch(score, "low")
    ensures PassesSkillMatch(score, "high") || PassesSkillMatch(score, "medium") || PassesSkillMatch(score, "low")
  {
  }

  /** A candidate with exactly ten years of experience is both senior and expert. */
  lemma TenYearsInTwoBands()
    ensures PassesExperience(10, "senior") && PassesExperience(10, "expert")
    ensures forall y :: PassesExperience(y, "senior") && PassesExperience(y, "expert") ==> y == 10
  {
  }

  /** The source comparison ignores the letter case of the candidate's source. */
  lemma SourceIgnoresCase(c: Candidate, s: string)
    ensures PassesSource(c, s) == PassesSource(c.(source := Lower(c.source)), s)
  {
    LowerIdempotent(c.source);
  }

  /** A candidate always matches a search for its own name. */
  lemma NameSearchFinds(c: Candidate)
    ensures PassesSearch(c, c.name)
  {
    SelfMatches(c.name);
  }

  // ---------------------------------------------------------------- columns

  function StageIs(name: string): Candidate -> bool
  {
    (c: Candidate) => c.stage == name
  }

  /** One column: the filtered candidates whose stage is exactly the column's name. */
  function Column(filtered: seq<Candidate>, name: string): (r: seq<Candidate>)
    ensures forall i :: 0 <= i < |r| ==> r[i].stage == name
  {
    Filter(filtered, StageIs(name))
  }

  /** `candidatesByStage`: one entry per stage of the board. */
  function CandidatesByStage(filtered: seq<Candidate>): (m: map<string, seq<Candidate>>)
    ensures m.Keys == set n | n in StageNames
    ensures forall n :: n in m ==> m[n] == Column(filtered, n)
  {
    map n | n in StageNames :: Column(filtered, n)
  }

  function ColumnSizes(filtered: seq<Candidate>, names: seq<string>): nat
  {
    if names == [] then 0 else |Column(filtered, names[0])| + ColumnSizes(filtered, names[1..])
  }

  function StageAmong(names: seq<string>): Candidate -> bool
  {
    (c: Candidate) => c.stage in names
  }

  lemma {:induction false} ColumnSizesStep(c: Candidate, rest: seq<Candidate>, names: seq<string>)
    requires Distinct(names)
    ensures ColumnSizes([c] + rest, names) == ColumnSizes(rest, names) + (if c.stage in names then 1 else 0)
  {
    assert ([c] + rest)[1..] == rest;
    if names != [] {
      ColumnSizesStep(c, rest, names[1..]);
      assert names[0] !in names[1..];
      assert c.stage in names <==> c.stage == names[0] || c.stage in names[1..];
    }
  }

  lemma {:induction false} ColumnSizesOfNone(names: seq<string>)
    ensures ColumnSizes([], names) == 0
  {
    if names != [] {
      ColumnSizesOfNone(names[1..]);
    }
  }

  /**
   * The columns together hold each filtered candidate whose stage is one of
   * theirs exactly once; a candidate with any other stage is in no column.
   */
  lemma {:induction false} ColumnsPartition(filtered: seq<Candidate>, names: seq<string>)
    requires Distinct(names)
    ensures ColumnSizes(filtered, names) == |Filter(filtered, StageAmong(names))|
  {
    if filtered == [] {
      ColumnSizesOfNone(names);
    } else {
      ColumnsPartition(filtered[1..], names);
      assert filtered == [filtered[0]] + filtered[1..];
      ColumnSizesStep(filtered[0], filtered[1..], names);
      assert |Filter(filtered, StageAmong(names))|
          == |Filter(filtered[1..], StageAmong(names))| + (if filtered[0].stage in names then 1 else 0);
    }
  }

  lemma StageNamesDistinct()
    ensures Distinct(StageNames)
  {
    var initials := "ASIOHR";
    assert forall i :: 0 <= i < |StageNames| ==> StageNames[i][0] == initials[i];
  }

  lemma BoardColumnsPartition(filtered: seq<Candidate>)
    requires forall i :: 0 <= i < |filtered| ==> filtered[i].stage in StageNames
    ensures ColumnSizes(filtered, StageNames) == |filtered|
  {
    StageNamesDistinct();
    ColumnsPartition(filtered, StageNames);
    FilterKeepsAll(filtered, StageAmong(StageNames));
  }

  lemma OffBoardStageInNoColumn(filtered: seq<Candidate>, c: Candidate, n: string)
    requires c.stage !in StageNames && n in StageNames
    ensures c !in Column(filtered, n)
  {
    FilterMembers(filtered, StageIs(n));
  }

  // ---------------------------------------------------------------- updates

  function IdIs(id: JsValue): Candidate -> bool
  {
    (c: Candidate) => Num(c.id) == id
  }

  function IdIn(selected: seq<JsValue>): Candidate -> bool
  {
    (c: Candidate) => Num(c.id) in selected
  }

  /** `prev.map(c => pick(c) ? { ...c, stage } : c)`. */
  function Restage(cs: seq<Candidate>, pick: Candidate -> bool, stage: string): (r: seq<Candidate>)
    ensures |r| == |cs|
    ensures forall i :: 0 <= i < |cs| ==> r[i] == if pick(cs[i]) then cs[i].(stage := stage) else cs[i]
  {
    if cs == [] then []
    else [if pick(cs[0]) then cs[0].(stage := stage) else cs[0]] + Restage(cs[1..], pick, stage)
  }

  /** `handleCandidateMove` on the list: strict equality between the candidate's number and the given id. */
  function MoveCandidate(cs: seq<Candidate>, id: JsValue, to: string): seq<Candidate>
  {
    Restage(cs, IdIs(id), to)
  }

  /** An id no candidate has (a string id, for one) leaves the list as it was. */
  lemma MoveUnknownIdIsNoOp(cs: seq<Candidate>, id: JsValue, to: string)
    requires forall i :: 0 <= i < |cs| ==> Num(cs[i].id) != id
    ensures MoveCandidate(cs, id, to) == cs
  {
  }

  lemma StringIdMatchesNobody(cs: seq<Candidate>, s: string, to: string)
    ensures MoveCandidate(cs, Str(s), to) == cs
  {
    MoveUnknownIdIsNoOp(cs, Str(s), to);
  }

  /** A move changes the stage of the matching candidates and nothing else, order included. */
  lemma MoveChangesOnlyStage(cs: seq<Candidate>, id: JsValue, to: string, i: int)
    requires 0 <= i < |cs|
    ensures MoveCandidate(cs, id, to)[i].id == cs[i].id
    ensures MoveCandidate(cs, id, to)[i] == cs[i].(stage := MoveCandidate(cs, id, to)[i].stage)
    ensures MoveCandidate(cs, id, to)[i].stage == if Num(cs[i].id) == id then to else cs[i].stage
  {
  }

  /** Moving twice to the same stage is moving once. */
  lemma MoveIdempotent(cs: seq<Candidate>, id: JsValue, to: string)
    ensures MoveCandidate(MoveCandidate(cs, id, to), id, to) == MoveCandidate(cs, id, to)
  {
  }

  /** Filtering never looks at the stage, so a moved candidate that passes shows up in its new column. */
  lemma MovedCandidateShowsInTarget(cs: seq<Candidate>, id: int, to: string, f: Filters, i: int)
    requires 0 <= i < |cs| && cs[i].id == id && Passes(cs[i], f)
    ensures cs[i].(stage := to) in Column(FilterCandidates(MoveCandidate(cs, Num(id), to), f), to)
  {
    var moved := MoveCandidate(cs, Num(id), to);
    assert IdIs(Num(id))(cs[i]);
    var c := moved[i];
    assert c == cs[i].(stage := to);
    assert Passes(c, f) by {
      assert PassesSearch(c, f.search) == PassesSearch(cs[i], f.search);
    }
    var shown := FilterCandidates(moved, f);
    FilterMembers(moved, PassesUnder(f));
    assert c in moved;
    assert PassesUnder(f)(c);
    assert c in shown;
    FilterMembers(shown, StageIs(to));
    assert StageIs(to)(c);
  }

  /** Rejecting is moving to the 'Rejected' stage with the candidate's numeric id. */
  lemma RejectIsMove(cs: seq<Candidate>, id: int)
    ensures Restage(cs, IdIs(Num(id)), "Rejected") == MoveCandidate(cs, Num(id), "Rejected")
  {
  }

  /** The stage-setting bulk actions; every other action code changes nothing. */
  function BulkStage(action: string): Option<string>
  {
    if action == "move-screening" then Some("Screening")
    else if action == "reject" then Some("Rejected")
    else None
  }

  function ApplyBulk(cs: seq<Candidate>, selected: seq<JsValue>, action: string): (r: seq<Candidate>)
    ensures BulkStage(action).None? ==> r == cs
    ensures |r| == |cs|
    ensures forall i :: 0 <= i < |cs| ==>
      r[i].stage == (if BulkStage(action).Some? && Num(cs[i].id) in selected then BulkStage(action).value else cs[i].stage)
    ensures forall i :: 0 <= i < |cs| ==> r[i] == cs[i].(stage := r[i].stage)
  {
    match BulkStage(action)
    case None => cs
    case Some(stage) => Restage(cs, IdIn(selected), stage)
  }

  /** A bulk action over an empty selection changes nothing. */
  lemma BulkOnEmptySelection(cs: seq<Candidate>, action: string)
    ensures ApplyBulk(cs, [], action) == cs
  {
  }

  /** `handleSaveNotes` on the list. */
  function SaveNotes(cs: seq<Candidate>, id: JsValue, notes: string, rating: int): (r: seq<Candidate>)
    ensures |r| == |cs|
    ensures forall i :: 0 <= i < |cs| ==> r[i] == if Num(cs[i].id) == id then cs[i].(notes := notes, rating := rating) else cs[i]
  {
    if cs == [] then []
    else [if Num(cs[0].id) == id then cs[0].(notes := notes, rating := rating) else cs[0]] + SaveNotes(cs[1..], id, notes, rating)
  }

  /** Notes never move a candidate: every column keeps its size. */
  lemma SaveNotesKeepsColumns(cs: seq<Candidate>, id: JsValue, notes: string, rating: int, name: string)
    ensures |Column(SaveNotes(cs, id, notes, rating), name)| == |Column(cs, name)|
    decreases |cs|
  {
    if cs != [] {
      SaveNotesKeepsColumns(cs[1..], id, notes, rating, name);
      assert SaveNotes(cs, id, notes, rating)[1..] == SaveNotes(cs[1..], id, notes, rating);
    }
  }

  /**
   * The argument of `handleCandidateSelect`: an object opens the detail view,
   * anything else is toggled in the bulk selection. The cards only ever pass
   * their record (see CardSelect), so the second branch is never reached.
   */
  datatype SelectArg = Record(c: Candidate) | Primitive(v: JsValue)

  /** What a card sends, from a click on the card and from a tick of its checkbox alike. */
  function CardSelect(c: Candidate): (a: SelectArg)
    ensures a.Record? && a.c == c
  {
    Record(c)
  }

  /** The page state. */
  class Board {
    var candidates: seq<Candidate>
    var selected: seq<JsValue>
    var selectedCandidate: Option<Candidate>
    var isModalOpen: bool
    var isLoading: bool
    var filters: Filters
    var showConfetti: bool

    constructor ()
      ensures candidates == [] && selected == [] && selectedCandidate == None
      ensures !isModalOpen && isLoading && filters == DefaultFilters && !showConfetti
    {
      candidates := [];
      selected := [];
      selectedCandidate := None;
      isModalOpen := false;
      isLoading := true;
      filters := DefaultFilters;
      showConfetti := false;
    }

    /** What the board shows. */
    function Filtered(): seq<Candidate>
      reads this
    {
      FilterCandidates(candidates, filters)
    }

    function Columns(): map<string, seq<Candidate>>
      reads this
    {
      CandidatesByStage(Filtered())
    }

    /** The one-second load timer: the mock list replaces the empty one. */
    method Load(mock: seq<Candidate>)
      modifies this
      ensures candidates == mock && !isLoading
      ensures selected == old(selected) && filters == old(filters) && showConfetti == old(showConfetti)
      ensures selectedCandidate == old(selectedCandidate) && isModalOpen == old(isModalOpen)
    {
      candidates := mock;
      isLoading := false;
    }

    method SetFilters(f: Filters)
      modifies this
      ensures filters == f && candidates == old(candidates) && selected == old(selected)
      ensures showConfetti == old(showConfetti) && isLoading == old(isLoading)
      ensures selectedCandidate == old(selectedCandidate) && isModalOpen == old(isModalOpen)
    {
      filters := f;
    }

    /** `handleCandidateMove`: the confetti starts only for moves into 'Hired', matched or not. */
    method Move(id: JsValue, from: string, to: string)
      modifies this
      ensures candidates == MoveCandidate(old(candidates), id, to)
      ensures showConfetti == (old(showConfetti) || to == "Hired")
      ensures selected == old(selected) && filters == old(filters) && isLoading == old(isLoading)
      ensures selectedCandidate == old(selectedCandidate) && isModalOpen == old(isModalOpen)
    {
      candidates := MoveCandidate(candidates, id, to);
      if to == "Hired" {
        showConfetti := true;
      }
    }

    /** The three-second confetti timer. */
    method ConfettiDone()
      modifies this
      ensures !showConfetti && candidates == old(candidates) && selected == old(selected)
      ensures filters == old(filters) && isLoading == old(isLoading)
      ensures selectedCandidate == old(selectedCandidate) && isModalOpen == old(isModalOpen)
    {
      showConfetti := false;
    }

    /** `handleCandidateSelect`: a record opens the detail view, a bare id toggles the bulk selection. */
    method Select(arg: SelectArg)
      modifies this
      ensures arg.Record? ==> selectedCandidate == Some(arg.c) && isModalOpen && selected == old(selected)
      ensures arg.Primitive? ==>
        selected == Toggle(old(selected), arg.v) && selectedCandidate == old(selectedCandidate) && isModalOpen == old(isModalOpen)
      ensures candidates == old(candidates) && filters == old(filters)
      ensures showConfetti == old(showConfetti) && isLoading == old(isLoading)
    {
      match arg
      case Record(c) =>
        selectedCandidate := Some(c);
        isModalOpen := true;
      case Primitive(v) =>
        selected := Toggle(selected, v);
    }

    /** `handleCandidateReject`. */
    method Reject(id: JsValue)
      modifies this
      ensures candidates == MoveCandidate(old(candidates), id, "Rejected")
      ensures selected == old(selected) && filters == old(filters) && showConfetti == old(showConfetti)
      ensures isLoading == old(isLoading)
      ensures selectedCandidate == old(selectedCandidate) && isModalOpen == old(isModalOpen)
    {
      candidates := Restage(candidates, IdIs(id), "Rejected");
    }

    /** `handleBulkAction`: the selection is cleared whatever the action. */
    method BulkAction(action: string)
      modifies this
      ensures candidates == ApplyBulk(old(candidates), old(selected), action)
      ensures selected == []
      ensures filters == old(filters) && showConfetti == old(showConfetti) && isLoading == old(isLoading)
      ensures selectedCandidate == old(selectedCandidate) && isModalOpen == old(isModalOpen)
    {
      candidates := ApplyBulk(candidates, selected, action);
      selected := [];
    }

    /** `handleSaveNotes`. */
    method SaveNotesFor(id: JsValue, notes: string, rating: int)
      modifies this
      ensures candidates == SaveNotes(old(candidates), id, notes, rating)
      ensures selected == old(selected) && filters == old(filters) && showConfetti == old(showConfetti)
      ensures isLoading == old(isLoading)
      ensures selectedCandidate == old(selectedCandidate) && isModalOpen == old(isModalOpen)
    {
      candidates := SaveNotes(candidates, id, notes, rating);
    }

    /** Closing the detail view. */
    method CloseModal()
      modifies this
      ensures !isModalOpen && selectedCandidate == None
      ensures candidates == old(candidates) && selected == old(selected) && filters == old(filters)
      ensures showConfetti == old(showConfetti) && isLoading == old(isLoading)
    {
      isModalOpen := false;
      selectedCandidate := None;
    }

    /** A card's forward button moves its candidate to the card's next stage. */
    method ForwardFromCard(c: Candidate, columnStage: string)
      modifies this
      ensures columnStage != "Hired" ==>
        candidates == MoveCandidate(old(candidates), Num(c.id), PipelineCard.NextStage(columnStage).value)
      ensures columnStage == "Hired" ==> candidates == old(candidates)
      ensures showConfetti == (old(showConfetti) || (columnStage != "Hired" && PipelineCard.NextStage(columnStage).value == "Hired"))
      ensures selected == old(selected) && filters == old(filters) && isLoading == old(isLoading)
      ensures selectedCandidate == old(selectedCandidate) && isModalOpen == old(isModalOpen)
    {
      var r := PipelineCard.ForwardRequest(c.id, columnStage);
      if r.Some? {
        Move(Num(r.value.candidateId), r.value.from, r.value.to);
      }
    }
  }

  /** A forward click in the 'Rejected' column puts the candidate back at 'Applied'. */
  lemma ForwardFromRejected(cs: seq<Candidate>, id: int)
    ensures PipelineCard.ForwardRequest(id, "Rejected") == Some(PipelineCard.MoveRequest(id, "Rejected", "Applied"))
  {
    PipelineCard.RejectedReentersAtApplied();
  }
  /**
   * A session on a fresh board: the mock list loads, then any number of
   * card clicks or checkbox ticks, then a bulk action. Since a card always
   * sends its record, the selection stays empty and the bulk action
   * restages nobody, whatever its code.
   */
  method CardSessionBulk(mock: seq<Candidate>, picks: seq<Candidate>, action: string)
    returns (selectedBeforeBulk: seq<JsValue>, after: seq<Candidate>)
    ensures selectedBeforeBulk == []
    ensures after == mock
  {
    var b := new Board();
    b.Load(mock);
    var i := 0;
    while i < |picks|
      invariant 0 <= i <= |picks|
      invariant b.selected == [] && b.candidates == mock
    {
      b.Select(CardSelect(picks[i]));
      i := i + 1;
    }
    selectedBeforeBulk := b.selected;
    BulkOnEmptySelection(b.candidates, action);
    b.BulkAction(action);
    after := b.candidates;
  }
}
