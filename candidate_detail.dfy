// The candidate detail modal of the pipeline page: its tab, notes, rating and
// edit-mode state, and the requests its buttons send back to the page.

module CandidateDetail {
  import opened Wrappers
  import opened PipelineBoard
  import PipelineCard
  import PipelineColumn

  const Tabs: seq<string> := ["overview", "experience", "skills", "notes", "timeline"]

  /** The match badge of the overview tab: the same three bands as the card's badge. */
  function MatchBadge(skillMatch: int): (t: PipelineCard.Tone)
    ensures t == PipelineCard.SkillMatchTone(skillMatch)
  {
    if skillMatch >= 90 then PipelineCard.Green
    else if skillMatch >= 70 then PipelineCard.Yellow
    else PipelineCard.Red
  }

  /** Which of the five stars are lit for a rating. */
  function LitStars(rating: int): (lit: seq<bool>)
    ensures |lit| == 5
    ensures forall i :: 0 <= i < 5 ==> (lit[i] <==> i + 1 <= rating)
  {
    [1 <= rating, 2 <= rating, 3 <= rating, 4 <= rating, 5 <= rating]
  }

  /** After clicking star k exactly the first k stars are lit. */
  lemma ClickedStarsLit(k: int)
    requires 1 <= k <= 5
    ensures forall i :: 0 <= i < 5 ==> (LitStars(k)[i] <==> i < k)
  {
  }

  /** Notes saved through the modal: the candidate's id, the edited notes and the rating. */
  datatype SaveRequest = SaveRequest(candidateId: int, notes: string, rating: int)

  class DetailModal {
    var candidate: Option<Candidate>
    var activeTab: string
    var notes: string
    var rating: int
    var isEditingNotes: bool

    /** The initial state is taken from the candidate present when the modal is first mounted. */
    constructor (initial: Option<Candidate>)
      ensures candidate == initial && activeTab == "overview" && !isEditingNotes
      ensures notes == if initial.Some? then initial.value.notes else ""
      ensures rating == if initial.Some? then initial.value.rating else 0
    {
      candidate := initial;
      activeTab := "overview";
      notes := if initial.Some? then initial.value.notes else "";
      rating := if initial.Some? then initial.value.rating else 0;
      isEditingNotes := false;
    }

    /** Nothing is drawn without a candidate; with one, the dialog shows while the page holds it open. */
    function Visible(isOpen: bool): bool
      reads this
    {
      candidate.Some? && isOpen
    }

    /**
     * The page passes a new candidate without remounting: the notes, rating,
     * tab and edit flag stay as they were.
     */
    method ReceiveCandidate(c: Option<Candidate>)
      modifies this
      ensures candidate == c
      ensures notes == old(notes) && rating == old(rating)
      ensures activeTab == old(activeTab) && isEditingNotes == old(isEditingNotes)
    {
      candidate := c;
    }

    method SelectTab(i: nat)
      requires i < |Tabs|
      modifies this
      ensures activeTab == Tabs[i]
      ensures candidate == old(candidate) && notes == old(notes) && rating == old(rating)
      ensures isEditingNotes == old(isEditingNotes)
    {
      activeTab := Tabs[i];
    }

    /** Clicking star k sets the rating to k. */
    method ClickStar(k: int)
      requires 1 <= k <= 5
      modifies this
      ensures rating == k && LitStars(rating) == LitStars(k)
      ensures candidate == old(candidate) && notes == old(notes) && activeTab == old(activeTab)
      ensures isEditingNotes == old(isEditingNotes)
    {
      rating := k;
    }

    /** Typing into the notes box while editing. */
    method EditNotes(text: string)
      modifies this
      ensures notes == text
      ensures candidate == old(candidate) && rating == old(rating) && activeTab == old(activeTab)
      ensures isEditingNotes == old(isEditingNotes)
    {
      notes := text;
    }

    /** The Edit/Save button (drawn only with a candidate): Save forwards the notes and leaves edit mode, Edit enters it. */
    method ClickEditButton() returns (saved: Option<SaveRequest>)
      requires candidate.Some?
      modifies this
      ensures candidate == old(candidate) && notes == old(notes) && rating == old(rating)
      ensures old(isEditingNotes) ==> saved == Some(SaveRequest(candidate.value.id, notes, rating))
      ensures !old(isEditingNotes) ==> saved == None
      ensures isEditingNotes == !old(isEditingNotes)
      ensures activeTab == old(activeTab)
    {
      if isEditingNotes {
        saved := Some(SaveRequest(candidate.value.id, notes, rating));
        isEditingNotes := false;
      } else {
        saved := None;
        isEditingNotes := true;
      }
    }

    /** "Move to Next Stage" asks for the literal stage 'next' from the literal stage 'current'. */
    method MoveToNext() returns (call: PipelineColumn.MoveCall)
      requires candidate.Some?
      ensures call == PipelineColumn.MoveCall(Num(candidate.value.id), "current", "next")
    {
      call := PipelineColumn.MoveCall(Num(candidate.value.id), "current", "next");
    }

    method RejectRequest() returns (id: JsValue)
      requires candidate.Some?
      ensures id == Num(candidate.value.id)
    {
      id := Num(candidate.value.id);
    }
  }

  /** The stage 'next' is not a column, so the moved candidate disappears from every column. */
  lemma MoveToNextHidesCandidate(cs: seq<Candidate>, f: Filters, i: nat, n: string)
    requires i < |cs| && n in StageNames
    ensures MoveCandidate(cs, Num(cs[i].id), "next")[i].stage == "next"
    ensures MoveCandidate(cs, Num(cs[i].id), "next")[i] !in Column(FilterCandidates(MoveCandidate(cs, Num(cs[i].id), "next"), f), n)
  {
    var moved := MoveCandidate(cs, Num(cs[i].id), "next");
    assert IdIs(Num(cs[i].id))(cs[i]);
    OffBoardStageInNoColumn(FilterCandidates(moved, f), moved[i], n);
  }

  /** The page mounts the modal before any candidate is chosen, so it starts with no notes and no stars. */
  method MountedByPage() returns (m: DetailModal)
    ensures fresh(m) && m.notes == "" && m.rating == 0 && m.candidate == None
  {
    m := new DetailModal(None);
  }
}
