// One column of the pipeline board: the drop guard, the header count and
// trophy, the body state, the footer with the 'Hired' success rate, and the
// selection mark on each card.

module PipelineColumn {
  import opened Wrappers
  import PipelineCard
  import opened PipelineBoard

  /** The call `handleDrop` makes to `onCandidateMove`: the id is the payload's text. */
  datatype MoveCall = MoveCall(candidateId: JsValue, from: string, to: string)

  function Drop(payload: PipelineCard.DragPayload, column: string): (r: Option<MoveCall>)
    ensures r.Some? <==> payload.sourceStage != column
    ensures r.Some? ==> r.value == MoveCall(Str(payload.candidateId), payload.sourceStage, column)
  {
    if payload.sourceStage != column
    then Some(MoveCall(Str(payload.candidateId), payload.sourceStage, column))
    else None
  }

  /**
   * Dragging a card onto another column forwards a string id, which is never
   * strictly equal to a numeric candidate id: the list stays as it was.
   */
  lemma DropMovesNobody(cs: seq<Candidate>, id: nat, from: string, column: string)
    requires from != column
    ensures Drop(PipelineCard.DragStart(id, from), column).Some?
    ensures MoveCandidate(cs, Drop(PipelineCard.DragStart(id, from), column).value.candidateId, column) == cs
  {
    StringIdMatchesNobody(cs, PipelineCard.DragStart(id, from).candidateId, column);
  }

  /** Applying a drop to the board: the stage list is untouched, but a drop on 'Hired' still starts the confetti. */
  method DropOnColumn(board: Board, payload: PipelineCard.DragPayload, column: string)
    modifies board
    ensures board.candidates == old(board.candidates)
    ensures board.showConfetti == (old(board.showConfetti) || (payload.sourceStage != column && column == "Hired"))
    ensures board.selected == old(board.selected) && board.filters == old(board.filters)
    ensures board.isLoading == old(board.isLoading)
    ensures board.selectedCandidate == old(board.selectedCandidate) && board.isModalOpen == old(board.isModalOpen)
  {
    var call := Drop(payload, column);
    if call.Some? {
      StringIdMatchesNobody(board.candidates, payload.candidateId, column);
      board.Move(call.value.candidateId, call.value.from, call.value.to);
    }
  }

  datatype Header = Header(count: nat, trophy: bool)

  function ColumnHeader(stage: string, cards: seq<Candidate>): (h: Header)
    ensures h.count == |cards|
    ensures h.trophy <==> stage == "Hired" && |cards| > 0
  {
    Header(|cards|, stage == "Hired" && |cards| > 0)
  }

  datatype Body = Skeleton | EmptyHint | Cards(shown: seq<Candidate>)

  function ColumnBody(isLoading: bool, cards: seq<Candidate>): (b: Body)
    ensures isLoading <==> b == Skeleton
    ensures b == EmptyHint <==> !isLoading && cards == []
    ensures b.Cards? ==> b.shown == cards && |cards| > 0
  {
    if isLoading then Skeleton else if |cards| == 0 then EmptyHint else Cards(cards)
  }

  /** `Math.round(x)` for a non-negative real: the nearest integer, halves upwards. */
  function Round(x: real): int
  {
    (x + 0.5).Floor
  }

  lemma RoundOfInteger(n: int)
    ensures Round(n as real) == n
  {
  }

  /** `Math.round((count / 10) * 100)`: exactly ten points per hire. */
  function SuccessRate(count: nat): (r: int)
    ensures r == 10 * count
  {
    var x := (count as real) / 10.0 * 100.0;
    assert x == (10 * count) as real;
    RoundOfInteger(10 * count);
    Round(x)
  }

  datatype Footer = Footer(total: nat, successRate: Option<int>)

  function ColumnFooter(stage: string, cards: seq<Candidate>): (f: Option<Footer>)
    ensures f.Some? <==> |cards| > 0
    ensures f.Some? ==> f.value.total == |cards|
    ensures f.Some? ==> (f.value.successRate.Some? <==> stage == "Hired")
    ensures f.Some? && f.value.successRate.Some? ==> f.value.successRate.value == 10 * |cards|
  {
    if |cards| == 0 then None
    else Some(Footer(|cards|, if stage == "Hired" then Some(SuccessRate(|cards|)) else None))
  }

  /** `selectedCandidates.includes(candidate.id)`. */
  predicate CardSelected(c: Candidate, selected: seq<JsValue>)
  {
    Num(c.id) in selected
  }

  /** Toggling a card's numeric id flips its mark and no other card's. */
  lemma ToggleFlipsMark(c: Candidate, d: Candidate, selected: seq<JsValue>)
    ensures CardSelected(c, Lists.Toggle(selected, Num(c.id))) == !CardSelected(c, selected)
    ensures d.id != c.id ==> CardSelected(d, Lists.Toggle(selected, Num(c.id))) == CardSelected(d, selected)
  {
  }

  /** The column icon; an unknown stage gets the plain circle. */
  function StageIcon(stage: string): (icon: string)
    ensures icon == "Circle" <==> stage !in StageNames
  {
    match stage
    case "Applied" => "FileText"
    case "Screening" => "Search"
    case "Interview" => "MessageCircle"
    case "Offer" => "Gift"
    case "Hired" => "CheckCircle"
    case "Rejected" => "XCircle"
    case _ => "Circle"
  }
}
