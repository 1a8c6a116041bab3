// The candidate card of the application-tracking pipeline: which stage the
// quick-action buttons move a candidate to, the skill-match badge, the skill
// chips and the drag payload the card hands to the drop target.

module PipelineCard {
  import opened Wrappers
  import opened Strings

  /** The forward path the card's arrow buttons walk; 'Rejected' is not on it. */
  const Path: seq<string> := ["Applied", "Screening", "Interview", "Offer", "Hired"]

  /** `xs.indexOf(x)`: the first position holding x, or -1. */
  function IndexOf(xs: seq<string>, x: string): (i: int)
    ensures -1 <= i < |xs|
    ensures i == -1 <==> x !in xs
    ensures 0 <= i ==> xs[i] == x && x !in xs[..i]
  {
    if xs == [] then -1
    else if xs[0] == x then 0
    else
      var j := IndexOf(xs[1..], x);
      assert xs[1..][..if j < 0 then 0 else j] == xs[1..if j < 0 then 1 else j + 1];
      if j == -1 then -1 else j + 1
  }

  /** `getNextStage`: the stage after the card's one; -1 from indexOf gives the first stage. */
  function NextStage(stage: string): Option<string>
  {
    var i := IndexOf(Path, stage);
    if i < |Path| - 1 then Some(Path[i + 1]) else None
  }

  /** `getPreviousStage`: the stage before the card's one, none at the start or off the path. */
  function PreviousStage(stage: string): Option<string>
  {
    var i := IndexOf(Path, stage);
    if i > 0 then Some(Path[i - 1]) else None
  }

  lemma PathPositions(k: nat)
    requires k < |Path|
    ensures IndexOf(Path, Path[k]) == k
  {
  }

  /** Every stage on the path but the last has the following one as its next stage. */
  lemma NextAlongPath(k: nat)
    requires k + 1 < |Path|
    ensures NextStage(Path[k]) == Some(Path[k + 1])
  {
    PathPositions(k);
  }

  /** Every stage on the path but the first has the one before as its previous stage. */
  lemma PreviousAlongPath(k: nat)
    requires 0 < k < |Path|
    ensures PreviousStage(Path[k]) == Some(Path[k - 1])
  {
    PathPositions(k);
  }

  /** 'Hired' has no next stage and 'Applied' no previous one. */
  lemma PathEnds()
    ensures NextStage("Hired") == None
    ensures PreviousStage("Applied") == None
  {
    PathPositions(4);
    PathPositions(0);
  }

  /** Going forward and then back returns to the stage one started from. */
  lemma {:induction false} NextThenPrevious(stage: string)
    requires stage in Path && stage != "Hired"
    ensures NextStage(stage).Some? && PreviousStage(NextStage(stage).value) == Some(stage)
  {
    var k := IndexOf(Path, stage);
    PathPositions(k + 1);
  }

  lemma {:induction false} PreviousThenNext(stage: string)
    requires stage in Path && stage != "Applied"
    ensures PreviousStage(stage).Some? && NextStage(PreviousStage(stage).value) == Some(stage)
  {
    var k := IndexOf(Path, stage);
    PathPositions(k - 1);
  }

  /**
   * A card in a column that is not on the path (the 'Rejected' column, or any
   * unknown stage) offers 'Applied' as its next stage and no previous stage.
   */
  lemma OffPathGoesToApplied(stage: string)
    requires stage !in Path
    ensures NextStage(stage) == Some("Applied")
    ensures PreviousStage(stage) == None
  {
  }

  lemma RejectedReentersAtApplied()
    ensures NextStage("Rejected") == Some("Applied")
    ensures PreviousStage("Rejected") == None
  {
    OffPathGoesToApplied("Rejected");
  }

  datatype Tone = Green | Yellow | Red

  /** The colour of the skill-match badge. */
  function SkillMatchTone(percentage: int): (t: Tone)
    ensures t == Green <==> percentage >= 90
    ensures t == Yellow <==> 70 <= percentage < 90
    ensures t == Red <==> percentage < 70
  {
    if percentage >= 90 then Green else if percentage >= 70 then Yellow else Red
  }

  /** A higher score never gets a worse badge. */
  lemma ToneMonotone(p: int, q: int)
    requires p <= q
    ensures SkillMatchTone(p) == Green ==> SkillMatchTone(q) == Green
    ensures SkillMatchTone(q) == Red ==> SkillMatchTone(p) == Red
  {
  }

  /** The quick-action row: the back button, the forward button and the always present reject button. */
  datatype Actions = Actions(back: Option<string>, forward: Option<string>, reject: bool)

  function QuickActions(stage: string): (a: Actions)
    ensures a.reject
    ensures a.back.Some? <==> stage in Path && stage != "Applied"
    ensures a.forward.None? <==> stage == "Hired"
    ensures a.back == PreviousStage(stage) && a.forward == NextStage(stage)
  {
    Actions(PreviousStage(stage), NextStage(stage), true)
  }

  /** The move request a quick-action button sends: the card's numeric id, its column and the target. */
  datatype MoveRequest = MoveRequest(candidateId: int, from: string, to: string)

  function ForwardRequest(id: int, stage: string): (r: Option<MoveRequest>)
    ensures r.Some? <==> stage != "Hired"
    ensures r.Some? ==> r.value.candidateId == id && r.value.from == stage
    ensures r.Some? ==> r.value.to == NextStage(stage).value
  {
    var a := QuickActions(stage);
    if a.forward.Some? then Some(MoveRequest(id, stage, a.forward.value)) else None
  }

  function BackRequest(id: int, stage: string): (r: Option<MoveRequest>)
    ensures r.Some? <==> stage in Path && stage != "Applied"
    ensures r.Some? ==> r.value.candidateId == id && r.value.from == stage
    ensures r.Some? ==> r.value.to == PreviousStage(stage).value
  {
    var a := QuickActions(stage);
    if a.back.Some? then Some(MoveRequest(id, stage, a.back.value)) else None
  }

  /** The skill chips: the first three skills, then a "+N" chip counting the rest. */
  datatype Chips = Chips(shown: seq<string>, more: Option<nat>)

  function SkillChips(skills: seq<string>): (c: Chips)
    ensures |c.shown| == if |skills| < 3 then |skills| else 3
    ensures c.shown == skills[..|c.shown|]
    ensures c.more.Some? <==> |skills| > 3
    ensures c.more.Some? ==> |c.shown| + c.more.value == |skills|
  {
    if |skills| > 3 then Chips(skills[..3], Some(|skills| - 3)) else Chips(skills, None)
  }

  /**
   * The drag payload: `dataTransfer.setData` turns the numeric id into its
   * decimal text, so the drop target reads back a string.
   */
  datatype DragPayload = DragPayload(candidateId: string, sourceStage: string)

  function DragStart(id: nat, stage: string): (p: DragPayload)
    ensures p.sourceStage == stage
    ensures ParseInt(p.candidateId) == Some(id)
  {
    ParsePrinted(id);
    DragPayload(NatToString(id), stage)
  }
}
