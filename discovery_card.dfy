// The candidate card of the discovery feed: the four-band colour of skill
// bars and match scores, the truncated skill and portfolio lists, and the
// card's own shortlist, note and expansion state.

module DiscoveryCard {
  import opened Wrappers
  import opened Strings
  import DiscoverySearch

  datatype Band = Success | Primary | Warning | Failing

  /** The thresholds shared by `getSkillColor` and `getMatchScoreColor`. */
  function ScoreBand(score: int): (b: Band)
    ensures b == Success <==> score >= 90
    ensures b == Primary <==> 70 <= score < 90
    ensures b == Warning <==> 50 <= score < 70
    ensures b == Failing <==> score < 50
  {
    if score >= 90 then Success
    else if score >= 70 then Primary
    else if score >= 50 then Warning
    else Failing
  }

  function Rank(b: Band): nat
  {
    match b
    case Failing => 0
    case Warning => 1
    case Primary => 2
    case Success => 3
  }

  /** A higher score never gets a lower band. */
  lemma BandMonotone(p: int, q: int)
    requires p <= q
    ensures Rank(ScoreBand(p)) <= Rank(ScoreBand(q))
  {
  }

  /** `slice(0, isExpanded ? length : 3)` on the skills. */
  function ShownSkills(skills: seq<DiscoverySearch.Skill>, expanded: bool): (r: seq<DiscoverySearch.Skill>)
    ensures expanded ==> r == skills
    ensures !expanded ==> |r| == (if |skills| < 3 then |skills| else 3) && r == skills[..|r|]
  {
    if expanded || |skills| <= 3 then skills else skills[..3]
  }

  /** The expand button: present only with more than three skills, labelled with how many are hidden. */
  function MoreButton(count: nat, expanded: bool): (button: Option<string>)
    ensures button.Some? <==> count > 3
    ensures button.Some? && expanded ==> button.value == "Show less"
  {
    if count <= 3 then None
    else if expanded then Some("Show less")
    else Some("Show " + NatToString(count - 3) + " more skills")
  }

  /** The hidden count printed on the collapsed button reads back as the number of skills beyond three. */
  lemma MoreButtonCount(count: nat)
    requires count > 3
    ensures MoreButton(count, false).Some?
    ensures ParseInt(MoreButton(count, false).value[5..]) == Some(count - 3)
  {
    var text := MoreButton(count, false).value;
    var digits := NatToString(count - 3);
    assert text[5..] == digits + " more skills";
    ParseIntOfNumber(count - 3, " more skills");
  }

  /** The portfolio preview: at most two projects, each with at most three technologies. */
  function ShownPortfolio(ps: seq<DiscoverySearch.Project>): (r: seq<DiscoverySearch.Project>)
    ensures |r| == if |ps| < 2 then |ps| else 2
    ensures forall i :: 0 <= i < |r| ==>
      r[i].name == ps[i].name && r[i].description == ps[i].description
      && r[i].technologies == ps[i].technologies[..if |ps[i].technologies| < 3 then |ps[i].technologies| else 3]
  {
    var take := if |ps| < 2 then |ps| else 2;
    seq(take, i requires 0 <= i < take =>
      var t := ps[i].technologies;
      ps[i].(technologies := if |t| <= 3 then t else t[..3]))
  }

  /** A shortlist or note report to the page. */
  datatype ShortlistReport = ShortlistReport(id: int, isShortlisted: bool)
  datatype NoteReport = NoteReport(id: int, note: string)

  class Card {
    const candidate: DiscoverySearch.Candidate
    var isExpanded: bool
    var showNotes: bool
    var note: string
    var isShortlisted: bool

    /** The note box and the heart start from the candidate's own note and flag. */
    constructor (c: DiscoverySearch.Candidate)
      ensures candidate == c && note == c.notes && isShortlisted == c.isShortlisted
      ensures !isExpanded && !showNotes
    {
      candidate := c;
      isExpanded := false;
      showNotes := false;
      note := c.notes;
      isShortlisted := c.isShortlisted;
    }

    /** The heart flips the card's flag and reports the flipped value. */
    method Shortlist() returns (report: ShortlistReport)
      modifies this
      ensures isShortlisted == !old(isShortlisted)
      ensures report == ShortlistReport(candidate.id, isShortlisted)
      ensures note == old(note) && showNotes == old(showNotes) && isExpanded == old(isExpanded)
    {
      isShortlisted := !isShortlisted;
      report := ShortlistReport(candidate.id, isShortlisted);
    }

    method EditNote(text: string)
      modifies this
      ensures note == text && showNotes == old(showNotes)
      ensures isShortlisted == old(isShortlisted) && isExpanded == old(isExpanded)
    {
      note := text;
    }

    /** Save forwards the text in the box and hides the editor. */
    method SaveNote() returns (report: NoteReport)
      modifies this
      ensures report == NoteReport(candidate.id, old(note)) && !showNotes
      ensures note == old(note) && isShortlisted == old(isShortlisted) && isExpanded == old(isExpanded)
    {
      report := NoteReport(candidate.id, note);
      showNotes := false;
    }

    method ToggleNotes()
      modifies this
      ensures showNotes == !old(showNotes) && note == old(note)
      ensures isShortlisted == old(isShortlisted) && isExpanded == old(isExpanded)
    {
      showNotes := !showNotes;
    }

    method CancelNotes()
      modifies this
      ensures !showNotes && note == old(note)
      ensures isShortlisted == old(isShortlisted) && isExpanded == old(isExpanded)
    {
      showNotes := false;
    }

    method ToggleExpanded()
      modifies this
      ensures isExpanded == !old(isExpanded) && note == old(note)
      ensures isShortlisted == old(isShortlisted) && showNotes == old(showNotes)
    {
      isExpanded := !isExpanded;
    }
  }
}
