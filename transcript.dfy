// The lesson transcript beside the video: which segment the playhead is in,
// the search that highlights the first matching segment, the seek a click on
// a segment asks for, and the `m:ss` stamp printed on each segment.

module Transcript {
  import opened Wrappers
  import opened Strings
  import opened Lists
  import opened Clock

  /** A transcript segment; times are whole seconds. */
  datatype Segment = Segment(id: int, startTime: nat, endTime: nat, text: string)

  const MockTranscript: seq<Segment> := [
    Segment(1, 0, 15, "Welcome to Advanced React Development. In this comprehensive course, we'll explore the latest features and best practices for building modern React applications."),
    Segment(2, 15, 35, "Today we'll start with React 18's new concurrent features, including Suspense, automatic batching, and the new useId hook for generating unique identifiers."),
    Segment(3, 35, 55, "Understanding these concepts is crucial for building performant applications that can handle complex user interactions and data fetching scenarios."),
    Segment(4, 55, 75, "Let's begin by examining how automatic batching works in React 18 and how it differs from the previous versions of React."),
    Segment(5, 75, 95, "Automatic batching means that React will group multiple state updates into a single re-render for better performance."),
    Segment(6, 95, 115, "This applies to updates inside event handlers, promises, timeouts, and native event handlers."),
    Segment(7, 115, 135, "Next, we'll explore Suspense for data fetching and how it can improve the user experience by showing loading states."),
    Segment(8, 135, 155, "Suspense allows components to 'wait' for something before they can render, making async operations more declarative."),
    Segment(9, 155, 175, "We'll also cover error boundaries and how they work with Suspense to handle loading and error states gracefully."),
    Segment(10, 175, 195, "Finally, we'll implement a practical example using these concepts to build a real-world application feature.")
  ]

  /** The playhead (a fractional second) is inside the half-open interval of the segment. */
  predicate Covers(s: Segment, t: real)
  {
    s.startTime as real <= t < s.endTime as real
  }

  function CoversAt(t: real): Segment -> bool
  {
    (s: Segment) => Covers(s, t)
  }

  /** `getCurrentSegment`: the first segment that covers the playhead, if any. */
  function CurrentSegment(segs: seq<Segment>, t: real): (r: Option<Segment>)
    ensures r.None? <==> forall i :: 0 <= i < |segs| ==> !Covers(segs[i], t)
    ensures r.Some? ==> exists i :: (0 <= i < |segs| && segs[i] == r.value && Covers(segs[i], t)
      && forall j :: 0 <= j < i ==> !Covers(segs[j], t))
  {
    var k := FindFirst(segs, CoversAt(t));
    if k < 0 then None else Some(segs[k])
  }

  /**
   * The segments follow one another from `start` without gap or overlap:
   * each starts where the previous one ended and is not empty.
   */
  predicate Tiles(segs: seq<Segment>, start: nat)
    decreases |segs|
  {
    segs == [] || (segs[0].startTime == start && start < segs[0].endTime && Tiles(segs[1..], segs[0].endTime))
  }

  /** Where a tiling that begins at `start` ends. */
  function End(segs: seq<Segment>, start: nat): nat
    decreases |segs|
  {
    if segs == [] then start else End(segs[1..], segs[0].endTime)
  }

  /** Every segment of a tiling lies within [start, End). */
  lemma {:induction false} TilesBounds(segs: seq<Segment>, start: nat)
    requires Tiles(segs, start)
    ensures start <= End(segs, start)
    ensures forall i :: 0 <= i < |segs| ==> start <= segs[i].startTime < segs[i].endTime <= End(segs, start)
  {
    if segs != [] {
      TilesBounds(segs[1..], segs[0].endTime);
      forall i | 0 < i < |segs|
        ensures start <= segs[i].startTime < segs[i].endTime <= End(segs, start)
      {
        assert segs[i] == segs[1..][i - 1];
      }
    }
  }

  /** In a tiling, an earlier segment ends no later than a later one starts. */
  lemma {:induction false} TilesOrdered(segs: seq<Segment>, start: nat, i: nat, j: nat)
    requires Tiles(segs, start) && i < j < |segs|
    ensures segs[i].endTime <= segs[j].startTime
  {
    if i == 0 {
      TilesBounds(segs[1..], segs[0].endTime);
      assert segs[j] == segs[1..][j - 1];
    } else {
      TilesOrdered(segs[1..], segs[0].endTime, i - 1, j - 1);
      assert segs[i] == segs[1..][i - 1];
      assert segs[j] == segs[1..][j - 1];
    }
  }

  /** Every instant of [start, End) is covered by some segment. */
  lemma {:induction false} TilesCover(segs: seq<Segment>, start: nat, t: real)
    requires Tiles(segs, start) && start as real <= t < End(segs, start) as real
    ensures exists i :: 0 <= i < |segs| && Covers(segs[i], t)
  {
    if segs == [] {
      assert false;
    } else if t < segs[0].endTime as real {
      assert Covers(segs[0], t);
    } else {
      TilesCover(segs[1..], segs[0].endTime, t);
      var i :| 0 <= i < |segs[1..]| && Covers(segs[1..][i], t);
      assert segs[i + 1] == segs[1..][i];
    }
  }

  /** At most one segment of a tiling covers any instant. */
  lemma TilesDisjoint(segs: seq<Segment>, start: nat, t: real, i: nat, j: nat)
    requires Tiles(segs, start) && i < |segs| && j < |segs|
    requires Covers(segs[i], t) && Covers(segs[j], t)
    ensures i == j
  {
    if i < j {
      TilesOrdered(segs, start, i, j);
    } else if j < i {
      TilesOrdered(segs, start, j, i);
    }
  }

  /**
   * Over a tiling the current segment is the one segment that covers the
   * playhead inside [start, End), and there is none outside it.
   */
  lemma CurrentIsTheCoveringSegment(segs: seq<Segment>, start: nat, t: real)
    requires Tiles(segs, start)
    ensures CurrentSegment(segs, t).Some? <==> start as real <= t < End(segs, start) as real
    ensures forall i :: 0 <= i < |segs| && Covers(segs[i], t) ==> CurrentSegment(segs, t) == Some(segs[i])
  {
    TilesBounds(segs, start);
    if start as real <= t < End(segs, start) as real {
      TilesCover(segs, start, t);
    }
    forall i | 0 <= i < |segs| && Covers(segs[i], t)
      ensures CurrentSegment(segs, t) == Some(segs[i])
    {
      var k :| 0 <= k < |segs| && segs[k] == CurrentSegment(segs, t).value && Covers(segs[k], t);
      TilesDisjoint(segs, start, t, i, k);
    }
  }

  /** The lesson's transcript tiles the first 195 seconds. */
  lemma MockTiles()
    ensures Tiles(MockTranscript, 0) && End(MockTranscript, 0) == 195
  {
    var m := MockTranscript;
    MockLaterHalfTiles();
    assert Tiles(m[4..], 75) && End(m[4..], 75) == 195 by { assert m[4..][1..] == m[5..]; }
    assert Tiles(m[3..], 55) && End(m[3..], 55) == 195 by { assert m[3..][1..] == m[4..]; }
    assert Tiles(m[2..], 35) && End(m[2..], 35) == 195 by { assert m[2..][1..] == m[3..]; }
    assert Tiles(m[1..], 15) && End(m[1..], 15) == 195 by { assert m[1..][1..] == m[2..]; }
    assert m[0..] == m;
  }

  /** The last five segments tile [95, 195). */
  lemma MockLaterHalfTiles()
    ensures Tiles(MockTranscript[5..], 95) && End(MockTranscript[5..], 95) == 195
  {
    var m := MockTranscript;
    assert m[9..][1..] == [];
    assert Tiles(m[9..], 175) && End(m[9..], 175) == 195;
    assert Tiles(m[8..], 155) && End(m[8..], 155) == 195 by { assert m[8..][1..] == m[9..]; }
    assert Tiles(m[7..], 135) && End(m[7..], 135) == 195 by { assert m[7..][1..] == m[8..]; }
    assert Tiles(m[6..], 115) && End(m[6..], 115) == 195 by { assert m[6..][1..] == m[7..]; }
    assert Tiles(m[5..], 95) && End(m[5..], 95) == 195 by { assert m[5..][1..] == m[6..]; }
  }

  /** Any playhead in [0, 195) has exactly one current segment, and any later one has none. */
  lemma MockHasOneCurrentSegment(t: real)
    requires t >= 0.0
    ensures t < 195.0 ==> CurrentSegment(MockTranscript, t).Some?
    ensures t < 195.0 ==> forall i, j :: 0 <= i < j < |MockTranscript| ==> !(Covers(MockTranscript[i], t) && Covers(MockTranscript[j], t))
    ensures t >= 195.0 ==> CurrentSegment(MockTranscript, t).None?
  {
    MockTiles();
    CurrentIsTheCoveringSegment(MockTranscript, 0, t);
    forall i, j | 0 <= i < j < |MockTranscript|
      ensures !(Covers(MockTranscript[i], t) && Covers(MockTranscript[j], t))
    {
      TilesOrdered(MockTranscript, 0, i, j);
    }
  }

  /** `handleSegmentClick`: the player is asked to seek to the segment's start. */
  function SeekTarget(s: Segment): nat
  {
    s.startTime
  }

  /** Seeking to a segment of a tiling makes exactly that segment the current one. */
  lemma SeekMakesCurrent(segs: seq<Segment>, start: nat, i: nat)
    requires Tiles(segs, start) && i < |segs|
    ensures CurrentSegment(segs, SeekTarget(segs[i]) as real) == Some(segs[i])
  {
    TilesBounds(segs, start);
    CurrentIsTheCoveringSegment(segs, start, SeekTarget(segs[i]) as real);
  }

  /** A row is drawn active when its id is the current segment's id. */
  predicate IsActiveRow(segs: seq<Segment>, t: real, i: nat)
    requires i < |segs|
  {
    var c := CurrentSegment(segs, t);
    c.Some? && c.value.id == segs[i].id
  }

  /** With distinct ids over a tiling, a row is active exactly when its segment covers the playhead. */
  lemma ActiveRowIffCovers(segs: seq<Segment>, start: nat, t: real, i: nat)
    requires Tiles(segs, start) && i < |segs|
    requires forall a, b :: 0 <= a < b < |segs| ==> segs[a].id != segs[b].id
    ensures IsActiveRow(segs, t, i) <==> Covers(segs[i], t)
  {
    CurrentIsTheCoveringSegment(segs, start, t);
    var c := CurrentSegment(segs, t);
    if c.Some? && c.value.id == segs[i].id {
      var k :| 0 <= k < |segs| && segs[k] == c.value && Covers(segs[k], t);
      assert k == i;
    }
  }

  function Matches(query: string): Segment -> bool
  {
    (s: Segment) => IncludesCI(s.text, query)
  }

  /**
   * The index `handleSearch` highlights: -1 for the empty query, otherwise
   * the first segment whose text contains the query ignoring case, or -1.
   */
  function FoundIndex(segs: seq<Segment>, query: string): (r: int)
    ensures -1 <= r < |segs|
    ensures query == "" ==> r == -1
    ensures query != "" && r >= 0 ==> IncludesCI(segs[r].text, query) && forall j :: 0 <= j < r ==> !IncludesCI(segs[j].text, query)
    ensures query != "" && r == -1 ==> forall j :: 0 <= j < |segs| ==> !IncludesCI(segs[j].text, query)
  {
    if |query| > 0 then FindFirst(segs, Matches(query)) else -1
  }

  /** Searching for a segment's whole text highlights that segment or an earlier one. */
  lemma SearchFindsNoLater(segs: seq<Segment>, k: nat)
    requires k < |segs| && segs[k].text != ""
    ensures 0 <= FoundIndex(segs, segs[k].text) <= k
  {
    SelfMatches(segs[k].text);
  }

  /** The line under the search box while a search is active. */
  function SearchStatus(isSearching: bool, highlightedIndex: int): (status: Option<string>)
    ensures status.Some? <==> isSearching
    ensures isSearching && highlightedIndex < 0 ==> status == Some("No results found")
  {
    if !isSearching then None
    else if highlightedIndex >= 0 then Some("Found in segment " + NatToString(highlightedIndex + 1))
    else Some("No results found")
  }

  /** The status names the found segment by its one-based position. */
  lemma SearchStatusReadsBack(highlightedIndex: nat)
    ensures SearchStatus(true, highlightedIndex).Some?
    ensures ParseInt(SearchStatus(true, highlightedIndex).value[17..]) == Some(highlightedIndex + 1)
  {
    var text := SearchStatus(true, highlightedIndex).value;
    assert text[17..] == NatToString(highlightedIndex + 1);
    ParsePrinted(highlightedIndex + 1);
  }

  /** The stamp at the left of each row: the segment's start as `m:ss`. */
  function StampOf(s: Segment): string
  {
    FormatTime(s.startTime)
  }

  /** Different rows of a tiling carry different stamps. */
  lemma StampsDistinct(segs: seq<Segment>, start: nat, i: nat, j: nat)
    requires Tiles(segs, start) && i < j < |segs|
    ensures StampOf(segs[i]) != StampOf(segs[j])
  {
    TilesOrdered(segs, start, i, j);
    TilesBounds(segs, start);
    if StampOf(segs[i]) == StampOf(segs[j]) {
      FormatTimeInjective(segs[i].startTime, segs[j].startTime);
    }
  }

  /** The search box and what it found. */
  class Panel {
    const transcript: seq<Segment>
    var searchQuery: string
    var highlightedIndex: int
    var isSearching: bool

    constructor ()
      ensures transcript == MockTranscript
      ensures searchQuery == "" && highlightedIndex == -1 && !isSearching
    {
      transcript := MockTranscript;
      searchQuery := "";
      highlightedIndex := -1;
      isSearching := false;
    }

    /** `handleSearch` over the panel's transcript. */
    method Search(query: string)
      modifies this
      ensures searchQuery == query
      ensures isSearching <==> |query| > 0
      ensures highlightedIndex == FoundIndex(transcript, query)
    {
      searchQuery := query;
      isSearching := |query| > 0;
      var found := -1;
      if |query| > 0 {
        found := FindFirst(transcript, Matches(query));
      }
      highlightedIndex := found;
    }
  }
}
