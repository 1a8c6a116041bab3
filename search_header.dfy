// The search header of the candidate-discovery page: the advanced-query
// builder, the bulk-action buttons, the sort choices and the suggestion
// chips shown under an empty search box.

module SearchHeader {
  import opened Wrappers
  import opened Strings
  import opened Lists
  import DiscoverySearch

  /** The three boxes of the advanced panel. */
  datatype AdvancedQuery = AdvancedQuery(must: string, should: string, not: string)

  const EmptyQuery := AdvancedQuery("", "", "")

  /** The words of the built query: '+must', then the preferred text, then '-not', skipping empty boxes. */
  function Parts(q: AdvancedQuery): (ps: seq<string>)
    ensures |ps| <= 3
    ensures forall i :: 0 <= i < |ps| ==> ps[i] != ""
  {
    (if q.must != "" then ["+" + q.must] else [])
      + (if q.should != "" then [q.should] else [])
      + (if q.not != "" then ["-" + q.not] else [])
  }

  /** The query text the panel sends: the parts joined by single spaces. */
  function QueryText(q: AdvancedQuery): string
  {
    Join(Parts(q), " ")
  }

  /** `handleAdvancedSearch`'s builder: it pushes each part onto a list, then joins the list. */
  method BuildQuery(q: AdvancedQuery) returns (text: string)
    ensures text == QueryText(q)
  {
    var query: seq<string> := [];
    if q.must != "" {
      query := query + ["+" + q.must];
    }
    if q.should != "" {
      query := query + [q.should];
    }
    if q.not != "" {
      query := query + ["-" + q.not];
    }
    assert query == Parts(q);
    text := Join(query, " ");
  }

  /** The text is empty exactly when all three boxes are. */
  lemma EmptyQueryIff(q: AdvancedQuery)
    ensures QueryText(q) == "" <==> q == EmptyQuery
  {
    var ps := Parts(q);
    if ps != [] {
      assert |ps[0]| > 0;
    }
  }

  /** With all three boxes filled the text is '+must should -not'. */
  lemma FullQuery(q: AdvancedQuery)
    requires q.must != "" && q.should != "" && q.not != ""
    ensures QueryText(q) == "+" + q.must + " " + q.should + " -" + q.not
  {
    var ps := Parts(q);
    assert ps == ["+" + q.must, q.should, "-" + q.not];
    assert ps[1..] == [q.should, "-" + q.not];
    assert ps[1..][1..] == ["-" + q.not];
    assert Join(ps[1..], " ") == q.should + " " + ("-" + q.not);
    assert Join(ps, " ") == ("+" + q.must) + " " + (q.should + " " + ("-" + q.not));
  }

  /** When no box holds a space the words of the text, split at spaces, are exactly the parts. */
  lemma QueryWords(q: AdvancedQuery)
    requires q != EmptyQuery
    requires NoSeparator(q.must, ' ') && NoSeparator(q.should, ' ') && NoSeparator(q.not, ' ')
    ensures Split(QueryText(q), ' ') == Parts(q)
  {
    var ps := Parts(q);
    assert forall i :: 0 <= i < |ps| ==> ps[i] == "+" + q.must || ps[i] == q.should || ps[i] == "-" + q.not;
    assert NoSeparator("+" + q.must, ' ');
    assert NoSeparator("-" + q.not, ' ');
    JoinSplitRoundTrip(ps, ' ');
  }

  /**
   * The built text goes to the page as a plain search text, which is matched
   * literally: a '+word' query keeps no candidate without a '+' in its name,
   * title or skill names.
   */
  lemma PlusWordMatchesLiterally(c: DiscoverySearch.Candidate, must: string)
    requires must != ""
    requires '+' !in c.name && '+' !in c.title
    requires forall i :: 0 <= i < |c.topSkills| ==> '+' !in c.topSkills[i].name
    ensures !DiscoverySearch.MatchesQuery(c, QueryText(AdvancedQuery(must, "", "")))
  {
    var t := QueryText(AdvancedQuery(must, "", ""));
    assert t == "+" + must;
    var lt := Lower(t);
    assert lt[0] == '+';
    assert !IncludesCI(c.name, t) by { PlusFreeMisses(c.name, t); }
    assert !IncludesCI(c.title, t) by { PlusFreeMisses(c.title, t); }
    forall i | 0 <= i < |c.topSkills|
      ensures !IncludesCI(c.topSkills[i].name, t)
    {
      PlusFreeMisses(c.topSkills[i].name, t);
    }
  }

  lemma PlusFreeMisses(s: string, t: string)
    requires '+' !in s && |t| > 0 && Lower(t)[0] == '+'
    ensures !IncludesCI(s, t)
  {
    forall k | 0 <= k < |s| ensures Lower(s)[k] != '+' {
      assert s[k] != '+';
    }
    ContainedHead(Lower(s), Lower(t));
  }

  /** The query box, the advanced panel's boxes and its visibility. */
  class Header {
    var isAdvancedSearch: bool
    var advancedQuery: AdvancedQuery

    constructor ()
      ensures !isAdvancedSearch && advancedQuery == EmptyQuery
    {
      isAdvancedSearch := false;
      advancedQuery := EmptyQuery;
    }

    method ToggleAdvanced()
      modifies this
      ensures isAdvancedSearch == !old(isAdvancedSearch) && advancedQuery == old(advancedQuery)
    {
      isAdvancedSearch := !isAdvancedSearch;
    }

    method EditMust(text: string)
      modifies this
      ensures advancedQuery == old(advancedQuery).(must := text) && isAdvancedSearch == old(isAdvancedSearch)
    {
      advancedQuery := advancedQuery.(must := text);
    }

    method EditShould(text: string)
      modifies this
      ensures advancedQuery == old(advancedQuery).(should := text) && isAdvancedSearch == old(isAdvancedSearch)
    {
      advancedQuery := advancedQuery.(should := text);
    }

    method EditNot(text: string)
      modifies this
      ensures advancedQuery == old(advancedQuery).(not := text) && isAdvancedSearch == old(isAdvancedSearch)
    {
      advancedQuery := advancedQuery.(not := text);
    }

    /** Apply: the built text goes to the page and the panel closes; the boxes keep their text. */
    method Apply() returns (query: string)
      modifies this
      ensures query == QueryText(old(advancedQuery))
      ensures !isAdvancedSearch && advancedQuery == old(advancedQuery)
    {
      query := BuildQuery(advancedQuery);
      isAdvancedSearch := false;
    }

    method Cancel()
      modifies this
      ensures !isAdvancedSearch && advancedQuery == old(advancedQuery)
    {
      isAdvancedSearch := false;
    }
  }

  /** The sort choices, in menu order. */
  const SortOptions: seq<string> := ["match", "experience", "availability", "activity", "salary"]

  /** Only the first two choices change the order of the results. */
  lemma LastThreeSortsKeepOrder(s: seq<DiscoverySearch.Candidate>, i: nat)
    requires 2 <= i < |SortOptions|
    ensures DiscoverySearch.Arrange(s, SortOptions[i]) == s
  {
  }

  const BulkCodes: seq<string> := ["shortlist", "message", "export", "tag"]

  /** A bulk button's call: its action code and the selection as it stands. */
  datatype BulkCall = BulkCall(action: string, ids: seq<int>)

  /** The bulk buttons are drawn only while something is selected; each forwards the selection unchanged. */
  function BulkButtons(selected: seq<int>): (r: Option<seq<BulkCall>>)
    ensures r.None? <==> selected == []
    ensures r.Some? ==> |r.value| == |BulkCodes|
    ensures r.Some? ==> forall i :: 0 <= i < |r.value| ==> r.value[i] == BulkCall(BulkCodes[i], selected)
  {
    if selected == [] then None
    else Some(seq(|BulkCodes|, i requires 0 <= i < |BulkCodes| => BulkCall(BulkCodes[i], selected)))
  }

  const SuggestionTexts: seq<string> :=
    ["React Developer", "Senior Frontend", "Full Stack Engineer", "DevOps Engineer", "Product Manager", "UI/UX Designer"]

  /** The chips are offered only under an empty search box. */
  function Suggestions(query: string): (r: seq<string>)
    ensures query == "" ==> r == SuggestionTexts
    ensures query != "" ==> r == []
  {
    if query == "" then SuggestionTexts else []
  }

  /** Clicking a chip makes it the query, after which no chip is offered. */
  lemma PickedChipHidesChips(i: nat)
    requires i < |Suggestions("")|
    ensures Suggestions(Suggestions("")[i]) == []
  {
    assert SuggestionTexts[i] != "";
  }
}
