// The search behind the candidate-discovery page: the candidate profile, the
// filter set the sidebar edits, the six filter stages, the scanner for salary
// texts such as "$120k - $150k", and the sort the header selects.

module DiscoverySearch {
  import opened Wrappers
  import opened Strings
  import opened Lists
  import opened Sorting

  datatype Skill = Skill(name: string, proficiency: int)
  datatype Project = Project(name: string, description: string, technologies: seq<string>)

  /** One entry of the page's candidate list (the avatar URL is left out). */
  datatype Candidate = Candidate(
    id: int, name: string, title: string, location: string, experience: string,
    availability: string, matchScore: int, isOnline: bool, isShortlisted: bool,
    lastActive: string, salaryExpectation: string, topSkills: seq<Skill>,
    portfolio: seq<Project>, notes: string)

  /** The salary bounds are the raw texts of two input boxes. */
  datatype SalaryBounds = SalaryBounds(min: string, max: string)
  datatype LocationFilter = LocationFilter(types: seq<string>, cities: string)

  datatype SearchFilters = SearchFilters(
    skills: seq<string>, experience: seq<string>, salary: SalaryBounds,
    location: LocationFilter, availability: seq<string>, matchScore: int)

  /** The page's initial filters, which are also what the sidebar clears to. */
  const NoFilters: SearchFilters :=
    SearchFilters([], [], SalaryBounds("", ""), LocationFilter([], ""), [], 0)

  // ---------------------------------------------------------------- stages
  // Each stage test is true for every candidate while its control is unset,
  // which is when `filteredCandidates` skips the stage.

  predicate HasSkillMatching(c: Candidate, q: string)
  {
    exists i :: 0 <= i < |c.topSkills| && IncludesCI(c.topSkills[i].name, q)
  }

  /** The free-text search: name, title or one of the skill names contains the query, ignoring case. */
  predicate MatchesQuery(c: Candidate, q: string)
  {
    IncludesCI(c.name, q) || IncludesCI(c.title, q) || HasSkillMatching(c, q)
  }

  function SearchTest(q: string): Candidate -> bool
  {
    (c: Candidate) => q == "" || MatchesQuery(c, q)
  }

  /** Some selected skill occurs, ignoring case, in some skill name of the candidate. */
  function SkillTest(skills: seq<string>): Candidate -> bool
  {
    (c: Candidate) => skills == [] || exists j :: 0 <= j < |skills| && HasSkillMatching(c, skills[j])
  }

  /** `parseInt(candidate.experience)`: the leading number of a text like "6 years", or NaN. */
  function Years(c: Candidate): Option<int>
  {
    ParseInt(c.experience)
  }

  /** One case of the experience switch; every comparison with NaN is false, and an unknown level passes. */
  predicate InLevel(level: string, years: Option<int>)
  {
    match level
    case "entry" => years.Some? && years.value <= 2
    case "mid" => years.Some? && 3 <= years.value <= 5
    case "senior" => years.Some? && 6 <= years.value <= 10
    case "lead" => years.Some? && years.value > 10
    case _ => true
  }

  function ExperienceTest(levels: seq<string>): Candidate -> bool
  {
    (c: Candidate) => levels == [] || exists j :: 0 <= j < |levels| && InLevel(levels[j], Years(c))
  }

  /** The match floor applies only when positive, and a score equal to it passes. */
  function MatchTest(floor: int): Candidate -> bool
  {
    (c: Candidate) => floor <= 0 || c.matchScore >= floor
  }

  /** Only a selected 'remote' constrains the location; the other types and the cities text never do. */
  function LocationTest(types: seq<string>): Candidate -> bool
  {
    (c: Candidate) => types == [] || "remote" !in types || Contains(Lower(c.location), "remote")
  }

  /**
   * `salaryExpectation.match(/\$(\d+)k/g)`, each match read back as a number:
   * a match is a '$', the longest run of digits after it and then a 'k'; after
   * a match the scan continues behind the 'k', otherwise one character on.
   */
  function Amounts(s: string): (r: seq<nat>)
    ensures 3 * |r| <= |s|
    decreases |s|
  {
    if s == [] then []
    else
      var d := LeadingDigits(s[1..]);
      if s[0] == '$' && d != [] && 1 + |d| < |s| && s[1 + |d|] == 'k'
      then [DigitsValue(d)] + Amounts(s[2 + |d|..])
      else Amounts(s[1..])
  }

  /** A salary bound after `parseInt`: a number, the empty upper bound's Infinity, or NaN. */
  datatype Bound = Finite(n: int) | Infinite | NotANumber

  /** `filters.salary.min ? parseInt(filters.salary.min) : 0`. */
  function LowerBound(text: string): (b: Bound)
    ensures b != Infinite
  {
    if text == "" then Finite(0)
    else match ParseInt(text)
      case Some(v) => Finite(v)
      case None => NotANumber
  }

  /** `filters.salary.max ? parseInt(filters.salary.max) : Infinity`. */
  function UpperBound(text: string): (b: Bound)
    ensures b == Infinite <==> text == ""
  {
    if text == "" then Infinite
    else match ParseInt(text)
      case Some(v) => Finite(v)
      case None => NotANumber
  }

  /** `x >= b` in JavaScript: false against NaN. */
  predicate AtLeast(x: int, b: Bound)
  {
    match b
    case Finite(n) => x >= n
    case Infinite => false
    case NotANumber => false
  }

  /** `x <= b` in JavaScript: true against Infinity, false against NaN. */
  predicate AtMost(x: int, b: Bound)
  {
    match b
    case Finite(n) => x <= n
    case Infinite => true
    case NotANumber => false
  }

  /** The asked-for range overlaps the entered bounds; a text with fewer than two amounts passes. */
  function SalaryTest(s: SalaryBounds): Candidate -> bool
  {
    (c: Candidate) =>
      (s.min == "" && s.max == "") ||
      var a := Amounts(c.salaryExpectation);
      |a| < 2 || (AtLeast(a[1] * 1000, LowerBound(s.min)) && AtMost(a[0] * 1000, UpperBound(s.max)))
  }

  /** All six stages together, in the order the page applies them. */
  function Matches(q: string, f: SearchFilters): Candidate -> bool
  {
    Both(Both(Both(Both(Both(SearchTest(q), SkillTest(f.skills)), ExperienceTest(f.experience)),
      MatchTest(f.matchScore)), LocationTest(f.location.types)), SalaryTest(f.salary))
  }

  // ------------------------------------------------------------------ sort

  function MatchKey(): Candidate -> int
  {
    (c: Candidate) => c.matchScore
  }

  /**
   * `parseInt(b.experience) - parseInt(a.experience)`; a text without a
   * leading number is ranked as zero years.
   */
  function YearsKey(): Candidate -> int
  {
    (c: Candidate) => match Years(c) case Some(v) => v case None => 0
  }

  /** The comparator of every other choice, which answers 0 (or NaN) for every pair. */
  function NoKey(): Candidate -> int
  {
    (c: Candidate) => 0
  }

  /** The sort applied to the filtered list: 'match' and 'experience' put the largest first, every other choice keeps the order. */
  function Arrange(s: seq<Candidate>, sortBy: string): (r: seq<Candidate>)
    ensures multiset(r) == multiset(s)
    ensures sortBy == "match" ==> SortedDesc(r, MatchKey())
    ensures sortBy == "experience" ==> SortedDesc(r, YearsKey())
    ensures sortBy != "match" && sortBy != "experience" ==> r == s
  {
    if sortBy == "match" then SortDesc(s, MatchKey())
    else if sortBy == "experience" then SortDesc(s, YearsKey())
    else
      ConstantKeyKeepsOrder(s, NoKey());
      SortBy(s, NoKey())
  }

  /** A stage whose control is unset leaves the running result as it was. */
  lemma SkipStage(s: seq<Candidate>, acc: Candidate -> bool, p: Candidate -> bool)
    requires forall x :: p(x)
    ensures Filter(s, Both(acc, p)) == Filter(s, acc)
  {
    FilterExt(s, Both(acc, p), acc);
  }

  /**
   * `filteredCandidates`: the list is narrowed stage by stage, each stage
   * only when its control is set, and then sorted.
   */
  method FilteredCandidates(pool: seq<Candidate>, query: string, f: SearchFilters, sortBy: string)
    returns (r: seq<Candidate>)
    ensures r == Arrange(Filter(pool, Matches(query, f)), sortBy)
  {
    var filtered := pool;
    var p := SearchTest(query);
    if query != "" {
      filtered := Filter(filtered, p);
    } else {
      FilterKeepsAll(pool, p);
    }
    var acc := p;

    p := SkillTest(f.skills);
    if |f.skills| > 0 {
      FilterFilter(pool, acc, p);
      filtered := Filter(filtered, p);
    } else {
      SkipStage(pool, acc, p);
    }
    acc := Both(acc, p);

    p := ExperienceTest(f.experience);
    if |f.experience| > 0 {
      FilterFilter(pool, acc, p);
      filtered := Filter(filtered, p);
    } else {
      SkipStage(pool, acc, p);
    }
    acc := Both(acc, p);

    p := MatchTest(f.matchScore);
    if f.matchScore > 0 {
      FilterFilter(pool, acc, p);
      filtered := Filter(filtered, p);
    } else {
      SkipStage(pool, acc, p);
    }
    acc := Both(acc, p);

    p := LocationTest(f.location.types);
    if |f.location.types| > 0 {
      FilterFilter(pool, acc, p);
      filtered := Filter(filtered, p);
    } else {
      SkipStage(pool, acc, p);
    }
    acc := Both(acc, p);

    p := SalaryTest(f.salary);
    if f.salary.min != "" || f.salary.max != "" {
      FilterFilter(pool, acc, p);
      filtered := Filter(filtered, p);
    } else {
      SkipStage(pool, acc, p);
    }
    acc := Both(acc, p);
    assert acc == Matches(query, f);

    r := Arrange(filtered, sortBy);
  }

  // ------------------------------------------------------------- properties

  /** The stages only remove candidates and keep the order of the rest. */
  lemma StagesOnlyRemove(pool: seq<Candidate>, q: string, f: SearchFilters)
    ensures IsSubsequence(Filter(pool, Matches(q, f)), pool)
    ensures forall c :: c in Filter(pool, Matches(q, f)) ==> c in pool
  {
    FilterMembers(pool, Matches(q, f));
  }

  /** With no query and the initial filters every candidate is kept, in the original order. */
  lemma {:induction false} NoFiltersKeepAll(pool: seq<Candidate>)
    ensures Filter(pool, Matches("", NoFilters)) == pool
    ensures Arrange(Filter(pool, Matches("", NoFilters)), "availability") == pool
  {
    forall i | 0 <= i < |pool| ensures Matches("", NoFilters)(pool[i]) {
    }
    FilterKeepsAll(pool, Matches("", NoFilters));
  }

  /** Selecting one of the candidate's own skill names always keeps the candidate. */
  lemma OwnSkillKeeps(c: Candidate, skills: seq<string>, i: nat, j: nat)
    requires i < |c.topSkills| && j < |skills| && skills[j] == c.topSkills[i].name
    ensures SkillTest(skills)(c)
  {
    SelfMatches(c.topSkills[i].name);
    assert HasSkillMatching(c, skills[j]);
  }

  /** Selecting a further skill never removes a candidate the non-empty selection kept. */
  lemma MoreSkillsWiden(c: Candidate, skills: seq<string>, extra: string)
    requires skills != [] && SkillTest(skills)(c)
    ensures SkillTest(skills + [extra])(c)
  {
    var j :| 0 <= j < |skills| && HasSkillMatching(c, skills[j]);
    assert (skills + [extra])[j] == skills[j];
  }

  /** For a text "N years" a single selected level keeps the candidate exactly when N is in its band. */
  lemma ExperienceBands(c: Candidate, n: nat, rest: string)
    requires c.experience == NatToString(n) + rest
    requires rest == [] || !IsDigit(rest[0])
    ensures ExperienceTest(["entry"])(c) <==> n <= 2
    ensures ExperienceTest(["mid"])(c) <==> 3 <= n <= 5
    ensures ExperienceTest(["senior"])(c) <==> 6 <= n <= 10
    ensures ExperienceTest(["lead"])(c) <==> n > 10
  {
    ParseIntOfNumber(n, rest);
    assert Years(c) == Some(n);
    SingleLevel("entry", c);
    SingleLevel("mid", c);
    SingleLevel("senior", c);
    SingleLevel("lead", c);
    BandBounds(n);
  }

  lemma BandBounds(n: int)
    ensures InLevel("entry", Some(n)) <==> n <= 2
    ensures InLevel("mid", Some(n)) <==> 3 <= n <= 5
    ensures InLevel("senior", Some(n)) <==> 6 <= n <= 10
    ensures InLevel("lead", Some(n)) <==> n > 10
  {
  }

  lemma SingleLevel(level: string, c: Candidate)
    ensures ExperienceTest([level])(c) <==> InLevel(level, Years(c))
  {
    if InLevel(level, Years(c)) {
      assert [level][0] == level;
    }
  }

  function Count(b: bool): nat
  {
    if b then 1 else 0
  }

  /** The four bands cover every number of years without overlap (the bands leave no gap). */
  lemma BandsPartition(y: int)
    ensures Count(InLevel("entry", Some(y))) + Count(InLevel("mid", Some(y)))
          + Count(InLevel("senior", Some(y))) + Count(InLevel("lead", Some(y))) == 1
  {
  }

  lemma UnknownLevelOnly(level: string)
    ensures InLevel(level, None) <==> level !in ["entry", "mid", "senior", "lead"]
  {
  }

  /** A text with no leading number passes only through a level outside the four known ones. */
  lemma UnreadableExperience(c: Candidate, levels: seq<string>)
    requires Years(c) == None && levels != []
    ensures ExperienceTest(levels)(c) <==> exists j :: 0 <= j < |levels| && levels[j] !in ["entry", "mid", "senior", "lead"]
  {
    forall j | 0 <= j < |levels|
      ensures InLevel(levels[j], Years(c)) <==> levels[j] !in ["entry", "mid", "senior", "lead"]
    {
      UnknownLevelOnly(levels[j]);
    }
    assert ExperienceTest(levels)(c) <==> exists j :: 0 <= j < |levels| && InLevel(levels[j], Years(c));
  }

  /** The match floor is inclusive. */
  lemma MatchFloorInclusive(c: Candidate, floor: int)
    requires floor > 0
    ensures MatchTest(floor)(c) <==> c.matchScore >= floor
  {
  }

  /** Without 'remote' among the selected types the location stage keeps everyone. */
  lemma OnlyRemoteConstrains(c: Candidate, types: seq<string>)
    requires "remote" !in types
    ensures LocationTest(types)(c)
  {
  }

  /** The cities text and the availability choices never change the result. */
  lemma CitiesAndAvailabilityIgnored(q: string, f: SearchFilters, cities: string, availability: seq<string>, c: Candidate)
    ensures Matches(q, f)(c) == Matches(q, f.(location := f.location.(cities := cities), availability := availability))(c)
  {
  }

  /** The salary text the candidate records use: "$<lo>k - $<hi>k". */
  function RangeText(lo: nat, hi: nat): string
  {
    "$" + NatToString(lo) + "k - $" + NatToString(hi) + "k"
  }

  lemma AmountsSkip(ch: char, rest: string)
    requires ch != '$'
    ensures Amounts([ch] + rest) == Amounts(rest)
  {
    assert ([ch] + rest)[1..] == rest;
  }

  lemma AmountsTake(n: nat, rest: string)
    ensures Amounts("$" + NatToString(n) + "k" + rest) == [n] + Amounts(rest)
  {
    var d := NatToString(n);
    var s := "$" + d + "k" + rest;
    assert s[1..] == d + ("k" + rest);
    LeadingDigitsOfDigits(d, "k" + rest);
    assert s[1 + |d|] == 'k';
    assert s[2 + |d|..] == rest;
    DigitsRoundTrip(n);
  }

  /** The separator between the two amounts holds no '$', so the scan passes over it. */
  lemma AmountsSeparator(rest: string)
    ensures Amounts(" - " + rest) == Amounts(rest)
  {
    var t1 := "- " + rest;
    var t2 := " " + rest;
    assert " - " + rest == [' '] + t1;
    assert t1 == ['-'] + t2;
    assert t2 == [' '] + rest;
    AmountsSkip(' ', t1);
    AmountsSkip('-', t2);
    AmountsSkip(' ', rest);
  }

  /** Scanning a printed range gives back its two amounts. */
  lemma AmountsOfRange(lo: nat, hi: nat)
    ensures Amounts(RangeText(lo, hi)) == [lo, hi]
  {
    var second := "$" + NatToString(hi) + "k";
    var tail := " - " + second;
    assert RangeText(lo, hi) == "$" + NatToString(lo) + "k" + tail;
    AmountsTake(lo, tail);
    AmountsSeparator(second);
    assert second == "$" + NatToString(hi) + "k" + "";
    AmountsTake(hi, "");
  }

  /** For a printed range and printed bounds the salary stage is the overlap test on thousands. */
  lemma SalaryOverlap(c: Candidate, lo: nat, hi: nat, min: nat, max: nat)
    requires c.salaryExpectation == RangeText(lo, hi)
    ensures SalaryTest(SalaryBounds(NatToString(min), NatToString(max)))(c)
        <==> hi * 1000 >= min && lo * 1000 <= max
  {
    AmountsOfRange(lo, hi);
    ParsePrinted(min);
    ParsePrinted(max);
    assert LowerBound(NatToString(min)) == Finite(min);
    assert UpperBound(NatToString(max)) == Finite(max);
  }

  /** An empty upper box leaves the range open above: only the lower bound is checked. */
  lemma OpenUpperBound(c: Candidate, lo: nat, hi: nat, min: nat)
    requires c.salaryExpectation == RangeText(lo, hi)
    ensures SalaryTest(SalaryBounds(NatToString(min), ""))(c) <==> hi * 1000 >= min
  {
    AmountsOfRange(lo, hi);
    ParsePrinted(min);
    assert LowerBound(NatToString(min)) == Finite(min);
  }

  /** A bound that does not read as a number (NaN) removes every candidate with a readable range. */
  lemma UnreadableBoundExcludes(c: Candidate, s: SalaryBounds)
    requires s.min != "" && ParseInt(s.min) == None
    requires |Amounts(c.salaryExpectation)| >= 2
    ensures !SalaryTest(s)(c)
  {
  }

  /** Candidates with equal match scores keep their relative order under the 'match' sort. */
  lemma MatchSortStable(s: seq<Candidate>, score: int)
    ensures Filter(Arrange(s, "match"), KeyIs(MatchKey(), score)) == Filter(s, KeyIs(MatchKey(), score))
  {
    SortDescStable(s, MatchKey(), score);
  }
}
