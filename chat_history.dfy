// The coach chat's history panel: the category tiles with their counts, the
// search and category filter, and the "last activity" label. Times are
// millisecond timestamps; the date in the browser's locale, shown past a
// week, is a parameter.

module ChatHistory {
  import opened Strings
  import opened Lists
  import opened Clock

  datatype Conversation = Conversation(id: int, title: string, category: string, preview: string,
                                       lastActivity: int, messageCount: nat, hasActionItems: bool)

  const ResumePreview: string :=
    "Discussed improvements for software developer resume, focusing on technical skills and project descriptions."
  const InterviewPreview: string :=
    "Practiced behavioral questions and discussed STAR method for answering interview questions."
  const TransitionPreview: string :=
    "Explored transition from marketing to UX design, discussed required skills and learning path."

  /** The page's three sample conversations, a day, two days and a week before `created`. */
  function SampleConversations(created: int): seq<Conversation>
  {
    [
      Conversation(1, "Resume Review Session", "resume-review", ResumePreview, created - DayMs, 12, true),
      Conversation(2, "Interview Preparation", "interview-prep", InterviewPreview, created - 2 * DayMs, 8, false),
      Conversation(3, "Career Transition Planning", "career-advice", TransitionPreview, created - 7 * DayMs, 15, true)
    ]
  }

  function InCategory(category: string): Conversation -> bool
  {
    (c: Conversation) => c.category == category
  }

  /** A category tile: its id, its label and how many conversations it holds. */
  datatype Category = Category(id: string, title: string, count: nat)

  const CategoryIds: seq<string> := ["career-advice", "resume-review", "interview-prep", "skill-development"]

  function CategoryCount(conversations: seq<Conversation>, category: string): (n: nat)
    ensures n <= |conversations|
  {
    |Filter(conversations, InCategory(category))|
  }

  /** The five tiles: everything first, then one per category. */
  function Categories(conversations: seq<Conversation>): (r: seq<Category>)
    ensures |r| == 5 && r[0] == Category("all", "All Conversations", |conversations|)
    ensures forall i :: 1 <= i < 5 ==> r[i].id == CategoryIds[i - 1] && r[i].count == CategoryCount(conversations, CategoryIds[i - 1])
  {
    [
      Category("all", "All Conversations", |conversations|),
      Category("career-advice", "Career Advice", CategoryCount(conversations, "career-advice")),
      Category("resume-review", "Resume Review", CategoryCount(conversations, "resume-review")),
      Category("interview-prep", "Interview Prep", CategoryCount(conversations, "interview-prep")),
      Category("skill-development", "Skill Development", CategoryCount(conversations, "skill-development"))
    ]
  }

  function CategorySum(conversations: seq<Conversation>): nat
  {
    CategoryCount(conversations, "career-advice") + CategoryCount(conversations, "resume-review")
    + CategoryCount(conversations, "interview-prep") + CategoryCount(conversations, "skill-development")
  }

  /**
   * The four category tiles never add up to more than the "all" tile, and
   * add up to exactly it when every conversation has one of the four
   * categories.
   */
  lemma {:induction false} CategoryCountsWithinAll(conversations: seq<Conversation>)
    ensures CategorySum(conversations) <= |conversations|
    ensures (forall i :: 0 <= i < |conversations| ==> conversations[i].category in CategoryIds)
      ==> CategorySum(conversations) == |conversations|
  {
    if conversations != [] {
      CategoryCountsWithinAll(conversations[1..]);
      assert forall i :: 0 <= i < |conversations[1..]| ==> conversations[1..][i] == conversations[i + 1];
    }
  }

  /** The panel's filter: the query in the title or the preview, ignoring case, and the category unless it is 'all'. */
  predicate MatchesConversation(c: Conversation, query: string, selectedCategory: string)
  {
    (IncludesCI(c.title, query) || IncludesCI(c.preview, query)) && (selectedCategory == "all" || c.category == selectedCategory)
  }

  function MatchesAt(query: string, selectedCategory: string): Conversation -> bool
  {
    (c: Conversation) => MatchesConversation(c, query, selectedCategory)
  }

  /** `filteredConversations`. */
  function FilteredConversations(conversations: seq<Conversation>, query: string, selectedCategory: string): (r: seq<Conversation>)
    ensures forall c :: c in r <==> c in conversations && MatchesConversation(c, query, selectedCategory)
    ensures IsSubsequence(r, conversations)
  {
    FilterMembers(conversations, MatchesAt(query, selectedCategory));
    Filter(conversations, MatchesAt(query, selectedCategory))
  }

  /** With an empty query, choosing a category shows as many conversations as its tile counts. */
  lemma TileCountIsListLength(conversations: seq<Conversation>, category: string)
    requires category != "all"
    ensures |FilteredConversations(conversations, "", category)| == CategoryCount(conversations, category)
  {
    forall c ensures MatchesAt("", category)(c) == InCategory(category)(c) {
      EmptyQueryMatches(c.title);
    }
    FilterExt(conversations, MatchesAt("", category), InCategory(category));
  }

  /** "No conversations found" shows exactly when no conversation passes the filter. */
  lemma EmptyMessageIff(conversations: seq<Conversation>, query: string, selectedCategory: string)
    ensures FilteredConversations(conversations, query, selectedCategory) == []
      <==> forall i :: 0 <= i < |conversations| ==> !MatchesConversation(conversations[i], query, selectedCategory)
  {
    var r := FilteredConversations(conversations, query, selectedCategory);
    if r != [] {
      assert r[0] in r;
    }
  }

  /** `getCategoryIcon`; an unknown category gets a speech bubble. */
  function CategoryIcon(category: string): (icon: string)
    ensures icon == "MessageSquare" <==> category !in CategoryIds
  {
    match category
    case "career-advice" => "Compass"
    case "resume-review" => "FileText"
    case "interview-prep" => "MessageCircle"
    case "skill-development" => "TrendingUp"
    case _ => "MessageSquare"
  }

  function Abs(x: int): nat
  {
    if x < 0 then -x else x
  }

  /** `Math.ceil(|now - date| / day)`: the number of started days between the two times. */
  function DiffDays(now: int, date: int): (d: nat)
    ensures d == 0 <==> now == date
    ensures d > 0 ==> (d - 1) * DayMs < Abs(now - date) <= d * DayMs
  {
    (Abs(now - date) + DayMs - 1) / DayMs
  }

  /** What the label says; `DaysAgo` carries the count that is printed. */
  datatype DateLabel = Today | Yesterday | DaysAgo(n: int) | OnDate

  /**
   * `formatDate`: one started day is "Today", two are "Yesterday", up to
   * seven print one less than the count. No started day at all, the very
   * instant, falls in the last branch and prints "-1 days ago".
   */
  function FormatDate(now: int, date: int): (l: DateLabel)
    ensures l == Today <==> 0 < Abs(now - date) <= DayMs
    ensures l == Yesterday <==> DayMs < Abs(now - date) <= 2 * DayMs
    ensures l.DaysAgo? <==> (now == date || 2 * DayMs < Abs(now - date) <= 7 * DayMs)
    ensures l.DaysAgo? ==> l.n == DiffDays(now, date) - 1 && l.n != 0 && l.n != 1 && -1 <= l.n <= 6
    ensures now == date ==> l == DaysAgo(-1)
  {
    var d := DiffDays(now, date);
    if d == 1 then Today
    else if d == 2 then Yesterday
    else if d <= 7 then DaysAgo(d - 1)
    else OnDate
  }

  function IntText(n: int): string
  {
    if n < 0 then "-" + NatToString(-n) else NatToString(n)
  }

  /** The printed label. */
  function DateText(l: DateLabel, localeDate: string): string
  {
    match l
    case Today => "Today"
    case Yesterday => "Yesterday"
    case DaysAgo(n) => IntText(n) + " days ago"
    case OnDate => localeDate
  }

  /** A conversation updated this very millisecond reads "-1 days ago". */
  lemma SameInstantReadsMinusOne(now: int, localeDate: string)
    ensures DateText(FormatDate(now, now), localeDate) == "-1 days ago"
  {
    assert NatToString(1) == "1";
  }

  /**
   * The sample labels depend on how long after the samples were made the
   * panel is drawn: at the same instant a day ago reads "Today" and a week
   * ago "6 days ago"; any later within a day they read "Yesterday",
   * "2 days ago" and the locale date.
   */
  lemma SampleLabels(created: int, elapsed: int)
    requires 0 <= elapsed < DayMs
    ensures var s := SampleConversations(created);
      elapsed == 0 ==> (FormatDate(created + elapsed, s[0].lastActivity) == Today
                        && FormatDate(created + elapsed, s[1].lastActivity) == Yesterday
                        && FormatDate(created + elapsed, s[2].lastActivity) == DaysAgo(6))
    ensures var s := SampleConversations(created);
      elapsed > 0 ==> (FormatDate(created + elapsed, s[0].lastActivity) == Yesterday
                       && FormatDate(created + elapsed, s[1].lastActivity) == DaysAgo(2)
                       && FormatDate(created + elapsed, s[2].lastActivity) == OnDate)
  {
    var s := SampleConversations(created);
    var now := created + elapsed;
    assert Abs(now - s[0].lastActivity) == DayMs + elapsed;
    assert Abs(now - s[1].lastActivity) == 2 * DayMs + elapsed;
    assert Abs(now - s[2].lastActivity) == 7 * DayMs + elapsed;
    if elapsed > 0 {
      assert DiffDays(now, s[2].lastActivity) == 8;
    } else {
      assert DiffDays(now, s[2].lastActivity) == 7;
    }
  }
}
