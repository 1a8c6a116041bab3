// The course outline of the learning page: modules that expand and collapse,
// locked modules whose headers are disabled, the lesson a click forwards, and
// each module's progress.

module ModuleAccordion {
  import opened Wrappers
  import opened Lists

  datatype Lesson = Lesson(id: int, title: string, duration: string, kind: string, isCompleted: bool)

  /**
   * A module of the course. The source literal also writes a numeric
   * `lessons` count, but the array written after it under the same key is
   * the one the object keeps, so only the array is modelled.
   */
  datatype CourseModule = CourseModule(id: int, title: string, duration: string, completed: nat, isLocked: bool, lessons: seq<Lesson>)

  const CourseModules: seq<CourseModule> := [
    CourseModule(1, "Getting Started with React 18", "2h 30m", 3, false, [
      Lesson(1, "Introduction to React 18", "15:30", "video", true),
      Lesson(2, "Setting up Development Environment", "12:45", "video", true),
      Lesson(3, "Understanding Concurrent Features", "18:20", "video", true),
      Lesson(4, "Automatic Batching Deep Dive", "22:15", "video", false),
      Lesson(5, "Quiz: React 18 Basics", "10:00", "quiz", false),
      Lesson(6, "Project Setup", "16:40", "project", false),
      Lesson(7, "Code Review and Best Practices", "14:25", "video", false),
      Lesson(8, "Module Assessment", "15:00", "assessment", false)]),
    CourseModule(2, "Suspense and Data Fetching", "3h 15m", 0, false, [
      Lesson(9, "Introduction to Suspense", "20:30", "video", false),
      Lesson(10, "Suspense for Code Splitting", "18:45", "video", false),
      Lesson(11, "Data Fetching with Suspense", "25:20", "video", false),
      Lesson(12, "Error Boundaries", "16:15", "video", false),
      Lesson(13, "Loading States and UX", "19:40", "video", false),
      Lesson(14, "Hands-on: Building a Data Fetcher", "35:25", "project", false),
      Lesson(15, "Advanced Suspense Patterns", "22:15", "video", false),
      Lesson(16, "Quiz: Suspense Concepts", "12:00", "quiz", false),
      Lesson(17, "Performance Optimization", "28:30", "video", false),
      Lesson(18, "Module Project", "45:00", "project", false)]),
    CourseModule(3, "Advanced Hooks and Patterns", "2h 45m", 0, true, [
      Lesson(19, "Custom Hooks Deep Dive", "24:30", "video", false),
      Lesson(20, "useCallback and useMemo", "18:45", "video", false),
      Lesson(21, "Context API Best Practices", "22:20", "video", false),
      Lesson(22, "Render Props Pattern", "16:15", "video", false),
      Lesson(23, "Compound Components", "20:40", "video", false),
      Lesson(24, "Advanced Project", "38:25", "project", false),
      Lesson(25, "Final Assessment", "25:00", "assessment", false)]),
    CourseModule(4, "Performance Optimization", "2h 20m", 0, true, [
      Lesson(26, "React DevTools Profiler", "18:30", "video", false),
      Lesson(27, "Bundle Splitting Strategies", "22:45", "video", false),
      Lesson(28, "Memory Leak Prevention", "16:20", "video", false),
      Lesson(29, "Virtual Scrolling", "25:15", "video", false),
      Lesson(30, "Performance Monitoring", "19:40", "video", false),
      Lesson(31, "Optimization Project", "42:25", "project", false)])
  ]

  /** A JavaScript quotient: a finite number, or what dividing by zero gives. */
  datatype Ratio = Finite(value: real) | Infinite | NotANumber

  /** `calculateProgress`: completed / lessons.length * 100. */
  function Progress(m: CourseModule): (p: Ratio)
    ensures |m.lessons| > 0 ==> p.Finite? && p.value * |m.lessons| as real == 100.0 * m.completed as real
    ensures |m.lessons| == 0 ==> (p == NotANumber <==> m.completed == 0) && (p == Infinite <==> m.completed > 0)
  {
    if |m.lessons| == 0 then (if m.completed == 0 then NotANumber else Infinite)
    else Finite(m.completed as real / |m.lessons| as real * 100.0)
  }

  /** The `progress === 100` test: a module is shown complete exactly when every one of its lessons is counted done. */
  lemma FullProgressIff(m: CourseModule)
    ensures Progress(m) == Finite(100.0) <==> |m.lessons| > 0 && m.completed == |m.lessons|
  {
    if |m.lessons| > 0 && Progress(m) == Finite(100.0) {
      assert 100.0 * |m.lessons| as real == 100.0 * m.completed as real;
    }
  }

  /** Progress never exceeds 100 while the completed count is within the lessons. */
  lemma ProgressBounded(m: CourseModule)
    requires 0 < |m.lessons| && m.completed <= |m.lessons|
    ensures 0.0 <= Progress(m).value <= 100.0
  {
    var n := |m.lessons| as real;
    assert m.completed as real / n <= 1.0;
  }

  /** The four modules stand at 37.5%, 0%, 0% and 0%. */
  lemma CourseProgress()
    ensures Progress(CourseModules[0]) == Finite(37.5)
    ensures forall k :: 1 <= k < |CourseModules| ==> Progress(CourseModules[k]) == Finite(0.0)
  {
  }

  /** The header icon: a lock, a check once complete, otherwise an open book. */
  function HeaderIcon(m: CourseModule): (icon: string)
    ensures icon == "Lock" <==> m.isLocked
    ensures icon == "CheckCircle" <==> !m.isLocked && |m.lessons| > 0 && m.completed == |m.lessons|
  {
    FullProgressIff(m);
    if m.isLocked then "Lock" else if Progress(m) == Finite(100.0) then "CheckCircle" else "BookOpen"
  }

  /** `getTypeIcon`; an unknown lesson type gets the plain document icon. */
  function TypeIcon(kind: string): (icon: string)
    ensures icon == "FileText" <==> kind !in ["video", "quiz", "project", "assessment"]
  {
    match kind
    case "video" => "Play"
    case "quiz" => "HelpCircle"
    case "project" => "Code"
    case "assessment" => "FileCheck"
    case _ => "FileText"
  }

  /** The lesson a click forwards, with its module's title attached. */
  datatype SelectedLesson = SelectedLesson(lesson: Lesson, moduleTitle: string)

  /** `handleLessonClick`: nothing for a locked module. */
  function LessonClick(l: Lesson, m: CourseModule): (r: Option<SelectedLesson>)
    ensures r.None? <==> m.isLocked
    ensures r.Some? ==> r.value.lesson == l && r.value.moduleTitle == m.title
  {
    if m.isLocked then None else Some(SelectedLesson(l, m.title))
  }

  /** What is drawn under a module header. */
  datatype Content = Collapsed | LessonList | LockedNotice

  function ContentOf(m: CourseModule, expanded: seq<int>): (c: Content)
    ensures c == LessonList <==> m.id in expanded && !m.isLocked
    ensures c == LockedNotice <==> m.id in expanded && m.isLocked
  {
    if m.id !in expanded then Collapsed
    else if m.isLocked then LockedNotice
    else LessonList
  }

  /** Some module with this id is locked. */
  predicate LockedId(ms: seq<CourseModule>, id: int)
  {
    exists k :: 0 <= k < |ms| && ms[k].id == id && ms[k].isLocked
  }

  predicate DistinctIds(ms: seq<CourseModule>)
  {
    forall i, j :: 0 <= i < j < |ms| ==> ms[i].id != ms[j].id
  }

  /** The accordion's state: which module ids are open. */
  class Accordion {
    const modules: seq<CourseModule>
    var expandedModules: seq<int>

    /** Only unlocked modules are ever open, and the open list has no duplicates. */
    predicate Valid()
      reads this
    {
      DistinctIds(modules) && Distinct(expandedModules)
      && forall id :: id in expandedModules ==> !LockedId(modules, id)
    }

    /** The course opens with its first module expanded. */
    constructor ()
      ensures modules == CourseModules && expandedModules == [1]
      ensures Valid()
    {
      modules := CourseModules;
      expandedModules := [1];
      new;
      assert !LockedId(modules, 1) by {
        forall k | 0 <= k < |modules| && modules[k].id == 1 ensures !modules[k].isLocked {
        }
      }
    }

    /** `toggleModule`: an open id is removed, a closed one appended. */
    method ToggleModule(id: int)
      modifies this
      ensures expandedModules == Toggle(old(expandedModules), id)
    {
      expandedModules := Toggle(expandedModules, id);
    }

    /** A click on the header of module `i`; the header of a locked module is disabled. */
    method ClickHeader(i: nat)
      requires Valid() && i < |modules|
      modifies this
      ensures Valid()
      ensures modules[i].isLocked ==> expandedModules == old(expandedModules)
      ensures !modules[i].isLocked ==> expandedModules == Toggle(old(expandedModules), modules[i].id)
    {
      if !modules[i].isLocked {
        var id := modules[i].id;
        ToggleDistinct(expandedModules, id);
        assert !LockedId(modules, id) by {
          forall k | 0 <= k < |modules| && modules[k].id == id ensures !modules[k].isLocked {
            assert k == i;
          }
        }
        ToggleModule(id);
      }
    }

    /** The "Module Locked" notice can never be reached through the headers. */
    lemma NoLockedNotice(i: nat)
      requires Valid() && i < |modules|
      ensures ContentOf(modules[i], expandedModules) != LockedNotice
    {
      if modules[i].isLocked && modules[i].id in expandedModules {
        assert LockedId(modules, modules[i].id);
      }
    }
  }
}
