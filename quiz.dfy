// The lesson quiz: answer selection, grading, the rounded percentage score,
// the question navigator, the countdown and its `m:ss` text, and reset.

module Quiz {
  import opened Wrappers
  import opened Strings
  import opened Lists
  import opened Clock

  /** A question as the scoring sees it; `multiSelect` is `type === 'multiple-select'`. */
  datatype Question = Question(id: int, multiSelect: bool, correctAnswer: int, correctAnswers: seq<int>)

  /** A stored answer: one option index, or the list of ticked option indices. */
  datatype Answer = Single(index: int) | Multi(indices: seq<int>)

  /** The five questions of the quiz: four single-choice answers and one multi-select set. */
  const Questions: seq<Question> := [
    Question(1, false, 1, []),
    Question(2, false, 2, []),
    Question(3, false, 1, []),
    Question(4, true, 0, [0, 1, 2]),
    Question(5, false, 1, [])
  ]

  const TimeLimit: nat := 600
  const PassingScore: int := 70

  /** The ticked indices of a multi-select question, `prev[questionId] || []`. */
  function Ticked(answers: map<int, Answer>, qid: int): seq<int>
  {
    if qid in answers && answers[qid].Multi? then answers[qid].indices else []
  }

  /**
   * `handleAnswerSelect`: a single-choice answer replaces the stored one; a
   * multi-select click removes the index when ticked and appends it
   * otherwise. Only the question's own entry changes.
   */
  function Select(answers: map<int, Answer>, qid: int, index: int, multi: bool): (r: map<int, Answer>)
    ensures qid in r && forall k :: k != qid ==> (k in r <==> k in answers) && (k in answers ==> r[k] == answers[k])
    ensures !multi ==> r[qid] == Single(index)
    ensures multi ==> r[qid].Multi? && (index in r[qid].indices <==> index !in Ticked(answers, qid))
    ensures multi ==> forall j :: j != index ==> (j in r[qid].indices <==> j in Ticked(answers, qid))
  {
    if multi then answers[qid := Multi(Toggle(Ticked(answers, qid), index))]
    else answers[qid := Single(index)]
  }

  /** Ticking an option and unticking it leaves an empty list under the question, which still counts as answered. */
  lemma UntickedStaysAnswered(answers: map<int, Answer>, qid: int, index: int)
    requires qid !in answers
    ensures Select(Select(answers, qid, index, true), qid, index, true)[qid] == Multi([])
    ensures HasAnswered(Select(Select(answers, qid, index, true), qid, index, true), qid)
  {
    var once := Select(answers, qid, index, true);
    assert Ticked(once, qid) == [index];
    assert Filter([index], NotEqual(index)) == [];
  }

  /** Multi-select clicks keep the ticked list free of repeats. */
  lemma TickedStaysDistinct(answers: map<int, Answer>, qid: int, index: int)
    requires Distinct(Ticked(answers, qid))
    ensures Distinct(Ticked(Select(answers, qid, index, true), qid))
  {
    ToggleDistinct(Ticked(answers, qid), index);
  }

  /**
   * The grading of one question. A multi-select answer is right when the
   * sorted ticked list and the sorted key print the same, that is when they
   * hold the same indices the same number of times; an unanswered one is the
   * empty list. A single-choice answer is right when it is the key.
   */
  predicate IsCorrect(q: Question, answers: map<int, Answer>)
  {
    if q.multiSelect then multiset(Ticked(answers, q.id)) == multiset(q.correctAnswers)
    else q.id in answers && answers[q.id] == Single(q.correctAnswer)
  }

  /** With lists free of repeats, as the clicks keep them, a multi-select answer is right exactly when it ticks the set of the key. */
  lemma MultiGradingIsSetEquality(q: Question, answers: map<int, Answer>)
    requires q.multiSelect && Distinct(Ticked(answers, q.id)) && Distinct(q.correctAnswers)
    ensures IsCorrect(q, answers) <==> (forall x :: x in Ticked(answers, q.id) <==> x in q.correctAnswers)
  {
    var t := Ticked(answers, q.id);
    var k := q.correctAnswers;
    if forall x :: x in t <==> x in k {
      DistinctMultiset(t);
      DistinctMultiset(k);
      forall x ensures multiset(t)[x] == multiset(k)[x] {
        assert x in t <==> x in multiset(t);
        assert x in k <==> x in multiset(k);
      }
      MultisetExt(multiset(t), multiset(k));
    } else {
      var x :| !(x in t <==> x in k);
      assert !(x in multiset(t) <==> x in multiset(k));
    }
  }

  /** In a list without repeats nothing is counted twice. */
  lemma {:induction false} DistinctMultiset(s: seq<int>)
    requires Distinct(s)
    ensures forall x :: multiset(s)[x] <= 1
  {
    if s != [] {
      assert s == [s[0]] + s[1..];
      assert Distinct(s[1..]);
      DistinctMultiset(s[1..]);
      assert s[0] !in s[1..];
    }
  }

  /** The number of right answers over a list of questions. */
  function CorrectCount(qs: seq<Question>, answers: map<int, Answer>): (n: nat)
    ensures n <= |qs|
  {
    if qs == [] then 0
    else CorrectCount(qs[..|qs| - 1], answers) + (if IsCorrect(qs[|qs| - 1], answers) then 1 else 0)
  }

  /**
   * `Math.round(correct / n * 100)` taken on the exact fraction rather than
   * on doubles: the nearest whole percentage, halves rounded up.
   */
  function RoundPercent(correct: nat, n: nat): (p: int)
    requires 0 < n && correct <= n
    ensures 0 <= p <= 100
    ensures 2 * n * p <= 200 * correct + n < 2 * n * p + 2 * n
    ensures correct == n ==> p == 100
    ensures correct == 0 ==> p == 0
    ensures n < 200 ==> (p == 100 <==> correct == n)
    ensures n <= 200 ==> (p == 0 <==> correct == 0)
  {
    var p := (200 * correct + n) / (2 * n);
    RoundingFacts(correct, n, p);
    p
  }

  lemma RoundingFacts(correct: nat, n: nat, p: int)
    requires 0 < n && correct <= n && p == (200 * correct + n) / (2 * n)
    ensures 0 <= p <= 100
    ensures 2 * n * p <= 200 * correct + n < 2 * n * p + 2 * n
    ensures correct == n ==> p == 100
    ensures correct == 0 ==> p == 0
    ensures n < 200 ==> (p == 100 <==> correct == n)
    ensures n <= 200 ==> (p == 0 <==> correct == 0)
  {
    var d := 2 * n;
    var a := 200 * correct + n;
    assert d * p <= a < d * p + d;
    assert a < d * 101;
    LessByFactor(d, p, 101);
    if correct == n {
      assert d * 100 <= a < d * 100 + d;
      DivUnique(a, d, p, 100);
    }
    if correct == 0 {
      assert d * 0 <= a < d * 0 + d;
      DivUnique(a, d, p, 0);
    }
    if n < 200 && correct < n {
      assert a < d * 100;
      LessByFactor(d, p, 100);
    }
    if 0 < correct && n <= 200 {
      assert d * 1 <= a;
      LessByFactor(d, 0, p + 1);
      assert d * 0 < d * (p + 1);
      assert d * 1 < d * (p + 1);
      LessByFactor(d, 1, p + 1);
    }
  }

  lemma LessByFactor(d: int, p: int, q: int)
    requires d > 0 && d * p < d * q
    ensures p < q
  {
    assert d * (q - p) > 0;
  }

  /** Two quotients of one division are equal. */
  lemma DivUnique(a: int, d: int, p: int, k: int)
    requires d > 0 && d * p <= a < d * p + d && d * k <= a < d * k + d
    ensures p == k
  {
    assert d * p < d * (k + 1);
    assert d * k < d * (p + 1);
    LessByFactor(d, p, k + 1);
    LessByFactor(d, k, p + 1);
  }

  /** With 200 questions, 199 right ones already round to 100: the "100 means all right" rule needs fewer questions. */
  lemma HundredWithOneWrong()
    ensures RoundPercent(199, 200) == 100
  {
  }

  /**
   * The results screen prints `Math.round(score / 100 * n)` as the number of
   * right answers; with fewer than 100 questions that is the true count.
   */
  lemma CountReadsBack(correct: nat, n: nat)
    requires 0 < n < 100 && correct <= n
    ensures (2 * RoundPercent(correct, n) * n + 100) / 200 == correct
  {
    var p := RoundPercent(correct, n);
    var pn := p * n;
    assert 2 * pn <= 200 * correct + n < 2 * pn + 2 * n;
    assert 200 * correct <= 2 * pn + 100 < 200 * correct + 200;
    assert 2 * p * n == 2 * pn;
  }

  /** `calculateScore`: a counter over the questions, then the rounded percentage. */
  method CalculateScore(qs: seq<Question>, answers: map<int, Answer>) returns (score: int)
    requires |qs| > 0
    ensures score == RoundPercent(CorrectCount(qs, answers), |qs|)
    ensures 0 <= score <= 100
  {
    var correct := 0;
    var i := 0;
    while i < |qs|
      invariant 0 <= i <= |qs|
      invariant correct == CorrectCount(qs[..i], answers)
    {
      assert qs[..i + 1][..i] == qs[..i];
      if IsCorrect(qs[i], answers) {
        correct := correct + 1;
      }
      i := i + 1;
    }
    assert qs[..i] == qs;
    score := RoundPercent(correct, |qs|);
  }

  /** Nothing answered scores nothing when every multi-select key ticks something. */
  lemma {:induction false} NothingAnsweredCountsNothing(qs: seq<Question>)
    requires forall i :: 0 <= i < |qs| && qs[i].multiSelect ==> qs[i].correctAnswers != []
    ensures CorrectCount(qs, map[]) == 0
  {
    if qs != [] {
      var last := qs[|qs| - 1];
      if last.multiSelect {
        assert last.correctAnswers[0] in multiset(last.correctAnswers);
      }
      NothingAnsweredCountsNothing(qs[..|qs| - 1]);
    }
  }

  /** `answers[currentQ.id] !== undefined`. */
  predicate HasAnswered(answers: map<int, Answer>, qid: int)
  {
    qid in answers
  }

  function Passed(score: int): bool
  {
    score >= PassingScore
  }

  /** The countdown step: at one second or less it stops at zero and submits, otherwise it counts down. */
  function TickValue(t: int): (r: int)
    ensures t <= 1 ==> r == 0
    ensures t > 1 ==> r == t - 1 && r >= 1
  {
    if t <= 1 then 0 else t - 1
  }

  /** The quiz component's state. */
  class QuizState {
    const questions: seq<Question>
    var currentQuestion: int
    var selectedAnswers: map<int, Answer>
    var showResults: bool
    var score: int
    var timeLeft: int
    var isSubmitting: bool
    /** The answers the running countdown's submit call sees: those of the render that started it. */
    var timerAnswers: map<int, Answer>

    predicate Valid()
      reads this
    {
      |questions| > 0 && 0 <= currentQuestion < |questions|
    }

    constructor ()
      ensures Valid() && questions == Questions && currentQuestion == 0 && selectedAnswers == map[]
      ensures !showResults && score == 0 && timeLeft == TimeLimit && !isSubmitting && timerAnswers == map[]
    {
      questions := Questions;
      currentQuestion := 0;
      selectedAnswers := map[];
      showResults := false;
      score := 0;
      timeLeft := 600;
      isSubmitting := false;
      timerAnswers := map[];
    }

    method SelectAnswer(index: int)
      requires Valid()
      modifies this
      ensures Valid() && currentQuestion == old(currentQuestion)
      ensures selectedAnswers == Select(old(selectedAnswers), questions[currentQuestion].id, index, questions[currentQuestion].multiSelect)
      ensures timeLeft == old(timeLeft) && score == old(score) && showResults == old(showResults)
      ensures timerAnswers == old(timerAnswers) && isSubmitting == old(isSubmitting)
    {
      var q := questions[currentQuestion];
      selectedAnswers := Select(selectedAnswers, q.id, index, q.multiSelect);
    }

    /** `handleNext`: forward unless on the last question. */
    method Next()
      requires Valid()
      modifies this
      ensures Valid()
      ensures currentQuestion == if old(currentQuestion) < |questions| - 1 then old(currentQuestion) + 1 else old(currentQuestion)
      ensures selectedAnswers == old(selectedAnswers) && timeLeft == old(timeLeft) && score == old(score)
      ensures showResults == old(showResults) && timerAnswers == old(timerAnswers) && isSubmitting == old(isSubmitting)
    {
      if currentQuestion < |questions| - 1 {
        currentQuestion := currentQuestion + 1;
      }
    }

    /** `handlePrevious`: back unless on the first question. */
    method Previous()
      requires Valid()
      modifies this
      ensures Valid()
      ensures currentQuestion == if old(currentQuestion) > 0 then old(currentQuestion) - 1 else old(currentQuestion)
      ensures selectedAnswers == old(selectedAnswers) && timeLeft == old(timeLeft) && score == old(score)
      ensures showResults == old(showResults) && timerAnswers == old(timerAnswers) && isSubmitting == old(isSubmitting)
    {
      if currentQuestion > 0 {
        currentQuestion := currentQuestion - 1;
      }
    }

    /** The countdown effect starts on opening and whenever the results close; its callback keeps the answers of that moment. */
    method StartTimer()
      modifies this
      ensures timerAnswers == selectedAnswers && selectedAnswers == old(selectedAnswers)
      ensures currentQuestion == old(currentQuestion) && timeLeft == old(timeLeft) && score == old(score)
      ensures showResults == old(showResults) && isSubmitting == old(isSubmitting)
    {
      timerAnswers := selectedAnswers;
    }

    /** One second of the countdown; at the end it asks for a submit. */
    method Tick() returns (expired: bool)
      modifies this
      ensures timeLeft == TickValue(old(timeLeft)) && (expired <==> old(timeLeft) <= 1)
      ensures currentQuestion == old(currentQuestion) && selectedAnswers == old(selectedAnswers)
      ensures score == old(score) && showResults == old(showResults)
      ensures timerAnswers == old(timerAnswers) && isSubmitting == old(isSubmitting)
    {
      expired := timeLeft <= 1;
      timeLeft := TickValue(timeLeft);
    }

    method StartSubmit()
      modifies this
      ensures isSubmitting && selectedAnswers == old(selectedAnswers) && showResults == old(showResults)
      ensures currentQuestion == old(currentQuestion) && timeLeft == old(timeLeft) && score == old(score)
      ensures timerAnswers == old(timerAnswers)
    {
      isSubmitting := true;
    }

    /**
     * The end of `handleSubmit`: the score of the answers the calling
     * closure sees — `selectedAnswers` from the button, `timerAnswers` from
     * the countdown — and the results screen.
     */
    method FinishSubmit(fromTimer: bool)
      requires Valid()
      modifies this
      ensures Valid()
      ensures score == RoundPercent(CorrectCount(questions, if fromTimer then old(timerAnswers) else old(selectedAnswers)), |questions|)
      ensures showResults && !isSubmitting
      ensures selectedAnswers == old(selectedAnswers) && currentQuestion == old(currentQuestion) && timeLeft == old(timeLeft)
      ensures timerAnswers == old(timerAnswers)
    {
      var graded := if fromTimer then timerAnswers else selectedAnswers;
      var s := CalculateScore(questions, graded);
      score := s;
      showResults := true;
      isSubmitting := false;
    }

    /** `resetQuiz`. */
    method Reset()
      requires Valid()
      modifies this
      ensures Valid() && currentQuestion == 0 && selectedAnswers == map[] && !showResults && score == 0
      ensures timeLeft == TimeLimit && !isSubmitting && timerAnswers == old(timerAnswers)
    {
      currentQuestion := 0;
      selectedAnswers := map[];
      showResults := false;
      score := 0;
      timeLeft := TimeLimit;
      isSubmitting := false;
    }

    function OnLastQuestion(): bool
      reads this
    {
      currentQuestion == |questions| - 1
    }

    /** Next is disabled until the current question has an entry. */
    function NextDisabled(): bool
      reads this
      requires Valid()
    {
      !HasAnswered(selectedAnswers, questions[currentQuestion].id)
    }

    /** Submit is disabled until the current question has an entry, and while submitting. */
    function SubmitDisabled(): bool
      reads this
      requires Valid()
    {
      !HasAnswered(selectedAnswers, questions[currentQuestion].id) || isSubmitting
    }
  }

  /** A quiz submitted by the countdown right after it opened grades nothing answered, and scores 0. */
  lemma TimeoutAfterOpeningScoresZero()
    ensures CorrectCount(Questions, map[]) == 0
    ensures RoundPercent(CorrectCount(Questions, map[]), |Questions|) == 0
  {
    NothingAnsweredCountsNothing(Questions);
  }

  /** All five right is 100 and a pass; four right is 80; three right is 60 and a fail. */
  lemma FiveQuestionScores()
    ensures RoundPercent(5, 5) == 100 && Passed(100)
    ensures RoundPercent(4, 5) == 80 && RoundPercent(3, 5) == 60 && !Passed(60)
  {
  }
}
