/**
 * The self-check quiz: a fixed list of three questions, a generation step that
 * completes after a delay, answer selection, forward and backward navigation,
 * a results screen with a score, and a reset.
 *
 * The transitions are specified as functions on a `QuizState` value; the
 * `QuizEngine` class holds the component's state fields and its handlers are
 * proved to perform exactly those transitions.
 */
module Quiz {

  datatype Question = Question(
    id: nat, prompt: string, options: seq<string>, correctAnswer: int, explanation: string)

  const Questions: seq<Question> := [
    Question(1, "What is the correct way to define a function in Python?",
      ["function myFunc():", "def myFunc():", "define myFunc():", "func myFunc():"], 1,
      "In Python, functions are defined using the 'def' keyword followed by the function name and parentheses."),
    Question(2, "Which of the following is a mutable data type in Python?",
      ["String", "Tuple", "List", "Integer"], 2,
      "Lists are mutable in Python, meaning their contents can be changed after creation. Strings, tuples, and integers are immutable."),
    Question(3, "What does the 'return' statement do in a Python function?",
      ["Prints a value to the console", "Ends the program execution",
       "Sends a value back to the caller", "Creates a new variable"], 2,
      "The 'return' statement sends a value back to the code that called the function, allowing functions to produce output.")
  ]

  predicate WellFormed(q: Question) {
    |q.options| >= 2 && 0 <= q.correctAnswer < |q.options|
  }

  /** Every question has at least two options and its correct answer is one of them. */
  lemma QuestionsWellFormed()
    ensures |Questions| == 3
    ensures forall i :: 0 <= i < |Questions| ==> WellFormed(Questions[i])
  {
  }

  /** The component's five state variables. `selectedAnswers[i]` is the option
      index chosen for question `i`. */
  datatype QuizState = QuizState(
    isGenerating: bool,
    quizStarted: bool,
    currentQuestion: int,
    selectedAnswers: seq<int>,
    showResults: bool)

  const Initial: QuizState := QuizState(false, false, 0, [], false)

  /** The screen the component shows for a state. */
  datatype Phase = NotStarted | Generating | InProgress | Completed

  function PhaseOf(s: QuizState): Phase {
    if !s.quizStarted then (if s.isGenerating then Generating else NotStarted)
    else if s.showResults then Completed
    else InProgress
  }

  /** The state invariant: the index points at a question, every question before
      it has an answer, and there are no answers past the last question. */
  ghost predicate Valid(s: QuizState) {
    && 0 <= s.currentQuestion < |Questions|
    && s.currentQuestion <= |s.selectedAnswers| <= |Questions|
  }

  predicate Answered(s: QuizState) {
    0 <= s.currentQuestion < |s.selectedAnswers|
  }

  // ---------------------------------------------------------------------------
  // Transitions

  /** generateQuiz, first half: the spinner flag goes up; nothing else changes. */
  function StartGenerating(s: QuizState): (r: QuizState)
    ensures r.isGenerating
    ensures r == s.(isGenerating := true)
  {
    s.(isGenerating := true)
  }

  /** generateQuiz, the delayed half: a fresh quiz at the first question. */
  function GenerationDone(s: QuizState): (r: QuizState)
    ensures PhaseOf(r) == InProgress && Valid(r)
    ensures r.currentQuestion == 0 && r.selectedAnswers == [] && !r.isGenerating
  {
    QuizState(false, true, 0, [], false)
  }

  /** handleAnswerSelect: records the answer for the current question, overwriting
      any earlier one; nothing else changes. */
  function Select(s: QuizState, answer: int): (r: QuizState)
    requires Valid(s)
    ensures r == s.(selectedAnswers := r.selectedAnswers)
    ensures Valid(r) && Answered(r)
    ensures r.selectedAnswers[s.currentQuestion] == answer
    ensures |r.selectedAnswers| == if Answered(s) then |s.selectedAnswers| else |s.selectedAnswers| + 1
    ensures forall j :: 0 <= j < |s.selectedAnswers| && j != s.currentQuestion ==>
      r.selectedAnswers[j] == s.selectedAnswers[j]
  {
    var k := s.currentQuestion;
    var a := if k < |s.selectedAnswers| then s.selectedAnswers[k := answer] else s.selectedAnswers + [answer];
    s.(selectedAnswers := a)
  }

  /** nextQuestion: advances while a later question exists, otherwise shows the
      results. Its button is disabled until the current question is answered. */
  function Next(s: QuizState): (r: QuizState)
    requires Valid(s) && Answered(s)
    ensures Valid(r)
    ensures r.selectedAnswers == s.selectedAnswers
    ensures s.currentQuestion < |Questions| - 1 ==>
      r == s.(currentQuestion := s.currentQuestion + 1)
    ensures s.currentQuestion == |Questions| - 1 ==>
      r == s.(showResults := true)
  {
    if s.currentQuestion < |Questions| - 1 then s.(currentQuestion := s.currentQuestion + 1)
    else s.(showResults := true)
  }

  /** The Previous button: one question back, never below the first. */
  function Previous(s: QuizState): (r: QuizState)
    requires Valid(s)
    ensures Valid(r)
    ensures r.selectedAnswers == s.selectedAnswers
    ensures r.currentQuestion == if s.currentQuestion > 0 then s.currentQuestion - 1 else 0
    ensures r == s.(currentQuestion := r.currentQuestion)
  {
    s.(currentQuestion := if s.currentQuestion - 1 > 0 then s.currentQuestion - 1 else 0)
  }

  /** resetQuiz: back to the start screen. The spinner flag is not touched. */
  function Reset(s: QuizState): (r: QuizState)
    ensures Valid(r) && !r.quizStarted && r.currentQuestion == 0
    ensures r.selectedAnswers == [] && !r.showResults
    ensures r.isGenerating == s.isGenerating
    ensures PhaseOf(r) == if s.isGenerating then Generating else NotStarted
  {
    QuizState(s.isGenerating, false, 0, [], false)
  }

  // ---------------------------------------------------------------------------
  // Scoring

  /** The review line for question `i`: the recorded answer equals the correct one
      (an unanswered question is never correct). */
  predicate IsCorrect(answers: seq<int>, i: nat)
    requires i < |Questions|
  {
    i < |answers| && answers[i] == Questions[i].correctAnswer
  }

  /** getScore: a left-to-right fold adding one per correct answer. */
  function Score(answers: seq<int>): (r: nat)
    requires |answers| <= |Questions|
    ensures r <= |answers|
  {
    if answers == [] then 0
    else
      var n := |answers| - 1;
      Score(answers[..n]) + (if answers[n] == Questions[n].correctAnswer then 1 else 0)
  }

  function CorrectPositions(answers: seq<int>): set<nat>
    requires |answers| <= |Questions|
  {
    set i: nat | i < |answers| && IsCorrect(answers, i)
  }

  /** The score is the number of questions answered correctly. */
  lemma {:induction false} ScoreCountsCorrect(answers: seq<int>)
    requires |answers| <= |Questions|
    ensures Score(answers) == |CorrectPositions(answers)|
  {
    if answers != [] {
      var n := |answers| - 1;
      var prefix := answers[..n];
      ScoreCountsCorrect(prefix);
      var before := CorrectPositions(prefix);
      var after := CorrectPositions(answers);
      if answers[n] == Questions[n].correctAnswer {
        assert after == before + {n};
        assert n !in before;
      } else {
        assert after == before;
      }
    }
  }

  /** Math.round(score / n * 100) for whole percentages, computed without floating
      point: the nearest integer, halves rounded up. */
  function Percentage(score: nat, n: nat): (p: int)
    requires n > 0
    ensures 2 * n * p <= 200 * score + n < 2 * n * (p + 1)
    ensures score <= n ==> 0 <= p <= 100
  {
    var m, x := 2 * n, 200 * score + n;
    DivBounds(x, m);
    AtMostHundred(score, n, x / m);
    x / m
  }

  lemma DivBounds(x: nat, m: nat)
    requires m > 0
    ensures 0 <= x / m
    ensures m * (x / m) <= x < m * (x / m + 1)
  {
    assert x == m * (x / m) + x % m;
  }

  lemma AtMostHundred(score: nat, n: nat, p: int)
    requires n > 0 && 2 * n * p <= 200 * score + n
    ensures score <= n ==> p <= 100
  {
    if p > 100 {
      assert 2 * n * p >= 2 * n * 101;
    }
  }

  /** The progress badge: Math.round((currentQuestion + 1) / n * 100). */
  function Progress(s: QuizState): (p: int)
    requires Valid(s)
    ensures 0 < p <= 100
    ensures s.currentQuestion == |Questions| - 1 ==> p == 100
  {
    Percentage(s.currentQuestion + 1, |Questions|)
  }

  /** The worked example: answers 1, 0, 2 score two out of three, 67%. */
  lemma ScoreExample()
    ensures Score([1, 0, 2]) == 2
    ensures Percentage(2, |Questions|) == 67
    ensures IsCorrect([1, 0, 2], 0) && !IsCorrect([1, 0, 2], 1) && IsCorrect([1, 0, 2], 2)
  {
    assert [1, 0, 2][..2] == [1, 0];
    assert [1, 0][..1] == [1];
    assert [1][..0] == [];
  }

  /** Running the quiz from the first question, answering 1, 0, 2 and pressing
      Next after each, ends on the results screen with score 2. */
  lemma PlaythroughExample(s: QuizState)
    ensures
      var s1 := Next(Select(GenerationDone(s), 1));
      var s2 := Next(Select(s1, 0));
      var s3 := Next(Select(s2, 2));
      PhaseOf(s3) == Completed && s3.selectedAnswers == [1, 0, 2] && Score(s3.selectedAnswers) == 2
  {
    ScoreExample();
  }

  /** Completing generation twice is the same as completing it once. */
  lemma GenerationDoneIdempotent(s: QuizState)
    ensures GenerationDone(GenerationDone(s)) == GenerationDone(s)
  {
  }

  /** Navigation never changes which answers are recorded. */
  lemma NavigationKeepsAnswers(s: QuizState)
    requires Valid(s)
    ensures Previous(s).selectedAnswers == s.selectedAnswers
    ensures Answered(s) ==> Next(s).selectedAnswers == s.selectedAnswers
    ensures Answered(s) ==> Score(Next(s).selectedAnswers) == Score(s.selectedAnswers)
  {
  }

  // ---------------------------------------------------------------------------
  // The component

  class QuizEngine {
    var isGenerating: bool
    var quizStarted: bool
    var currentQuestion: int
    var selectedAnswers: seq<int>
    var showResults: bool
    /** Generation timers started and not yet fired. */
    var pendingGenerations: nat

    function State(): QuizState
      reads this
    {
      QuizState(isGenerating, quizStarted, currentQuestion, selectedAnswers, showResults)
    }

    constructor ()
      ensures State() == Initial && Valid(State()) && pendingGenerations == 0
    {
      isGenerating, quizStarted, currentQuestion := false, false, 0;
      selectedAnswers, showResults := [], false;
      pendingGenerations := 0;
    }

    method GenerateQuiz()
      modifies this
      ensures State() == StartGenerating(old(State()))
      ensures pendingGenerations == old(pendingGenerations) + 1
    {
      isGenerating := true;
      pendingGenerations := pendingGenerations + 1;
    }

    /** The generation timer fires. Every started timer fires; none is cancelled. */
    method GenerationTimerFired()
      requires pendingGenerations > 0
      modifies this
      ensures State() == GenerationDone(old(State()))
      ensures pendingGenerations == old(pendingGenerations) - 1
    {
      isGenerating := false;
      quizStarted := true;
      currentQuestion := 0;
      selectedAnswers := [];
      showResults := false;
      pendingGenerations := pendingGenerations - 1;
    }

    method HandleAnswerSelect(answerIndex: int)
      requires Valid(State())
      modifies this
      ensures State() == Select(old(State()), answerIndex)
      ensures pendingGenerations == old(pendingGenerations)
    {
      var newAnswers := selectedAnswers;
      if currentQuestion < |newAnswers| {
        newAnswers := newAnswers[currentQuestion := answerIndex];
      } else {
        newAnswers := newAnswers + [answerIndex];
      }
      selectedAnswers := newAnswers;
    }

    method NextQuestion()
      requires Valid(State()) && Answered(State())
      modifies this
      ensures State() == Next(old(State()))
      ensures pendingGenerations == old(pendingGenerations)
    {
      if currentQuestion < |Questions| - 1 {
        currentQuestion := currentQuestion + 1;
      } else {
        showResults := true;
      }
    }

    method PreviousQuestion()
      requires Valid(State())
      modifies this
      ensures State() == Previous(old(State()))
      ensures pendingGenerations == old(pendingGenerations)
    {
      currentQuestion := if currentQuestion - 1 > 0 then currentQuestion - 1 else 0;
    }

    method ResetQuiz()
      modifies this
      ensures State() == Reset(old(State()))
      ensures pendingGenerations == old(pendingGenerations)
    {
      quizStarted := false;
      currentQuestion := 0;
      selectedAnswers := [];
      showResults := false;
    }

    /** The results screen's score and percentage; changes nothing. */
    method Results() returns (score: nat, percentage: int)
      requires Valid(State())
      ensures score == |CorrectPositions(selectedAnswers)| && score <= |Questions|
      ensures 0 <= percentage <= 100
      ensures 2 * |Questions| * percentage <= 200 * score + |Questions| < 2 * |Questions| * (percentage + 1)
    {
      score := Score(selectedAnswers);
      ScoreCountsCorrect(selectedAnswers);
      percentage := Percentage(score, |Questions|);
    }
  }
}
