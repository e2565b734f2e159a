/**
 * The timed quiz session engine (src/app/services/quizinteractive/quiz-interactive.service.ts).
 * One session record is replaced as a whole on every operation; a per-question
 * countdown of 30 seconds drives automatic advance and completion; completion
 * grades every question and builds the attempt that is written to the store.
 * The once-per-second interval callback is the method Tick, and the interval
 * handle is the flag timerActive. The catalogue read, the store write and the
 * signed-in user are parameters.
 */
module QuizInteractive {
  import opened Wrappers
  import opened QuizModel
  import opened Shuffles
  import QuizCatalog

  const QuestionTimeLimit: int := 30
  /** loadQuizByCode keeps at most this many questions. */
  const SampleSize: nat := 10

  const NotFoundMessage := "Quiz no encontrado con este código"
  const LoadFailedPrefix := "Error al cargar el quiz: "
  const SignInRequiredMessage := "Debes iniciar sesión para completar el quiz"
  const SaveFailedPrefix := "Error al guardar los resultados: "
  const AnonymousName := "Usuario anónimo"

  /** CurrentQuizState: map keys are question indices. */
  datatype SessionState = SessionState(
    quiz: Option<Quiz>,
    currentQuestionIndex: int,
    selectedAnswers: map<int, string>,
    answerTimes: map<int, int>,
    completed: bool,
    score: real,
    correctAnswers: int,
    totalPoints: int,
    maxPossiblePoints: int,
    isLoading: bool,
    error: Option<string>,
    timeRemaining: int,
    timerRunning: bool)

  const InitialState := SessionState(None, 0, map[], map[], false, 0.0, 0, 0, 0, false, None, QuestionTimeLimit, false)

  /** `currentState.quiz?.questions.length || 0` */
  function QuestionCount(quiz: Option<Quiz>): nat {
    if quiz.Some? then |quiz.value.questions| else 0
  }

  // ---------------------------------------------------------------- scorer (lines 313-348)

  /** `selectedAnswers[index] || ''` */
  function SelectionAt(selected: map<int, string>, index: int): string {
    if index in selected then selected[index] else ""
  }

  /** `answerTimes[index] || 0` */
  function TimeAt(times: map<int, int>, index: int): int {
    if index in times then times[index] else 0
  }

  /** The code grades against the first option, not against correctOption. */
  predicate MatchesFirstOption(q: Question, selected: string) {
    |q.options| > 0 && selected == q.options[0]
  }

  /** One entry of the answers array. */
  function Grade(q: Question, index: int, selected: string, time: int): (a: Answer)
    ensures a.questionIndex == index && a.selectedOption == selected && a.timeRemaining == time
    ensures a.isCorrect <==> MatchesFirstOption(q, selected)
    ensures a.pointsEarned >= 0
    ensures a.pointsEarned > 0 <==> a.isCorrect && time > 0
    ensures a.pointsEarned > 0 ==> a.pointsEarned == time
  {
    var isCorrect := MatchesFirstOption(q, selected);
    Answer(index, selected, isCorrect, if isCorrect && time > 0 then time else 0, time)
  }

  /** The answers array: one graded entry per question, in question order. */
  function Answers(questions: seq<Question>, selected: map<int, string>, times: map<int, int>): (r: seq<Answer>)
    ensures |r| == |questions|
  {
    seq(|questions|, i requires 0 <= i < |questions| => Grade(questions[i], i, SelectionAt(selected, i), TimeAt(times, i)))
  }

  function SumPoints(answers: seq<Answer>): int
    decreases |answers|
  {
    if answers == [] then 0 else SumPoints(answers[..|answers| - 1]) + answers[|answers| - 1].pointsEarned
  }

  /** The number of answers that earned points (the source's correctAnswers counter). */
  function CountEarning(answers: seq<Answer>): nat
    decreases |answers|
  {
    if answers == [] then 0
    else CountEarning(answers[..|answers| - 1]) + (if answers[|answers| - 1].pointsEarned > 0 then 1 else 0)
  }

  /** `maxPossiblePoints > 0 ? (totalPoints / maxPossiblePoints) * 100 : 0`, exactly. */
  function Score(totalPoints: int, maxPossiblePoints: int): real {
    if maxPossiblePoints > 0 then (totalPoints as real / maxPossiblePoints as real) * 100.0 else 0.0
  }

  /**
   * The map over the questions with its two mutable counters: grades every question
   * and counts, for the answers that are correct with time left, one correct answer
   * and their seconds as points.
   */
  method ScoreAnswers(questions: seq<Question>, selected: map<int, string>, times: map<int, int>)
    returns (answers: seq<Answer>, correctAnswers: int, totalPoints: int)
    ensures answers == Answers(questions, selected, times)
    ensures correctAnswers == CountEarning(answers) && totalPoints == SumPoints(answers)
  {
    answers, correctAnswers, totalPoints := [], 0, 0;
    for index := 0 to |questions|
      invariant |answers| == index
      invariant forall i :: 0 <= i < index ==> answers[i] == Answers(questions, selected, times)[i]
      invariant correctAnswers == CountEarning(answers) && totalPoints == SumPoints(answers)
    {
      var question := questions[index];
      var selectedOption := SelectionAt(selected, index);
      var timeRemaining := TimeAt(times, index);
      var isCorrect := |question.options| > 0 && selectedOption == question.options[0];
      var pointsEarned := 0;
      if isCorrect && timeRemaining > 0 {
        pointsEarned := timeRemaining;
        correctAnswers := correctAnswers + 1;
        totalPoints := totalPoints + pointsEarned;
      }
      var answer := Answer(index, selectedOption, isCorrect, pointsEarned, timeRemaining);
      assert answer == Grade(question, index, selectedOption, timeRemaining);
      AppendAnswer(answers, answer);
      answers := answers + [answer];
    }
  }

  /** Appending one answer adds its points to the sum and, when it earns, one to the count. */
  lemma AppendAnswer(answers: seq<Answer>, answer: Answer)
    ensures SumPoints(answers + [answer]) == SumPoints(answers) + answer.pointsEarned
    ensures CountEarning(answers + [answer]) == CountEarning(answers) + (if answer.pointsEarned > 0 then 1 else 0)
  {
    assert (answers + [answer])[..|answers|] == answers;
  }

  lemma {:induction false} SumPointsBounds(answers: seq<Answer>, bound: int)
    requires forall i :: 0 <= i < |answers| ==> 0 <= answers[i].pointsEarned <= bound
    ensures 0 <= SumPoints(answers) <= bound * |answers|
    ensures 0 <= CountEarning(answers) <= |answers|
    decreases |answers|
  {
    if answers != [] {
      SumPointsBounds(answers[..|answers| - 1], bound);
    }
  }

  lemma {:induction false} SumPointsNonNegative(answers: seq<Answer>)
    requires forall i :: 0 <= i < |answers| ==> 0 <= answers[i].pointsEarned
    ensures 0 <= SumPoints(answers) && CountEarning(answers) <= |answers|
    decreases |answers|
  {
    if answers != [] {
      SumPointsNonNegative(answers[..|answers| - 1]);
    }
  }

  /** totalPoints never exceeds maxPossiblePoints when no recorded time exceeds the limit. */
  lemma TotalWithinMax(questions: seq<Question>, selected: map<int, string>, times: map<int, int>)
    requires forall i :: 0 <= i < |questions| && i in times ==> times[i] <= QuestionTimeLimit
    ensures 0 <= SumPoints(Answers(questions, selected, times)) <= |questions| * QuestionTimeLimit
    ensures CountEarning(Answers(questions, selected, times)) <= |questions|
  {
    var answers := Answers(questions, selected, times);
    forall i | 0 <= i < |answers| ensures 0 <= answers[i].pointsEarned <= QuestionTimeLimit {
      assert answers[i] == Grade(questions[i], i, SelectionAt(selected, i), TimeAt(times, i));
    }
    SumPointsBounds(answers, QuestionTimeLimit);
  }

  /** score is totalPoints as a percentage of maxPossiblePoints: score × max = 100 × total, and 0 without a maximum. */
  predicate IsPercentage(score: real, totalPoints: int, maxPossiblePoints: int) {
    && (maxPossiblePoints > 0 ==> score * maxPossiblePoints as real == 100.0 * totalPoints as real)
    && (maxPossiblePoints <= 0 ==> score == 0.0)
  }

  /** The percentage: score × max = 100 × total, and it lies in [0, 100] when 0 <= total <= max. */
  lemma ScoreIsPercentage(totalPoints: int, maxPossiblePoints: int)
    ensures maxPossiblePoints > 0 ==> Score(totalPoints, maxPossiblePoints) * maxPossiblePoints as real == 100.0 * totalPoints as real
    ensures maxPossiblePoints <= 0 ==> Score(totalPoints, maxPossiblePoints) == 0.0
    ensures IsPercentage(Score(totalPoints, maxPossiblePoints), totalPoints, maxPossiblePoints)
    ensures 0 <= totalPoints <= maxPossiblePoints ==> 0.0 <= Score(totalPoints, maxPossiblePoints) <= 100.0
  {
    if maxPossiblePoints > 0 {
      var m := maxPossiblePoints as real;
      var ratio := totalPoints as real / m;
      assert ratio * m == totalPoints as real;
      if 0 <= totalPoints <= maxPossiblePoints {
        assert 0.0 <= ratio <= 1.0;
      }
    }
  }

  // ---------------------------------------------------------------- attempt and completion

  /** `currentUser.displayName || 'Usuario anónimo'` */
  function UserName(user: User): string {
    if user.displayName.Some? && user.displayName.value != "" then user.displayName.value else AnonymousName
  }

  /** The attempt completeQuiz assembles (lines 313-362), before the store assigns its id. */
  function AttemptFor(quiz: Quiz, user: User, selected: map<int, string>, times: map<int, int>): Attempt {
    var answers := Answers(quiz.questions, selected, times);
    var totalPoints := SumPoints(answers);
    var maxPossiblePoints := |quiz.questions| * QuestionTimeLimit;
    Attempt("", quiz.id, user.uid, UserName(user), Score(totalPoints, maxPossiblePoints),
      |quiz.questions|, CountEarning(answers), totalPoints, maxPossiblePoints, answers)
  }

  /**
   * The state after completeQuiz and the attempt it emits, from the state s it starts in:
   * the timer is stopped; without a quiz or a signed-in user only the error is set;
   * otherwise the totals are published and the attempt is written by save.
   */
  function Complete(s: SessionState, user: Option<User>, save: Result<string, string>): (SessionState, Option<Attempt>) {
    var stopped := s.(timerRunning := false);
    if stopped.quiz.None? || user.None? then
      (stopped.(error := Some(SignInRequiredMessage)), None)
    else
      var a := AttemptFor(stopped.quiz.value, user.value, s.selectedAnswers, s.answerTimes);
      var done := stopped.(completed := true, score := a.score, correctAnswers := a.correctAnswers,
                           totalPoints := a.totalPoints, maxPossiblePoints := a.maxPossiblePoints);
      match save
      case Ok(id) => (done, Some(a.(id := id)))
      case Err(m) => (done.(error := Some(SaveFailedPrefix + m)), None)
  }

  /** Every entry of the answers array grades its own question with its own selection and time. */
  lemma AnswersGradeEachQuestion(qs: seq<Question>, selected: map<int, string>, times: map<int, int>)
    ensures var answers := Answers(qs, selected, times);
      forall i :: 0 <= i < |qs| ==>
        && answers[i].questionIndex == i
        && answers[i].selectedOption == SelectionAt(selected, i)
        && answers[i].timeRemaining == TimeAt(times, i)
        && (answers[i].isCorrect <==> MatchesFirstOption(qs[i], SelectionAt(selected, i)))
        && answers[i].pointsEarned == (if answers[i].isCorrect && answers[i].timeRemaining > 0 then answers[i].timeRemaining else 0)
  {
    var answers := Answers(qs, selected, times);
    forall i | 0 <= i < |qs|
      ensures answers[i] == Grade(qs[i], i, SelectionAt(selected, i), TimeAt(times, i))
    {
    }
  }

  /** The totals of an attempt: points summed, earning answers counted, the percentage exact. */
  lemma AttemptTotals(quiz: Quiz, user: User, selected: map<int, string>, times: map<int, int>)
    ensures var a := AttemptFor(quiz, user, selected, times);
      var answers := Answers(quiz.questions, selected, times);
      && a.totalPoints == SumPoints(answers) && a.totalPoints >= 0
      && a.answers == answers
      && a.correctAnswers == CountEarning(answers) && 0 <= a.correctAnswers <= |quiz.questions|
      && a.maxPossiblePoints == |quiz.questions| * QuestionTimeLimit
      && a.score == Score(a.totalPoints, a.maxPossiblePoints)
      && IsPercentage(a.score, a.totalPoints, a.maxPossiblePoints)
  {
    var qs := quiz.questions;
    var answers := Answers(qs, selected, times);
    AnswersEarnNonNegative(qs, selected, times);
    SumPointsNonNegative(answers);
    var total, max := SumPoints(answers), |qs| * QuestionTimeLimit;
    ScoreIsPercentage(total, max);
    var a := AttemptFor(quiz, user, selected, times);
    assert a.totalPoints == total && a.maxPossiblePoints == max && a.score == Score(total, max);
    assert a.correctAnswers == CountEarning(answers);
  }

  lemma AnswersEarnNonNegative(qs: seq<Question>, selected: map<int, string>, times: map<int, int>)
    ensures var answers := Answers(qs, selected, times);
      forall i :: 0 <= i < |answers| ==> 0 <= answers[i].pointsEarned
  {
    var answers := Answers(qs, selected, times);
    forall i | 0 <= i < |answers| ensures 0 <= answers[i].pointsEarned {
      assert answers[i] == Grade(qs[i], i, SelectionAt(selected, i), TimeAt(times, i));
    }
  }

  /** A finished session: one answer per question in order, totals summed, the percentage exact. */
  lemma CompleteScoresEveryQuestion(s: SessionState, user: Option<User>, save: Result<string, string>)
    requires s.quiz.Some? && user.Some?
    ensures var (t, _) := Complete(s, user, save);
      var qs := s.quiz.value.questions;
      var answers := Answers(qs, s.selectedAnswers, s.answerTimes);
      && t.completed && !t.timerRunning
      && t.totalPoints == SumPoints(answers)
      && t.correctAnswers == CountEarning(answers) && 0 <= t.correctAnswers <= |qs|
      && t.maxPossiblePoints == |qs| * QuestionTimeLimit
      && t.score == Score(t.totalPoints, t.maxPossiblePoints)
      && IsPercentage(t.score, t.totalPoints, t.maxPossiblePoints)
      && (forall i :: 0 <= i < |qs| ==>
            && answers[i].questionIndex == i
            && answers[i].selectedOption == SelectionAt(s.selectedAnswers, i)
            && answers[i].timeRemaining == TimeAt(s.answerTimes, i)
            && (answers[i].isCorrect <==> MatchesFirstOption(qs[i], SelectionAt(s.selectedAnswers, i)))
            && answers[i].pointsEarned == (if answers[i].isCorrect && answers[i].timeRemaining > 0 then answers[i].timeRemaining else 0))
    ensures var (t, a) := Complete(s, user, save);
      && (save.Ok? ==> a == Some(AttemptFor(s.quiz.value, user.value, s.selectedAnswers, s.answerTimes).(id := save.value)) && t.error == s.error)
      && (save.Err? ==> a.None? && t.error == Some(SaveFailedPrefix + save.error))
  {
    var t := Complete(s, user, save).0;
    var a := AttemptFor(s.quiz.value, user.value, s.selectedAnswers, s.answerTimes);
    CompletePublishesAttempt(s, user, save);
    AnswersGradeEachQuestion(s.quiz.value.questions, s.selectedAnswers, s.answerTimes);
    AttemptTotals(s.quiz.value, user.value, s.selectedAnswers, s.answerTimes);
  }

  /** A signed-in completion publishes the attempt's totals, and save decides what is emitted. */
  lemma CompletePublishesAttempt(s: SessionState, user: Option<User>, save: Result<string, string>)
    requires s.quiz.Some? && user.Some?
    ensures var (t, emitted) := Complete(s, user, save);
      var a := AttemptFor(s.quiz.value, user.value, s.selectedAnswers, s.answerTimes);
      && t.completed && !t.timerRunning
      && t.score == a.score && t.correctAnswers == a.correctAnswers
      && t.totalPoints == a.totalPoints && t.maxPossiblePoints == a.maxPossiblePoints
      && (save.Ok? ==> emitted == Some(a.(id := save.value)) && t.error == s.error)
      && (save.Err? ==> emitted.None? && t.error == Some(SaveFailedPrefix + save.error))
  {
  }

  /** Without a quiz or a signed-in user nothing is graded, nothing is written, only the error changes. */
  lemma CompleteRequiresSignIn(s: SessionState, user: Option<User>, save: Result<string, string>)
    requires s.quiz.None? || user.None?
    ensures Complete(s, user, save) == (s.(timerRunning := false, error := Some(SignInRequiredMessage)), None)
    ensures Complete(s, user, save).0.completed == s.completed
    ensures Complete(s, user, save).0.totalPoints == s.totalPoints && Complete(s, user, save).0.correctAnswers == s.correctAnswers
  {
  }

  // ---------------------------------------------------------------- timeout

  /** `!currentState.selectedAnswers[currentState.currentQuestionIndex]`: no selection, or the empty one. */
  predicate Unanswered(s: SessionState) {
    !(s.currentQuestionIndex in s.selectedAnswers && s.selectedAnswers[s.currentQuestionIndex] != "")
  }

  /** The first two steps of a tick at zero: stop the timer, record "" at 0 s for an unanswered question. */
  function TimedOut(s: SessionState): SessionState {
    var stopped := s.(timerRunning := false);
    if Unanswered(s) then
      stopped.(selectedAnswers := s.selectedAnswers[s.currentQuestionIndex := ""],
               answerTimes := s.answerTimes[s.currentQuestionIndex := 0])
    else stopped
  }

  /** A question that timed out unanswered is graded as the empty selection at 0 s and earns nothing. */
  lemma TimedOutQuestionEarnsNothing(s: SessionState, q: Question)
    requires Unanswered(s)
    ensures var t := TimedOut(s); var i := s.currentQuestionIndex;
      var a := Grade(q, i, SelectionAt(t.selectedAnswers, i), TimeAt(t.answerTimes, i));
      && a.selectedOption == "" && a.timeRemaining == 0 && a.pointsEarned == 0
      && (a.isCorrect <==> |q.options| > 0 && q.options[0] == "")
  {
  }

  /** A correct answer given with no time left is marked correct but is neither counted nor paid. */
  lemma CorrectAtZeroIsNotCounted(questions: seq<Question>, selected: map<int, string>, times: map<int, int>, i: nat)
    requires i < |questions| && MatchesFirstOption(questions[i], SelectionAt(selected, i)) && TimeAt(times, i) <= 0
    ensures Answers(questions, selected, times)[i].isCorrect
    ensures Answers(questions, selected, times)[i].pointsEarned == 0
  {
    assert Answers(questions, selected, times)[i] == Grade(questions[i], i, SelectionAt(selected, i), TimeAt(times, i));
  }

  // ---------------------------------------------------------------- the service

  /** The questions a loaded session plays: all of them, or a sample of SampleSize taken in shuffled order. */
  function PlayedQuestions(questions: seq<Question>, order: seq<nat>): (r: seq<Question>)
    requires |questions| > SampleSize ==> IsIndexPermutation(order, |questions|)
    ensures |questions| <= SampleSize ==> r == questions
    ensures |questions| > SampleSize ==> |r| == SampleSize && multiset(r) <= multiset(questions)
  {
    if |questions| > SampleSize then Sample(questions, SampleSize, order) else questions
  }

  /** The state right after a quiz was found, before its timer starts. */
  function Loaded(s: SessionState, quiz: Quiz, questions: seq<Question>): SessionState {
    s.(quiz := Some(quiz.(questions := questions)), isLoading := false, currentQuestionIndex := 0,
       selectedAnswers := map[], answerTimes := map[], completed := false, score := 0.0,
       correctAnswers := 0, totalPoints := 0, maxPossiblePoints := |questions| * QuestionTimeLimit,
       timeRemaining := QuestionTimeLimit, timerRunning := false)
  }

  class QuizInteractiveService {
    var state: SessionState
    /** Whether an interval is installed (`timerInterval` holds a handle). */
    var timerActive: bool

    ghost predicate Valid()
      reads this
    {
      && state.timerRunning == timerActive
      && 0 <= state.timeRemaining <= QuestionTimeLimit
      && 0 <= state.currentQuestionIndex
      && (state.currentQuestionIndex == 0 || state.currentQuestionIndex < QuestionCount(state.quiz))
      && state.maxPossiblePoints == QuestionCount(state.quiz) * QuestionTimeLimit
    }

    constructor ()
      ensures Valid() && state == InitialState && !timerActive
    {
      state := InitialState;
      timerActive := false;
    }

    /** clearTimer */
    method ClearTimer()
      modifies this
      ensures state == old(state).(timerRunning := false) && !timerActive
    {
      timerActive := false;
      state := state.(timerRunning := false);
    }

    /** startTimer: any old interval is cleared, the countdown restarts at the limit. */
    method StartTimer()
      modifies this
      ensures state == old(state).(timeRemaining := QuestionTimeLimit, timerRunning := true) && timerActive
    {
      ClearTimer();
      state := state.(timeRemaining := QuestionTimeLimit, timerRunning := true);
      timerActive := true;
    }

    /**
     * loadQuizByCode(code) with the catalogue read `catalog` and the shuffle `order` of
     * getRandomQuestions. Emits the quiz as found (not the sampled copy), or None.
     */
    method LoadQuizByCode(catalog: Result<seq<Quiz>, string>, code: string, order: seq<nat>) returns (emitted: Option<Quiz>)
      requires Valid()
      requires var found := QuizCatalog.QuizByCode(catalog, code);
        found.Ok? && found.value.Some? && |found.value.value.questions| > SampleSize ==>
          IsIndexPermutation(order, |found.value.value.questions|)
      modifies this
      ensures Valid()
      ensures var found := QuizCatalog.QuizByCode(catalog, code);
        match found
        case Err(m) =>
          && emitted.None? && timerActive == old(timerActive)
          && state == old(state).(isLoading := false, error := Some(LoadFailedPrefix + m))
        case Ok(None) =>
          && emitted.None? && timerActive == old(timerActive)
          && state == old(state).(isLoading := false, error := Some(NotFoundMessage))
        case Ok(Some(quiz)) =>
          && emitted == Some(quiz) && timerActive
          && state == Loaded(old(state).(error := None), quiz, PlayedQuestions(quiz.questions, order)).(timerRunning := true)
    {
      state := state.(isLoading := true, error := None);
      var found := QuizCatalog.QuizByCode(catalog, code);
      match found {
        case Err(m) =>
          state := state.(isLoading := false, error := Some(LoadFailedPrefix + m));
          emitted := None;
        case Ok(None) =>
          state := state.(isLoading := false, error := Some(NotFoundMessage));
          emitted := None;
        case Ok(Some(quiz)) =>
          var selectedQuestions := quiz.questions;
          if |selectedQuestions| > SampleSize {
            selectedQuestions := Sample(quiz.questions, SampleSize, order);
          }
          state := Loaded(state, quiz, selectedQuestions);
          StartTimer();
          emitted := Some(quiz);
      }
    }

    /** selectAnswer: the last selection for an index wins; the time is the override or the live countdown. */
    method SelectAnswer(questionIndex: int, answerText: string, timeOverride: Option<int>)
      requires Valid()
      modifies this
      ensures Valid() && timerActive == old(timerActive)
      ensures var time := if timeOverride.Some? then timeOverride.value else old(state.timeRemaining);
        state == old(state).(selectedAnswers := old(state.selectedAnswers)[questionIndex := answerText],
                             answerTimes := old(state.answerTimes)[questionIndex := time])
    {
      var timeRemaining := if timeOverride.Some? then timeOverride.value else state.timeRemaining;
      state := state.(selectedAnswers := state.selectedAnswers[questionIndex := answerText],
                      answerTimes := state.answerTimes[questionIndex := timeRemaining]);
    }

    method NextQuestion()
      requires Valid()
      modifies this
      ensures Valid()
      ensures old(state.currentQuestionIndex) < QuestionCount(old(state.quiz)) - 1 ==>
        && state == old(state).(currentQuestionIndex := old(state.currentQuestionIndex) + 1,
                                timeRemaining := QuestionTimeLimit, timerRunning := true)
        && timerActive
      ensures old(state.currentQuestionIndex) >= QuestionCount(old(state.quiz)) - 1 ==>
        state == old(state) && timerActive == old(timerActive)
    {
      if state.currentQuestionIndex < QuestionCount(state.quiz) - 1 {
        state := state.(currentQuestionIndex := state.currentQuestionIndex + 1, timeRemaining := QuestionTimeLimit);
        StartTimer();
      }
    }

    method PreviousQuestion()
      requires Valid()
      modifies this
      ensures Valid()
      ensures old(state.currentQuestionIndex) > 0 ==>
        && state == old(state).(currentQuestionIndex := old(state.currentQuestionIndex) - 1,
                                timeRemaining := QuestionTimeLimit, timerRunning := true)
        && timerActive
      ensures old(state.currentQuestionIndex) <= 0 ==> state == old(state) && timerActive == old(timerActive)
    {
      if state.currentQuestionIndex > 0 {
        state := state.(currentQuestionIndex := state.currentQuestionIndex - 1, timeRemaining := QuestionTimeLimit);
        StartTimer();
      }
    }

    method GoToQuestion(index: int)
      requires Valid()
      modifies this
      ensures Valid()
      ensures 0 <= index < QuestionCount(old(state.quiz)) ==>
        && state == old(state).(currentQuestionIndex := index, timeRemaining := QuestionTimeLimit, timerRunning := true)
        && timerActive
      ensures !(0 <= index < QuestionCount(old(state.quiz))) ==> state == old(state) && timerActive == old(timerActive)
    {
      if 0 <= index < QuestionCount(state.quiz) {
        state := state.(currentQuestionIndex := index, timeRemaining := QuestionTimeLimit);
        StartTimer();
      }
    }

    method PauseTimer()
      requires Valid()
      modifies this
      ensures Valid()
      ensures state == old(state).(timerRunning := false) && !timerActive
    {
      ClearTimer();
    }

    /** resumeTimer restarts only when no interval is installed, and then from the full limit. */
    method ResumeTimer()
      requires Valid()
      modifies this
      ensures Valid() && timerActive
      ensures old(timerActive) ==> state == old(state)
      ensures !old(timerActive) ==> state == old(state).(timeRemaining := QuestionTimeLimit, timerRunning := true)
    {
      if !timerActive {
        StartTimer();
      }
    }

    /** completeQuiz with the signed-in user and the outcome of the store write (the new attempt id or a message). */
    method CompleteQuiz(user: Option<User>, save: Result<string, string>) returns (attempt: Option<Attempt>)
      requires Valid()
      modifies this
      ensures Valid() && !timerActive
      ensures (state, attempt) == Complete(old(state), user, save)
    {
      ClearTimer();
      var currentState := state;
      if currentState.quiz.None? || user.None? {
        state := state.(error := Some(SignInRequiredMessage));
        return None;
      }
      var quiz := currentState.quiz.value;
      var answers, correctAnswers, totalPoints := ScoreAnswers(quiz.questions, currentState.selectedAnswers, currentState.answerTimes);
      var totalQuestions := |quiz.questions|;
      var maxPossiblePoints := totalQuestions * QuestionTimeLimit;
      var score := Score(totalPoints, maxPossiblePoints);
      var record := Attempt("", quiz.id, user.value.uid, UserName(user.value), score,
                            totalQuestions, correctAnswers, totalPoints, maxPossiblePoints, answers);
      state := state.(completed := true, score := score, correctAnswers := correctAnswers,
                      totalPoints := totalPoints, maxPossiblePoints := maxPossiblePoints);
      match save {
        case Ok(id) =>
          attempt := Some(record.(id := id));
        case Err(m) =>
          state := state.(error := Some(SaveFailedPrefix + m));
          attempt := None;
      }
    }

    /** resetQuiz: the initial state with the timer stopped. */
    method ResetQuiz()
      requires Valid()
      modifies this
      ensures Valid() && state == InitialState && !timerActive
    {
      ClearTimer();
      state := InitialState;
    }

    /**
     * One firing of the interval. Above zero it only counts down; at zero it stops the
     * timer, records an unanswered question as "" at 0 s, and then advances with a fresh
     * countdown or, on the last question, completes the session (user and save as for
     * CompleteQuiz). An interval that was cleared never fires.
     */
    method Tick(user: Option<User>, save: Result<string, string>)
      requires Valid()
      modifies this
      ensures Valid()
      ensures !old(timerActive) ==> state == old(state) && !timerActive
      ensures old(timerActive) && old(state.timeRemaining) > 0 ==>
        state == old(state).(timeRemaining := old(state.timeRemaining) - 1) && timerActive
      ensures old(timerActive) && old(state.timeRemaining) == 0 ==>
        var s := TimedOut(old(state));
        if old(state.currentQuestionIndex) < QuestionCount(old(state.quiz)) - 1 then
          && state == s.(currentQuestionIndex := old(state.currentQuestionIndex) + 1,
                         timeRemaining := QuestionTimeLimit, timerRunning := true)
          && timerActive
        else
          state == Complete(s, user, save).0 && !timerActive
    {
      if !timerActive {
        return;
      }
      var currentState := state;
      if currentState.timeRemaining > 0 {
        state := state.(timeRemaining := currentState.timeRemaining - 1);
      } else {
        ClearTimer();
        if !(currentState.currentQuestionIndex in currentState.selectedAnswers
             && currentState.selectedAnswers[currentState.currentQuestionIndex] != "") {
          SelectAnswer(currentState.currentQuestionIndex, "", Some(0));
        }
        if currentState.currentQuestionIndex < QuestionCount(currentState.quiz) - 1 {
          NextQuestion();
        } else {
          var _ := CompleteQuiz(user, save);
        }
      }
    }
  }

  /**
   * The worked example: three questions with options A, B, C graded against A; A at 25 s,
   * B at 10 s, the third timed out. One correct answer, 25 of 90 points, 250/9 per cent.
   */
  lemma ThreeQuestionScenario()
    ensures var q := Question("q", ["A", "B", "C"], "A");
      var answers := Answers([q, q, q], map[0 := "A", 1 := "B", 2 := ""], map[0 := 25, 1 := 10, 2 := 0]);
      && CountEarning(answers) == 1
      && SumPoints(answers) == 25
      && 3 * QuestionTimeLimit == 90
      && Score(SumPoints(answers), 90) == 250.0 / 9.0
  {
    var q := Question("q", ["A", "B", "C"], "A");
    var answers := Answers([q, q, q], map[0 := "A", 1 := "B", 2 := ""], map[0 := 25, 1 := 10, 2 := 0]);
    assert answers[0].pointsEarned == 25;
    assert answers[1].pointsEarned == 0;
    assert answers[2].pointsEarned == 0;
    assert answers[..3] == answers;
    assert answers[..2][..1] == answers[..1];
    assert answers[..1][..0] == [];
    assert SumPoints(answers[..1]) == 25 && CountEarning(answers[..1]) == 1;
    assert SumPoints(answers[..2]) == 25 && CountEarning(answers[..2]) == 1;
  }
}
