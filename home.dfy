/**
 * The quiz-playing page (src/app/home/home.page.ts): the countdown text and colours, the
 * answered-all check, the answer review shown after completion, and the local copy of the
 * selections that the page keeps beside the session engine.
 */
module Home {
  import opened Wrappers
  import opened QuizModel
  import opened Strings
  import QuizInteractive
  import Ranking

  /** The user id the review looks up in the ranking: a literal placeholder, not the signed-in user. */
  const PlaceholderUserId := "currentUserId"

  // ---------------------------------------------------------------- timer text and colours

  /** `MM:SS`: floor(t / 60) and the truncating t % 60, each padded to two characters with '0'. */
  function FormatTimeRemaining(t: int): string {
    PadStart2(IntToString(t / 60)) + ":" + PadStart2(IntToString(JsRem(t, 60)))
  }

  lemma {:induction false} ParseLeadingZero(s: string)
    requires AllDigits(s)
    ensures AllDigits("0" + s) && ParseDigits("0" + s) == ParseDigits(s)
    decreases |s|
  {
    if s != [] {
      assert ("0" + s)[..|"0" + s| - 1] == "0" + s[..|s| - 1];
      ParseLeadingZero(s[..|s| - 1]);
    }
  }

  /** Two digits for every value below 100, and they read back as the value. */
  lemma TwoDigits(n: nat)
    requires n < 100
    ensures var s := PadStart2(IntToString(n)); |s| == 2 && AllDigits(s) && ParseDigits(s) == n
  {
    var d := NatToString(n);
    ParseNatToString(n);
    if n < 10 {
      assert PadStart2(d) == "0" + d;
      ParseLeadingZero(d);
    } else {
      assert |NatToString(n / 10)| == 1;
    }
  }

  /** For any countdown under 100 minutes the text is MM:SS and reads back as the number of seconds. */
  lemma FormatTimeRoundTrip(t: int)
    requires 0 <= t < 6000
    ensures var r := FormatTimeRemaining(t);
      && |r| == 5 && r[2] == ':' && AllDigits(r[..2]) && AllDigits(r[3..])
      && ParseDigits(r[..2]) == t / 60 && ParseDigits(r[3..]) == t % 60
      && ParseDigits(r[..2]) * 60 + ParseDigits(r[3..]) == t
  {
    MinutesAndSeconds(t);
    TwoDigits(t / 60);
    TwoDigits(t % 60);
    ClockLayout(PadStart2(IntToString(t / 60)), PadStart2(IntToString(t % 60)));
  }

  /** Two two-character fields joined by a colon sit at positions 0-1 and 3-4. */
  lemma ClockLayout(minutes: string, seconds: string)
    requires |minutes| == 2 && |seconds| == 2
    ensures var r := minutes + ":" + seconds;
      && |r| == 5 && r[2] == ':' && r[..2] == minutes && r[3..] == seconds
  {
    var r := minutes + ":" + seconds;
    assert r[..2] == minutes;
    assert r[3..] == seconds;
  }

  /** The minutes and seconds of a countdown under 100 minutes. */
  lemma MinutesAndSeconds(t: int)
    requires 0 <= t < 6000
    ensures 0 <= t / 60 < 100 && 0 <= t % 60 < 60 && JsRem(t, 60) == t % 60
    ensures (t / 60) * 60 + t % 60 == t
  {
  }

  /** getTimerColor: more than 20 s success, more than 10 s warning, otherwise danger. */
  function TimerColor(t: int): (c: string)
    ensures c == "success" <==> t > 20
    ensures c == "warning" <==> 10 < t <= 20
    ensures c == "danger" <==> t <= 10
  {
    if t > 20 then "success" else if t > 10 then "warning" else "danger"
  }

  /** getScoreColor: green from 80, orange from 60, red below. */
  function ScoreColor(score: real): (c: string)
    ensures c == "#4caf50" <==> score >= 80.0
    ensures c == "#ff9800" <==> 60.0 <= score < 80.0
    ensures c == "#f44336" <==> score < 60.0
  {
    if score >= 80.0 then "#4caf50" else if score >= 60.0 then "#ff9800" else "#f44336"
  }

  // ---------------------------------------------------------------- all answered

  /** allQuestionsAnswered: false without a quiz, else as many selection keys as questions. */
  function AllAnswered(quiz: Option<Quiz>, selected: map<int, string>, totalQuestions: int): bool {
    quiz.Some? && |selected.Keys| == totalQuestions
  }

  /** The question indices 0 .. n - 1. */
  function IndexRange(n: nat): (r: set<int>)
    ensures forall i :: i in r <==> 0 <= i < n
    ensures |r| == n
  {
    if n == 0 then {} else IndexRange(n - 1) + {n - 1}
  }

  lemma ProperSubsetSmaller(a: set<int>, r: set<int>, i: int)
    requires a <= r && i in r && i !in a
    ensures |a| < |r|
  {
    var d := r - a;
    assert r == a + d && a * d == {};
    assert i in d;
  }

  /**
   * When every selection key is a question index, the count check holds exactly when
   * every question has a selection (the empty one recorded at a timeout included).
   */
  lemma AllAnsweredMeansEveryIndex(quiz: Option<Quiz>, selected: map<int, string>, totalQuestions: int)
    requires quiz.Some? && totalQuestions == |quiz.value.questions|
    requires forall k :: k in selected ==> 0 <= k < totalQuestions
    ensures AllAnswered(quiz, selected, totalQuestions) <==> forall i :: 0 <= i < totalQuestions ==> i in selected
  {
    var range := IndexRange(totalQuestions);
    var keys := selected.Keys;
    assert keys <= range;
    if forall i :: 0 <= i < totalQuestions ==> i in selected {
      assert keys == range;
    } else {
      var i :| 0 <= i < totalQuestions && i !in selected;
      ProperSubsetSmaller(keys, range, i);
    }
  }

  // ---------------------------------------------------------------- answer review

  /** One row of answersReview; correctOption is None where `options[0]` is undefined. */
  datatype ReviewEntry = ReviewEntry(
    question: string,
    selectedOption: string,
    correctOption: Option<string>,
    isCorrect: bool,
    pointsEarned: int,
    timeRemaining: int)

  /** The time recorded in the first ranking attempt of the placeholder user, or 0. */
  function RecordedTime(ranking: seq<Attempt>, completed: bool, index: int): int {
    if !completed then 0
    else match Ranking.FirstIndexOfUser(ranking, PlaceholderUserId)
      case None => 0
      case Some(k) =>
        var answers := ranking[k].answers;
        if 0 <= index < |answers| then answers[index].timeRemaining else 0
  }

  function ReviewOf(q: Question, selected: string, time: int): ReviewEntry {
    var correctOption := if |q.options| > 0 then Some(q.options[0]) else None;
    var isCorrect := correctOption == Some(selected);
    ReviewEntry(q.text, selected, correctOption, isCorrect, if isCorrect && time > 0 then time else 0, time)
  }

  function AnswersReview(questions: seq<Question>, selected: map<int, string>, completed: bool, ranking: seq<Attempt>): (r: seq<ReviewEntry>)
    ensures |r| == |questions|
  {
    seq(|questions|, i requires 0 <= i < |questions| =>
      ReviewOf(questions[i], QuizInteractive.SelectionAt(selected, i), RecordedTime(ranking, completed, i)))
  }

  /**
   * The review grades as the engine does: against the first option, paying the recorded
   * time only when correct with time left.
   */
  lemma ReviewAgreesWithScorer(questions: seq<Question>, selected: map<int, string>, completed: bool, ranking: seq<Attempt>)
    ensures var review := AnswersReview(questions, selected, completed, ranking);
      forall i :: 0 <= i < |questions| ==>
        var sel := QuizInteractive.SelectionAt(selected, i);
        var graded := QuizInteractive.Grade(questions[i], i, sel, RecordedTime(ranking, completed, i));
        && review[i].question == questions[i].text && review[i].selectedOption == sel
        && review[i].isCorrect == graded.isCorrect
        && review[i].pointsEarned == graded.pointsEarned
        && review[i].timeRemaining == graded.timeRemaining
  {
  }

  /** Unless some ranking attempt belongs to the literal placeholder id, the review shows 0 s and 0 points everywhere. */
  lemma ReviewWithoutPlaceholderEarnsNothing(questions: seq<Question>, selected: map<int, string>, completed: bool, ranking: seq<Attempt>)
    requires forall k :: 0 <= k < |ranking| ==> ranking[k].userId != PlaceholderUserId
    ensures forall e :: e in AnswersReview(questions, selected, completed, ranking) ==> e.timeRemaining == 0 && e.pointsEarned == 0
  {
    forall e | e in AnswersReview(questions, selected, completed, ranking) ensures e.timeRemaining == 0 && e.pointsEarned == 0 {
      var i :| 0 <= i < |questions| && AnswersReview(questions, selected, completed, ranking)[i] == e;
      assert RecordedTime(ranking, completed, i) == 0;
    }
  }

  // ---------------------------------------------------------------- the page

  class HomePage {
    const service: QuizInteractive.QuizInteractiveService
    var quiz: Option<Quiz>
    var currentQuestionIndex: int
    var totalQuestions: int
    var selectedAnswers: map<int, string>
    var completed: bool
    var score: real
    var timeRemaining: int
    var quizRanking: seq<Attempt>
    var answersReview: seq<ReviewEntry>

    ghost predicate Valid()
      reads this, service
    {
      service.Valid()
    }

    constructor (service: QuizInteractive.QuizInteractiveService)
      requires service.Valid()
      ensures Valid() && this.service == service
      ensures quiz.None? && currentQuestionIndex == 0 && totalQuestions == 0 && selectedAnswers == map[]
      ensures !completed && score == 0.0 && timeRemaining == 30
      ensures quizRanking == [] && answersReview == []
    {
      this.service := service;
      quiz, currentQuestionIndex, totalQuestions, selectedAnswers := None, 0, 0, map[];
      completed, score, timeRemaining := false, 0.0, 30;
      quizRanking, answersReview := [], [];
    }

    /** allQuestionsAnswered: false without a quiz, else one key per question. */
    predicate AllQuestionsAnswered()
      reads this
    {
      AllAnswered(quiz, selectedAnswers, totalQuestions)
    }

    /**
     * onSelectAnswer and onRadioClick: record the option at the current index in the local
     * map, then forward it to the engine with the countdown the page shows.
     */
    method SelectOption(option: string)
      requires Valid()
      modifies this, service
      ensures Valid()
      ensures selectedAnswers == old(selectedAnswers)[old(currentQuestionIndex) := option]
      ensures service.state == old(service.state).(
        selectedAnswers := old(service.state.selectedAnswers)[old(currentQuestionIndex) := option],
        answerTimes := old(service.state.answerTimes)[old(currentQuestionIndex) := old(timeRemaining)])
      ensures service.timerActive == old(service.timerActive)
      ensures quiz == old(quiz) && currentQuestionIndex == old(currentQuestionIndex) && timeRemaining == old(timeRemaining)
      ensures completed == old(completed) && answersReview == old(answersReview) && totalQuestions == old(totalQuestions)
    {
      selectedAnswers := selectedAnswers[currentQuestionIndex := option];
      service.SelectAnswer(currentQuestionIndex, option, Some(timeRemaining));
    }

    /** onAnswerSelected: an empty value is ignored. */
    method OnAnswerSelected(value: string)
      requires Valid()
      modifies this, service
      ensures Valid()
      ensures value == "" ==> unchanged(this) && unchanged(service)
      ensures value != "" ==>
        && selectedAnswers == old(selectedAnswers)[old(currentQuestionIndex) := value]
        && service.state.selectedAnswers == old(service.state.selectedAnswers)[old(currentQuestionIndex) := value]
        && service.state.answerTimes == old(service.state.answerTimes)[old(currentQuestionIndex) := old(timeRemaining)]
    {
      if value != "" {
        SelectOption(value);
      }
    }

    /** prepareAnswersReview */
    method PrepareAnswersReview()
      modifies this
      ensures quiz.None? ==> answersReview == old(answersReview)
      ensures quiz.Some? ==> answersReview == AnswersReview(quiz.value.questions, selectedAnswers, completed, quizRanking)
      ensures quiz == old(quiz) && selectedAnswers == old(selectedAnswers) && completed == old(completed)
      ensures quizRanking == old(quizRanking) && currentQuestionIndex == old(currentQuestionIndex)
      ensures totalQuestions == old(totalQuestions) && timeRemaining == old(timeRemaining) && score == old(score)
    {
      if quiz.Some? {
        answersReview := AnswersReview(quiz.value.questions, selectedAnswers, completed, quizRanking);
      }
    }

    /** The state subscription: copies the engine's state and, once completed, prepares the review. */
    method ApplySnapshot()
      requires Valid()
      modifies this
      ensures Valid()
      ensures quiz == service.state.quiz && currentQuestionIndex == service.state.currentQuestionIndex
      ensures selectedAnswers == service.state.selectedAnswers && completed == service.state.completed
      ensures score == service.state.score && timeRemaining == service.state.timeRemaining
      ensures quizRanking == old(quizRanking)
      ensures quiz.Some? ==> totalQuestions == |quiz.value.questions|
      ensures quiz.None? ==> totalQuestions == old(totalQuestions)
      ensures quiz.Some? && completed ==> answersReview == AnswersReview(quiz.value.questions, selectedAnswers, true, quizRanking)
      ensures !(quiz.Some? && completed) ==> answersReview == old(answersReview)
    {
      var state := service.state;
      quiz, currentQuestionIndex, selectedAnswers := state.quiz, state.currentQuestionIndex, state.selectedAnswers;
      completed, score, timeRemaining := state.completed, state.score, state.timeRemaining;
      if quiz.Some? {
        totalQuestions := |quiz.value.questions|;
        if completed {
          PrepareAnswersReview();
        }
      }
    }
  }
}
