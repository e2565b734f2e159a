/**
 * The records the quiz services exchange: quizzes and their questions
 * (src/app/services/QuizzService/quiz.service.ts), the signed-in user, and
 * the attempts a finished session writes
 * (src/app/services/quizinteractive/quiz-interactive.service.ts).
 * Timestamps (createdAt, updatedAt, completedAt) are not modelled.
 */
module QuizModel {
  import opened Wrappers

  /** A question; correctOption is a value, not a position. */
  datatype Question = Question(text: string, options: seq<string>, correctOption: string)

  /** A quiz document; an id of "" stands for a quiz not read from the store. */
  datatype Quiz = Quiz(
    id: string,
    title: string,
    description: string,
    questions: seq<Question>,
    createdBy: string,
    codeNumber: Option<string>)

  /** The fields of the signed-in Firebase user that the services read. */
  datatype User = User(uid: string, displayName: Option<string>, email: Option<string>)

  /** One graded question of a finished session. */
  datatype Answer = Answer(
    questionIndex: int,
    selectedOption: string,
    isCorrect: bool,
    pointsEarned: int,
    timeRemaining: int)

  /** A finished session as stored in the attempts collection; score is a percentage. */
  datatype Attempt = Attempt(
    id: string,
    quizId: string,
    userId: string,
    userName: string,
    score: real,
    totalQuestions: int,
    correctAnswers: int,
    totalPoints: int,
    maxPossiblePoints: int,
    answers: seq<Answer>)
}
