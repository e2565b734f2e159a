/**
 * The computational part of the quiz catalogue service
 * (src/app/services/QuizzService/quiz.service.ts): random quiz codes, the
 * bounded search for a code nobody uses, option shuffling, the lookups by
 * code and by id, and the ownership checks guarding edits and deletions.
 * The quizzes collection is a sequence of quizzes in store order, or the
 * message of a failed read; `Math.random()` is a stream of reals in [0, 1).
 */
module QuizCatalog {
  import opened Wrappers
  import opened QuizModel
  import opened Strings
  import opened Shuffles

  const CodeCharacters: string := "0123456789"
  const MinCodeLength: nat := 4
  const MaxCodeLength: nat := 10
  /** Regenerations at one length before the search starts over (`maxAttempts`). */
  const MaxAttempts: nat := 10

  // ---------------------------------------------------------------- randomness

  predicate IsUnitDraw(r: real) {
    0.0 <= r < 1.0
  }

  /** Every draw of the stream is a possible value of `Math.random()`. */
  ghost predicate IsRandomStream(rand: nat -> real) {
    forall k :: IsUnitDraw(rand(k))
  }

  /** `Math.floor(r * n)` for a draw r. */
  function Scaled(r: real, n: nat): (k: nat)
    requires IsUnitDraw(r) && n > 0
    ensures k < n
  {
    assert 0.0 <= r * n as real < n as real;
    (r * n as real).Floor
  }

  // ---------------------------------------------------------------- codes (lines 54-66)

  /** The characters the for-loop appends: one digit per draw rand(pos), ..., rand(pos + n - 1). */
  function DrawnDigits(rand: nat -> real, pos: nat, n: nat): (s: string)
    requires IsRandomStream(rand)
    ensures |s| == n && AllDigits(s)
  {
    if n == 0 then [] else DrawnDigits(rand, pos, n - 1) + [CodeCharacters[Scaled(rand(pos + n - 1), 10)]]
  }

  predicate LeadsWithZero(s: string) {
    |s| > 0 && s[0] == '0'
  }

  /** generateRandomCode(n) reading its draws from rand(pos) on. */
  function RandomCode(rand: nat -> real, pos: nat, n: nat): string
    requires IsRandomStream(rand)
  {
    var raw := DrawnDigits(rand, pos, n);
    if LeadsWithZero(raw) then [CodeCharacters[Scaled(rand(pos + n), 9) + 1]] + raw[1..] else raw
  }

  /** How many draws generateRandomCode(n) consumes: one per digit, plus one for a leading zero. */
  function DrawsUsed(rand: nat -> real, pos: nat, n: nat): nat
    requires IsRandomStream(rand)
  {
    if LeadsWithZero(DrawnDigits(rand, pos, n)) then n + 1 else n
  }

  predicate IsQuizCode(s: string) {
    AllDigits(s) && (|s| > 0 ==> s[0] != '0')
  }

  lemma RandomCodeShape(rand: nat -> real, pos: nat, n: nat)
    requires IsRandomStream(rand)
    ensures |RandomCode(rand, pos, n)| == n && IsQuizCode(RandomCode(rand, pos, n))
    ensures n > 0 ==> RandomCode(rand, pos, n)[1..] == DrawnDigits(rand, pos, n)[1..]
    ensures !LeadsWithZero(DrawnDigits(rand, pos, n)) ==> RandomCode(rand, pos, n) == DrawnDigits(rand, pos, n)
  {
  }

  method GenerateRandomCode(length: nat, rand: nat -> real, pos: nat) returns (code: string, next: nat)
    requires IsRandomStream(rand)
    ensures code == RandomCode(rand, pos, length) && next == pos + DrawsUsed(rand, pos, length)
    ensures |code| == length && IsQuizCode(code)
  {
    code := "";
    for i := 0 to length
      invariant code == DrawnDigits(rand, pos, i)
    {
      code := code + [CodeCharacters[Scaled(rand(pos + i), 10)]];
    }
    next := pos + length;
    if |code| > 0 && code[0] == '0' {
      code := [CodeCharacters[Scaled(rand(next), 9) + 1]] + code[1..];
      next := next + 1;
    }
    RandomCodeShape(rand, pos, length);
  }

  /**
   * generateUniqueCode (lines 77-101). Each round draws a length in 4..10, generates
   * a code and asks isUnique; while the answer is no it regenerates at that length,
   * at most MaxAttempts times, and then starts a new round. The source recurses
   * without bound; here at most maxRounds rounds run and None reports that all failed.
   * lookups counts the calls of isUnique: never more than 1 + MaxAttempts per round.
   */
  method GenerateUniqueCode(rand: nat -> real, pos: nat, isUnique: string -> bool, maxRounds: nat)
    returns (code: Option<string>, next: nat, rounds: nat, lookups: nat)
    requires IsRandomStream(rand)
    ensures code.Some? ==> isUnique(code.value) && IsQuizCode(code.value)
    ensures code.Some? ==> MinCodeLength <= |code.value| <= MaxCodeLength
    ensures code.Some? ==> 1 <= rounds <= maxRounds && (MaxAttempts + 1) * (rounds - 1) < lookups <= (MaxAttempts + 1) * rounds
    ensures code.None? ==> rounds == maxRounds && lookups == (MaxAttempts + 1) * maxRounds
    ensures (forall c :: isUnique(c)) && maxRounds > 0 ==> code.Some? && rounds == 1 && lookups == 1
  {
    code, next, rounds, lookups := None, pos, 0, 0;
    while rounds < maxRounds && code.None?
      invariant rounds <= maxRounds
      invariant code.Some? ==> isUnique(code.value) && IsQuizCode(code.value)
      invariant code.Some? ==> MinCodeLength <= |code.value| <= MaxCodeLength
      invariant code.Some? ==> 1 <= rounds && (MaxAttempts + 1) * (rounds - 1) < lookups <= (MaxAttempts + 1) * rounds
      invariant code.None? ==> lookups == (MaxAttempts + 1) * rounds
      invariant (forall c :: isUnique(c)) ==> (code.Some? <==> rounds > 0) && (code.Some? ==> rounds == 1 && lookups == 1)
      decreases maxRounds - rounds
    {
      var codeLength := Scaled(rand(next), 7) + MinCodeLength;
      next := next + 1;
      var candidate;
      candidate, next := GenerateRandomCode(codeLength, rand, next);
      var unique := isUnique(candidate);
      var attempts := 0;
      while !unique && attempts < MaxAttempts
        invariant 0 <= attempts <= MaxAttempts
        invariant |candidate| == codeLength && IsQuizCode(candidate)
        invariant unique == isUnique(candidate)
        invariant (forall c :: isUnique(c)) ==> attempts == 0
      {
        candidate, next := GenerateRandomCode(codeLength, rand, next);
        unique := isUnique(candidate);
        attempts := attempts + 1;
      }
      lookups := lookups + 1 + attempts;
      rounds := rounds + 1;
      if unique {
        code := Some(candidate);
      }
    }
  }

  // ---------------------------------------------------------------- option shuffling (lines 299-322)

  /** The options of q reordered by perm; a falsy correctOption defaults to the first original option. */
  function ShuffledQuestion(q: Question, perm: seq<nat>): Question
    requires IsIndexPermutation(perm, |q.options|)
  {
    var correct := if q.correctOption == "" && |q.options| > 0 then q.options[0] else q.correctOption;
    Question(q.text, Reorder(q.options, perm), correct)
  }

  predicate ShufflesFit(questions: seq<Question>, perms: seq<seq<nat>>) {
    |perms| == |questions| && forall i :: 0 <= i < |questions| ==> IsIndexPermutation(perms[i], |questions[i].options|)
  }

  lemma ShuffledQuestionKeepsAnswer(q: Question, perm: seq<nat>)
    requires IsIndexPermutation(perm, |q.options|)
    ensures ShuffledQuestion(q, perm).text == q.text
    ensures multiset(ShuffledQuestion(q, perm).options) == multiset(q.options)
    ensures q.correctOption != "" ==> ShuffledQuestion(q, perm).correctOption == q.correctOption
    ensures q.correctOption == "" && |q.options| > 0 ==> ShuffledQuestion(q, perm).correctOption == q.options[0]
    ensures q.correctOption in q.options ==> ShuffledQuestion(q, perm).correctOption in ShuffledQuestion(q, perm).options
  {
    ReorderPermutes(q.options, perm);
    assert q.correctOption in q.options ==> q.correctOption in multiset(q.options);
    assert |q.options| > 0 ==> q.options[0] in multiset(q.options);
  }

  /**
   * randomizeQuizOptions: the copy's questions shuffled one by one, the i-th by perms[i].
   * The input is a value, so it is left as it was (the source deep-copies it first).
   */
  method RandomizeQuizOptions(quiz: Quiz, perms: seq<seq<nat>>) returns (r: Quiz)
    requires ShufflesFit(quiz.questions, perms)
    ensures r == quiz.(questions := r.questions)
    ensures |r.questions| == |quiz.questions|
    ensures forall i :: 0 <= i < |quiz.questions| ==> r.questions[i] == ShuffledQuestion(quiz.questions[i], perms[i])
  {
    var questions := quiz.questions;
    for i := 0 to |questions|
      invariant |questions| == |quiz.questions|
      invariant forall j :: 0 <= j < i ==> questions[j] == ShuffledQuestion(quiz.questions[j], perms[j])
      invariant forall j :: i <= j < |questions| ==> questions[j] == quiz.questions[j]
    {
      var question := questions[i];
      var correctAnswer := question.correctOption;
      if correctAnswer == "" && |question.options| > 0 {
        correctAnswer := question.options[0];
      }
      questions := questions[i := Question(question.text, Reorder(question.options, perms[i]), correctAnswer)];
    }
    r := quiz.(questions := questions);
  }

  /** What randomizeQuizOptions promises about every question of the result. */
  lemma RandomizedQuizKeepsQuestions(quiz: Quiz, perms: seq<seq<nat>>, r: Quiz, i: nat)
    requires ShufflesFit(quiz.questions, perms)
    requires |r.questions| == |quiz.questions| && i < |quiz.questions|
    requires r.questions[i] == ShuffledQuestion(quiz.questions[i], perms[i])
    ensures r.questions[i].text == quiz.questions[i].text
    ensures multiset(r.questions[i].options) == multiset(quiz.questions[i].options)
    ensures quiz.questions[i].correctOption in quiz.questions[i].options ==> r.questions[i].correctOption in r.questions[i].options
  {
    ShuffledQuestionKeepsAnswer(quiz.questions[i], perms[i]);
  }

  // ---------------------------------------------------------------- lookups

  /** The first quiz of the collection with the given code (`snapshot.docs[0]`), if any. */
  function FirstWithCode(quizzes: seq<Quiz>, code: string): (r: Option<Quiz>)
    ensures r.Some? ==> r.value in quizzes && r.value.codeNumber == Some(code)
    ensures r.None? <==> forall q :: q in quizzes ==> q.codeNumber != Some(code)
  {
    if quizzes == [] then None
    else if quizzes[0].codeNumber == Some(code) then Some(quizzes[0])
    else FirstWithCode(quizzes[1..], code)
  }

  lemma {:induction false} FirstWithCodeIsFirst(quizzes: seq<Quiz>, code: string, k: nat)
    requires k < |quizzes| && quizzes[k].codeNumber == Some(code)
    ensures FirstWithCode(quizzes, code).Some?
    ensures (forall j :: 0 <= j < k ==> quizzes[j].codeNumber != Some(code)) ==> FirstWithCode(quizzes, code) == Some(quizzes[k])
  {
    if k > 0 && quizzes[0].codeNumber != Some(code) {
      FirstWithCodeIsFirst(quizzes[1..], code, k - 1);
    }
  }

  /** getQuizByCode (lines 144-162): null when no quiz has the code; a failed read is rethrown with a prefix. */
  function QuizByCode(store: Result<seq<Quiz>, string>, code: string): (r: Result<Option<Quiz>, string>)
    ensures store.Err? ==> r == Err("Error al buscar el quiz: " + store.error)
    ensures store.Ok? ==> r.Ok? && r.value == FirstWithCode(store.value, code)
  {
    match store
    case Err(m) => Err("Error al buscar el quiz: " + m)
    case Ok(quizzes) => Ok(FirstWithCode(quizzes, code))
  }

  function FirstWithId(quizzes: seq<Quiz>, id: string): (r: Option<Quiz>)
    ensures r.Some? ==> r.value in quizzes && r.value.id == id
    ensures r.None? <==> forall q :: q in quizzes ==> q.id != id
  {
    if quizzes == [] then None
    else if quizzes[0].id == id then Some(quizzes[0])
    else FirstWithId(quizzes[1..], id)
  }

  const QuizNotFound := "Quiz no encontrado"

  /** getQuizById (lines 212-229): a missing document and a failed read both fail with a prefixed message. */
  function QuizById(store: Result<seq<Quiz>, string>, id: string): (r: Result<Quiz, string>)
    ensures r.Ok? <==> store.Ok? && exists q :: q in store.value && q.id == id
    ensures r.Ok? ==> r.value.id == id && r.value in store.value
    ensures store.Ok? && r.Err? ==> r.error == "Error al cargar el quiz: " + QuizNotFound
    ensures store.Err? ==> r == Err("Error al cargar el quiz: " + store.error)
  {
    match store
    case Err(m) => Err("Error al cargar el quiz: " + m)
    case Ok(quizzes) =>
      match FirstWithId(quizzes, id)
      case Some(q) => Ok(q)
      case None => Err("Error al cargar el quiz: " + QuizNotFound)
  }

  // ---------------------------------------------------------------- ownership guards (lines 232-295)

  datatype Action = Edit | Delete

  function SignInMessage(action: Action): string {
    match action
    case Edit => "Debes iniciar sesión para editar un quiz"
    case Delete => "Debes iniciar sesión para eliminar un quiz"
  }

  function PermissionMessage(action: Action): string {
    match action
    case Edit => "No tienes permiso para editar este quiz"
    case Delete => "No tienes permiso para eliminar este quiz"
  }

  function FailurePrefix(action: Action): string {
    match action
    case Edit => "Error al actualizar el quiz: "
    case Delete => "Error al eliminar el quiz: "
  }

  /**
   * updateQuiz / deleteQuiz: user is the signed-in user (isAuthenticated and currentUser
   * read the same slot), store the quizzes collection, write the outcome of
   * updateDoc / deleteDoc. Only the owner's request reaches the write.
   */
  function ModifyQuiz(action: Action, user: Option<User>, store: Result<seq<Quiz>, string>, id: string, write: Outcome): Outcome {
    if user.None? then Fail(SignInMessage(action))
    else
      match QuizById(store, id)
      case Err(m) => Fail(FailurePrefix(action) + m)
      case Ok(quiz) =>
        if quiz.createdBy != user.value.uid then Fail(FailurePrefix(action) + PermissionMessage(action))
        else if write.Fail? then Fail(FailurePrefix(action) + write.message)
        else Pass
  }

  /** The write happens, and succeeds, exactly for the signed-in owner of an existing quiz. */
  lemma ModifyQuizGuard(action: Action, user: Option<User>, store: Result<seq<Quiz>, string>, id: string, write: Outcome)
    ensures ModifyQuiz(action, user, store, id, write).Pass? <==>
      && user.Some?
      && QuizById(store, id).Ok?
      && QuizById(store, id).value.createdBy == user.value.uid
      && write.Pass?
    ensures user.None? ==> ModifyQuiz(action, user, store, id, write) == Fail(SignInMessage(action))
    ensures user.Some? && QuizById(store, id).Ok? && QuizById(store, id).value.createdBy != user.value.uid ==>
      ModifyQuiz(action, user, store, id, write) == Fail(FailurePrefix(action) + PermissionMessage(action))
  {
  }
}
