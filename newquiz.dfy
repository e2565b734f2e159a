/**
 * The quiz authoring page (src/app/newquizz/newquizz.page.ts): the question being edited,
 * the list of questions added so far, the spreadsheet import and the save form. Each
 * operation returns the message its toast would show; the store write is a parameter.
 */
module NewQuiz {
  import opened Wrappers
  import opened QuizModel
  import Strings

  const MissingTextMessage := "Debes ingresar el texto de la pregunta"
  const EmptyOptionMessage := "Todas las opciones deben tener texto"
  const QuestionAddedMessage := "Pregunta agregada correctamente"
  const NotEnoughDataMessage := "El archivo no contiene suficientes datos"
  const NoValidQuestionsMessage := "No se encontraron preguntas válidas en el archivo"
  const MissingTitleMessage := "El quiz debe tener un título"
  const NoQuestionsMessage := "El quiz debe tener al menos una pregunta"
  const SavedMessage := "Quiz guardado correctamente"
  const SaveFailedPrefix := "Error al guardar: "
  const MyQuizzesRoute := "/myquizz"

  /** A blank question: no text, two empty options, no correct option. */
  const BlankQuestion := Question("", ["", ""], "")

  function LoadedMessage(count: nat): string {
    "Se cargaron " + Strings.NatToString(count) + " preguntas"
  }

  /** Every option has text and there are at least two. */
  predicate WellFormed(q: Question) {
    |q.options| >= 2 && forall k :: 0 <= k < |q.options| ==> q.options[k] != ""
  }

  /**
   * `splice(index, 1)`: a negative index counts from the end (clamped at 0), an index past
   * the end removes nothing.
   */
  function SpliceStart(length: nat, index: int): (start: nat)
    ensures start <= length
  {
    if index < 0 then (if length + index < 0 then 0 else length + index)
    else if index > length then length else index
  }

  function RemoveAt<T>(s: seq<T>, index: int): (r: seq<T>)
    ensures var start := SpliceStart(|s|, index);
      && (start < |s| ==> |r| == |s| - 1 && r == s[..start] + s[start + 1..])
      && (start == |s| ==> r == s)
  {
    var start := SpliceStart(|s|, index);
    if start < |s| then s[..start] + s[start + 1..] else s
  }

  // ---------------------------------------------------------------- sheet import (lines 233-273)

  /** The truthy cells from column 1 on, in order. */
  function NonEmptyCells(cells: seq<string>): (r: seq<string>)
    ensures forall k :: 0 <= k < |r| ==> r[k] != ""
    ensures forall c :: c in r <==> c in cells && c != ""
    ensures |r| <= |cells|
  {
    if cells == [] then []
    else (if cells[0] != "" then [cells[0]] else []) + NonEmptyCells(cells[1..])
  }

  /** The question a row of at least three cells yields, kept when it has two options or more. */
  function RowQuestion(row: seq<string>): Option<Question> {
    if |row| >= 3 && |NonEmptyCells(row[1..])| >= 2 then Some(Question(row[0], NonEmptyCells(row[1..]), row[1]))
    else None
  }

  /** The questions of a grid, every row including the first considered, in row order. */
  function SheetQuestions(data: seq<seq<string>>): seq<Question>
    decreases |data|
  {
    if data == [] then []
    else
      var front := SheetQuestions(data[..|data| - 1]);
      match RowQuestion(data[|data| - 1])
      case Some(q) => front + [q]
      case None => front
  }

  lemma {:induction false} SheetQuestionsWellFormed(data: seq<seq<string>>)
    ensures forall i :: 0 <= i < |SheetQuestions(data)| ==> WellFormed(SheetQuestions(data)[i])
    ensures |SheetQuestions(data)| <= |data|
    decreases |data|
  {
    if data != [] {
      SheetQuestionsWellFormed(data[..|data| - 1]);
    }
  }

  /** What a built question holds: text row[0], correctOption row[1] verbatim, the non-empty cells as options. */
  lemma RowQuestionShape(row: seq<string>)
    ensures RowQuestion(row).Some? <==> |row| >= 3 && |NonEmptyCells(row[1..])| >= 2
    ensures RowQuestion(row).Some? ==>
      var q := RowQuestion(row).value;
      && q.text == row[0] && q.correctOption == row[1] && q.options == NonEmptyCells(row[1..])
      && WellFormed(q)
      && (q.correctOption in q.options <==> row[1] != "")
  {
    if |row| >= 3 {
      assert row[1..][0] == row[1];
    }
  }

  /** The nested loops of processSheetData that build the question list. */
  method ParseSheet(data: seq<seq<string>>) returns (questions: seq<Question>)
    ensures questions == SheetQuestions(data)
  {
    questions := [];
    for i := 0 to |data|
      invariant questions == SheetQuestions(data[..i])
    {
      var row := data[i];
      assert data[..i + 1][..i] == data[..i];
      if |row| >= 3 {
        var options: seq<string> := [];
        for j := 1 to |row|
          invariant options == NonEmptyCells(row[1..j])
        {
          NonEmptyCellsAppend(row[1..j], row[j]);
          assert row[1..j + 1] == row[1..j] + [row[j]];
          if row[j] != "" {
            options := options + [row[j]];
          }
        }
        assert row[1..|row|] == row[1..];
        if |options| >= 2 {
          questions := questions + [Question(row[0], options, row[1])];
        }
      }
    }
    assert data[..|data|] == data;
  }

  lemma {:induction false} NonEmptyCellsAppend(cells: seq<string>, c: string)
    ensures NonEmptyCells(cells + [c]) == NonEmptyCells(cells) + (if c != "" then [c] else [])
    decreases |cells|
  {
    if cells == [] {
      assert [c][1..] == [];
    } else {
      assert (cells + [c])[1..] == cells[1..] + [c];
      NonEmptyCellsAppend(cells[1..], c);
    }
  }

  // ---------------------------------------------------------------- the page

  class NewQuizPage {
    var quizTitle: string
    var quizDescription: string
    var questions: seq<Question>
    var currentQuestion: Question
    /** selectedFile is not null. */
    var hasFile: bool
    var isLoading: bool

    /** The question under edit keeps two options or more; every stored question is well formed. */
    ghost predicate Valid()
      reads this
    {
      && |currentQuestion.options| >= 2
      && forall i :: 0 <= i < |questions| ==> WellFormed(questions[i])
    }

    constructor ()
      ensures Valid()
      ensures quizTitle == "" && quizDescription == "" && questions == [] && currentQuestion == BlankQuestion
      ensures !hasFile && !isLoading
    {
      quizTitle, quizDescription, questions, currentQuestion := "", "", [], BlankQuestion;
      hasFile, isLoading := false, false;
    }

    method ResetForm()
      requires Valid()
      modifies this
      ensures Valid()
      ensures quizTitle == "" && quizDescription == "" && questions == [] && currentQuestion == BlankQuestion
      ensures !hasFile && isLoading == old(isLoading)
    {
      quizTitle, quizDescription, questions, currentQuestion := "", "", [], BlankQuestion;
      hasFile := false;
    }

    method UpdateQuestionText(value: string)
      requires Valid()
      modifies this
      ensures Valid()
      ensures currentQuestion == old(currentQuestion).(text := value)
      ensures quizTitle == old(quizTitle) && quizDescription == old(quizDescription) && questions == old(questions)
      ensures hasFile == old(hasFile) && isLoading == old(isLoading)
    {
      currentQuestion := currentQuestion.(text := value);
    }

    /** Sets one option; editing the first one also sets the correct option. */
    method UpdateOptionText(index: int, value: string)
      requires Valid() && 0 <= index < |currentQuestion.options|
      modifies this
      ensures Valid()
      ensures currentQuestion.options == old(currentQuestion.options)[index := value]
      ensures currentQuestion.text == old(currentQuestion.text)
      ensures index == 0 ==> currentQuestion.correctOption == value
      ensures index != 0 ==> currentQuestion.correctOption == old(currentQuestion.correctOption)
      ensures quizTitle == old(quizTitle) && quizDescription == old(quizDescription) && questions == old(questions)
      ensures hasFile == old(hasFile) && isLoading == old(isLoading)
    {
      currentQuestion := currentQuestion.(options := currentQuestion.options[index := value]);
      if index == 0 {
        currentQuestion := currentQuestion.(correctOption := value);
      }
    }

    method AddOption()
      requires Valid()
      modifies this
      ensures Valid()
      ensures currentQuestion == old(currentQuestion).(options := old(currentQuestion.options) + [""])
      ensures quizTitle == old(quizTitle) && quizDescription == old(quizDescription) && questions == old(questions)
      ensures hasFile == old(hasFile) && isLoading == old(isLoading)
    {
      currentQuestion := currentQuestion.(options := currentQuestion.options + [""]);
    }

    /**
     * Removes one option while more than two remain; removing the first makes the old
     * second option the correct one.
     */
    method RemoveOption(index: int)
      requires Valid()
      modifies this
      ensures Valid()
      ensures |old(currentQuestion.options)| <= 2 ==> currentQuestion == old(currentQuestion)
      ensures |old(currentQuestion.options)| > 2 ==>
        && currentQuestion.options == RemoveAt(old(currentQuestion.options), index)
        && currentQuestion.text == old(currentQuestion.text)
        && currentQuestion.correctOption == (if index == 0 then old(currentQuestion.options)[1] else old(currentQuestion.correctOption))
      ensures quizTitle == old(quizTitle) && quizDescription == old(quizDescription) && questions == old(questions)
      ensures hasFile == old(hasFile) && isLoading == old(isLoading)
    {
      if |currentQuestion.options| > 2 {
        if index == 0 && |currentQuestion.options| > 1 {
          currentQuestion := currentQuestion.(correctOption := currentQuestion.options[1]);
        }
        currentQuestion := currentQuestion.(options := RemoveAt(currentQuestion.options, index));
      }
    }

    /**
     * addQuestion: refuses a question without text or with an empty option; otherwise appends
     * one copy whose correct option is its first option and starts a blank question.
     */
    method AddQuestion() returns (message: string)
      requires Valid()
      modifies this
      ensures Valid()
      ensures quizTitle == old(quizTitle) && quizDescription == old(quizDescription)
      ensures hasFile == old(hasFile) && isLoading == old(isLoading)
      ensures old(currentQuestion.text) == "" ==>
        message == MissingTextMessage && questions == old(questions) && currentQuestion == old(currentQuestion)
      ensures old(currentQuestion.text) != "" && !WellFormed(old(currentQuestion)) ==>
        message == EmptyOptionMessage && questions == old(questions) && currentQuestion == old(currentQuestion)
      ensures old(currentQuestion.text) != "" && WellFormed(old(currentQuestion)) ==>
        && message == QuestionAddedMessage
        && questions == old(questions) + [old(currentQuestion).(correctOption := old(currentQuestion.options)[0])]
        && currentQuestion == BlankQuestion
    {
      if currentQuestion.text == "" {
        return MissingTextMessage;
      }
      if exists k :: 0 <= k < |currentQuestion.options| && currentQuestion.options[k] == "" {
        return EmptyOptionMessage;
      }
      currentQuestion := currentQuestion.(correctOption := currentQuestion.options[0]);
      var questionCopy := Question(currentQuestion.text, currentQuestion.options, currentQuestion.correctOption);
      questions := questions + [questionCopy];
      currentQuestion := BlankQuestion;
      message := QuestionAddedMessage;
    }

    method RemoveQuestion(index: int)
      requires Valid()
      modifies this
      ensures Valid()
      ensures questions == RemoveAt(old(questions), index)
      ensures currentQuestion == old(currentQuestion) && quizTitle == old(quizTitle) && quizDescription == old(quizDescription)
      ensures hasFile == old(hasFile) && isLoading == old(isLoading)
    {
      questions := RemoveAt(questions, index);
    }

    /**
     * processSheetData on an already parsed grid: fewer than two rows or no valid row leaves
     * the questions as they were; otherwise the parsed list replaces them wholesale.
     */
    method ProcessSheetData(data: seq<seq<string>>) returns (message: string)
      requires Valid()
      modifies this
      ensures Valid()
      ensures currentQuestion == old(currentQuestion) && quizTitle == old(quizTitle) && quizDescription == old(quizDescription)
      ensures hasFile == old(hasFile) && isLoading == old(isLoading)
      ensures |data| < 2 ==> message == NotEnoughDataMessage && questions == old(questions)
      ensures |data| >= 2 && SheetQuestions(data) == [] ==> message == NoValidQuestionsMessage && questions == old(questions)
      ensures |data| >= 2 && SheetQuestions(data) != [] ==>
        questions == SheetQuestions(data) && message == LoadedMessage(|SheetQuestions(data)|)
    {
      if |data| < 2 {
        return NotEnoughDataMessage;
      }
      var parsed := ParseSheet(data);
      if |parsed| == 0 {
        return NoValidQuestionsMessage;
      }
      SheetQuestionsWellFormed(data);
      questions := parsed;
      message := LoadedMessage(|parsed|);
    }

    /**
     * saveQuiz with the outcome of createQuiz (the new id or an error message): a missing
     * title or an empty list is refused before anything is written; a success resets the
     * form and redirects to the user's quizzes.
     */
    method SaveQuiz(created: Result<string, string>) returns (message: string, redirect: Option<string>)
      requires Valid()
      modifies this
      ensures Valid()
      ensures old(quizTitle) == "" ==> message == MissingTitleMessage && redirect.None? && unchanged(this)
      ensures old(quizTitle) != "" && old(questions) == [] ==> message == NoQuestionsMessage && redirect.None? && unchanged(this)
      ensures old(quizTitle) != "" && old(questions) != [] && created.Ok? ==>
        && message == SavedMessage && redirect == Some(MyQuizzesRoute)
        && quizTitle == "" && quizDescription == "" && questions == [] && currentQuestion == BlankQuestion && !hasFile
      ensures old(quizTitle) != "" && old(questions) != [] && created.Err? ==>
        && message == SaveFailedPrefix + created.error && redirect.None?
        && quizTitle == old(quizTitle) && quizDescription == old(quizDescription) && questions == old(questions)
        && currentQuestion == old(currentQuestion) && hasFile == old(hasFile)
      ensures unchanged(this) || !isLoading
    {
      if quizTitle == "" {
        return MissingTitleMessage, None;
      }
      if |questions| == 0 {
        return NoQuestionsMessage, None;
      }
      isLoading := true;
      match created {
        case Ok(_) =>
          ResetForm();
          message, redirect := SavedMessage, Some(MyQuizzesRoute);
        case Err(m) =>
          message, redirect := SaveFailedPrefix + m, None;
      }
      isLoading := false;
    }
  }
}
