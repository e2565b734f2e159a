/**
 * The list of the signed-in user's quizzes (src/app/myquizz/myquizz.page.ts): the fetched
 * list, the filtered list shown, the case-insensitive search and the local removal after
 * a delete. The fetch and the delete are parameters; toasts are returned messages.
 */
module MyQuizzes {
  import opened Wrappers
  import opened QuizModel
  import opened Strings

  const LoadFailedPrefix := "Error al cargar los quizzes: "
  const RefreshFailedPrefix := "Error al refrescar: "
  const DeletedMessage := "Quiz eliminado correctamente"
  const DeleteFailedPrefix := "Error al eliminar: "

  /** The lowercased title or description contains the already lowercased search text. */
  predicate MatchesSearch(q: Quiz, search: string) {
    Contains(ToLower(q.title), search) || Contains(ToLower(q.description), search)
  }

  /** `quizzes.filter(...)` with the lowercased term. */
  function Matching(quizzes: seq<Quiz>, search: string): (r: seq<Quiz>)
    ensures forall q :: q in r <==> q in quizzes && MatchesSearch(q, search)
    ensures |r| <= |quizzes|
  {
    if quizzes == [] then []
    else (if MatchesSearch(quizzes[0], search) then [quizzes[0]] else []) + Matching(quizzes[1..], search)
  }

  /** filterQuizzes: an empty term shows every quiz; otherwise the matching ones, in order. */
  function FilterByTerm(quizzes: seq<Quiz>, term: string): seq<Quiz> {
    if term == "" then quizzes else Matching(quizzes, ToLower(term))
  }

  /** `quizzes.filter(q => q.id !== quizId)` */
  function WithoutId(quizzes: seq<Quiz>, id: string): (r: seq<Quiz>)
    ensures forall q :: q in r <==> q in quizzes && q.id != id
    ensures |r| <= |quizzes|
  {
    if quizzes == [] then []
    else (if quizzes[0].id != id then [quizzes[0]] else []) + WithoutId(quizzes[1..], id)
  }

  /** The filter keeps order: filtering a concatenation concatenates the filtered parts. */
  lemma {:induction false} MatchingDistributes(a: seq<Quiz>, b: seq<Quiz>, search: string)
    ensures Matching(a + b, search) == Matching(a, search) + Matching(b, search)
    decreases |a|
  {
    if a == [] {
      assert a + b == b;
    } else {
      assert (a + b)[1..] == a[1..] + b;
      MatchingDistributes(a[1..], b, search);
    }
  }

  /** The removal keeps order: removing from a concatenation concatenates the parts. */
  lemma {:induction false} WithoutIdDistributes(a: seq<Quiz>, b: seq<Quiz>, id: string)
    ensures WithoutId(a + b, id) == WithoutId(a, id) + WithoutId(b, id)
    decreases |a|
  {
    if a == [] {
      assert a + b == b;
    } else {
      assert (a + b)[1..] == a[1..] + b;
      WithoutIdDistributes(a[1..], b, id);
    }
  }

  /** The search shown: every quiz for an empty term, else exactly the matches; case of the term does not matter. */
  lemma FilterByTermMeaning(quizzes: seq<Quiz>, term: string)
    ensures term == "" ==> FilterByTerm(quizzes, term) == quizzes
    ensures term != "" ==> forall q :: q in FilterByTerm(quizzes, term) <==> q in quizzes && MatchesSearch(q, ToLower(term))
    ensures FilterByTerm(quizzes, ToLower(term)) == FilterByTerm(quizzes, term)
  {
    var lowered := ToLower(term);
    assert ToLower(lowered) == lowered by {
      forall i | 0 <= i < |lowered| ensures ToLower(lowered)[i] == lowered[i] {
        assert ToLowerChar(ToLowerChar(term[i])) == ToLowerChar(term[i]);
      }
    }
    assert lowered == "" <==> term == "";
  }

  /** Nothing kept by a removal has the removed id, and removing twice is removing once. */
  lemma WithoutIdIdempotent(quizzes: seq<Quiz>, id: string)
    ensures forall q :: q in WithoutId(quizzes, id) ==> q.id != id
    ensures WithoutId(WithoutId(quizzes, id), id) == WithoutId(quizzes, id)
  {
    var r := WithoutId(quizzes, id);
    WithoutIdNoop(r, id);
  }

  lemma {:induction false} WithoutIdNoop(quizzes: seq<Quiz>, id: string)
    requires forall q :: q in quizzes ==> q.id != id
    ensures WithoutId(quizzes, id) == quizzes
    decreases |quizzes|
  {
    if quizzes != [] {
      assert quizzes[0] in quizzes;
      assert forall q :: q in quizzes[1..] ==> q in quizzes;
      WithoutIdNoop(quizzes[1..], id);
    }
  }

  class MyQuizzesPage {
    var quizzes: seq<Quiz>
    var filteredQuizzes: seq<Quiz>
    var searchTerm: string
    var isLoading: bool

    constructor ()
      ensures quizzes == [] && filteredQuizzes == [] && searchTerm == "" && !isLoading
    {
      quizzes, filteredQuizzes, searchTerm, isLoading := [], [], "", false;
    }

    /** loadQuizzes with the outcome of getMyQuizzes: both lists become the fetched list. */
    method LoadQuizzes(fetched: Result<seq<Quiz>, string>) returns (message: Option<string>)
      modifies this
      ensures !isLoading && searchTerm == old(searchTerm)
      ensures fetched.Ok? ==> quizzes == fetched.value && filteredQuizzes == fetched.value && message.None?
      ensures fetched.Err? ==>
        quizzes == old(quizzes) && filteredQuizzes == old(filteredQuizzes) && message == Some(LoadFailedPrefix + fetched.error)
    {
      isLoading := true;
      match fetched {
        case Ok(list) =>
          quizzes, filteredQuizzes := list, list;
          message := None;
        case Err(m) =>
          message := Some(LoadFailedPrefix + m);
      }
      isLoading := false;
    }

    /** doRefresh: as loadQuizzes, without the loading flag. */
    method DoRefresh(fetched: Result<seq<Quiz>, string>) returns (message: Option<string>)
      modifies this
      ensures isLoading == old(isLoading) && searchTerm == old(searchTerm)
      ensures fetched.Ok? ==> quizzes == fetched.value && filteredQuizzes == fetched.value && message.None?
      ensures fetched.Err? ==>
        quizzes == old(quizzes) && filteredQuizzes == old(filteredQuizzes) && message == Some(RefreshFailedPrefix + fetched.error)
    {
      match fetched {
        case Ok(list) =>
          quizzes, filteredQuizzes := list, list;
          message := None;
        case Err(m) =>
          message := Some(RefreshFailedPrefix + m);
      }
    }

    method FilterQuizzes()
      modifies this
      ensures filteredQuizzes == FilterByTerm(quizzes, searchTerm)
      ensures quizzes == old(quizzes) && searchTerm == old(searchTerm) && isLoading == old(isLoading)
    {
      if searchTerm == "" {
        filteredQuizzes := quizzes;
        return;
      }
      var search := ToLower(searchTerm);
      filteredQuizzes := Matching(quizzes, search);
    }

    /** deleteQuiz with the outcome of the store delete: on success the id leaves both lists. */
    method DeleteQuiz(quizId: string, deleted: Outcome) returns (message: string)
      modifies this
      ensures searchTerm == old(searchTerm) && isLoading == old(isLoading)
      ensures deleted.Pass? ==>
        && quizzes == WithoutId(old(quizzes), quizId) && filteredQuizzes == WithoutId(old(filteredQuizzes), quizId)
        && message == DeletedMessage
      ensures deleted.Fail? ==>
        quizzes == old(quizzes) && filteredQuizzes == old(filteredQuizzes) && message == DeleteFailedPrefix + deleted.message
    {
      match deleted {
        case Pass =>
          quizzes := WithoutId(quizzes, quizId);
          filteredQuizzes := WithoutId(filteredQuizzes, quizId);
          message := DeletedMessage;
        case Fail(m) =>
          message := DeleteFailedPrefix + m;
      }
    }
  }
}
