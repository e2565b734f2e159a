# QuizzzApp core in Dafny

QuizzzApp is an Ionic/Angular quiz application on Firebase. Authors create quizzes by hand or import them from a spreadsheet. Each quiz gets a random numeric code. Players enter the code and answer up to ten questions against a 30-second countdown per question. A correct answer earns as many points as seconds were left. A finished attempt is stored, and per-quiz rankings and a personal history are built from the stored attempts.

This project models the deterministic core of that application and proves properties of it. There is one Dafny module per source file of the core, plus four small shared modules:

- `Wrappers`: `Option`, `Result` and `Outcome`.
- `Strings`: decimal rendering, `padStart(2, '0')`, the truncating `%`, ASCII `toLowerCase` and `includes`.
- `Shuffles`: reordering by an index permutation, and the sample of the first positions of one.
- `QuizModel`: the records of questions, quizzes, users, answers and attempts.

The inputs are made explicit:

- Firestore reads and writes become parameters. A read is a sequence of documents, or an error message. A write is the new id, or an error message.
- `Math.random()` becomes a stream of reals in [0, 1), or an index permutation where the source shuffles with a random comparator.
- The signed-in user is an `Option<User>`.
- The once-per-second interval callback of the session engine is the method `Tick`. The interval handle is the flag `timerActive`.

Where state is changed in place, the source's classes are classes with `modifies` frames:

- the session engine;
- the ranking service, with its cache and its published history;
- the new-quiz page, the home page and the my-quizzes page;
- the temporary-credential slot.

Where the source computes values, the model uses functions and lemmas.

The model follows the code where the documented design of the system differs from it:

- **Grading uses the first option.** `completeQuiz` and the answer review grade a selection against `options[0]`, not against `correctOption`. This holds even after the options were shuffled.
- **The score is not rounded.** `completeQuiz` stores `(totalPoints / maxPossiblePoints) * 100`. Here that value is an exact `real`, so the three-question example gives 250/9 and not 28.
- **A correct answer at 0 s is not counted.** It is flagged correct but earns no points and does not raise `correctAnswers`.
- **The answer review shows placeholder times.** It takes its times from a ranking attempt whose user id is the literal `"currentUserId"`. No real user has that id, so the review shows 0 s and 0 points everywhere.
- **The spreadsheet import reads every row.** Row 0 is included. So a header row becomes a question when it has at least three cells and at least two non-empty cells after the first one, the same test every other row passes.
- **Honest callers never see "Usuario no encontrado".** `isAuthenticated` and `currentUser` read the same authentication slot. Sequentially, the second guard of `completeQuiz` therefore never fires, and the model has a single "signed out" case.

## Model

| member | source | states |
|---|---|---|
| QuizInteractive.Grade | src/app/services/quizinteractive/quiz-interactive.service.ts:320-344 | an answer is correct iff the selection equals the first option; it earns the recorded seconds iff correct with time > 0, else 0 |
| QuizInteractive.Answers | src/app/services/quizinteractive/quiz-interactive.service.ts:320-344 | one graded answer per question, in question order |
| QuizInteractive.ScoreAnswers | src/app/services/quizinteractive/quiz-interactive.service.ts:313-344 | the loop with the two mutable counters yields exactly the graded answers, correctAnswers = number of answers that earned points, totalPoints = sum of points |
| QuizInteractive.TotalWithinMax | src/app/services/quizinteractive/quiz-interactive.service.ts:313-351 | when no recorded time exceeds 30, 0 <= totalPoints <= questions × 30 and correctAnswers <= questions |
| QuizInteractive.ScoreIsPercentage | src/app/services/quizinteractive/quiz-interactive.service.ts:350-351 | score × max = 100 × total when max > 0, 0 otherwise; the score lies in [0, 100] when 0 <= total <= max |
| QuizInteractive.AnswersGradeEachQuestion | src/app/services/quizinteractive/quiz-interactive.service.ts:313-344 | entry i of the answers array is question i graded with its selection and time ("" and 0 when absent): correct iff it equals the first option, earning its seconds only when correct with time left |
| QuizInteractive.AttemptTotals | src/app/services/quizinteractive/quiz-interactive.service.ts:313-362 | the attempt carries the graded answers; its totalPoints is the sum of the points and never negative; correctAnswers is the number of answers that earned points, between 0 and the number of questions; maxPossiblePoints is questions × 30, and score × max = 100 × total (0 without questions) |
| QuizInteractive.CompleteScoresEveryQuestion | src/app/services/quizinteractive/quiz-interactive.service.ts:313-384 | a completed session grades every question with "" and 0 as defaults, publishes the totals (points summed, correctAnswers = number of answers that earned points, max = questions × 30, the exact percentage) with completed = true and the timer stopped, emits the attempt with the store's id, or sets the save error and emits nothing |
| QuizInteractive.CompletePublishesAttempt | src/app/services/quizinteractive/quiz-interactive.service.ts:350-383 | a signed-in completion publishes the attempt's score and totals with completed = true and the timer stopped; a successful save emits the attempt with the store's id and keeps the error, a failed one emits nothing and sets the error "Error al guardar los resultados: " + message |
| QuizInteractive.CompleteRequiresSignIn | src/app/services/quizinteractive/quiz-interactive.service.ts:292-302 | without a quiz or a user only the timer stops and the error is set; completed and the totals are untouched; nothing is emitted |
| QuizInteractive.TimedOutQuestionEarnsNothing | src/app/services/quizinteractive/quiz-interactive.service.ts:190-194 | an unanswered question at timeout is graded as "" at 0 s and earns 0 (correct only if the first option is "") |
| QuizInteractive.CorrectAtZeroIsNotCounted | src/app/services/quizinteractive/quiz-interactive.service.ts:331-335 | a correct selection with no time left is flagged correct but earns 0 |
| QuizInteractive.ThreeQuestionScenario | src/app/services/quizinteractive/quiz-interactive.service.ts:320-351 | A at 25 s, B at 10 s and a timeout give 1 correct, 25 of 90 points, score 250/9 |
| QuizInteractive.PlayedQuestions | src/app/services/quizinteractive/quiz-interactive.service.ts:103-107 | at most 10 questions are kept unchanged; more are cut to exactly 10 drawn from the originals |
| QuizInteractive.QuizInteractiveService.constructor | src/app/services/quizinteractive/quiz-interactive.service.ts:69-83 | the initial state, no interval |
| QuizInteractive.QuizInteractiveService.ClearTimer | src/app/services/quizinteractive/quiz-interactive.service.ts:208-214 | the interval is gone and timerRunning is false; nothing else changes |
| QuizInteractive.QuizInteractiveService.StartTimer | src/app/services/quizinteractive/quiz-interactive.service.ts:169-180 | the countdown restarts at 30 with timerRunning and one interval installed |
| QuizInteractive.QuizInteractiveService.LoadQuizByCode | src/app/services/quizinteractive/quiz-interactive.service.ts:95-151 | found: the played questions, index 0, empty maps, zero totals, max = count × 30, timer started, the original quiz emitted; not found or failed: the error set, loading off, timer untouched |
| QuizInteractive.QuizInteractiveService.SelectAnswer | src/app/services/quizinteractive/quiz-interactive.service.ts:217-235 | only key i of both maps changes, to the text and the override time or the live countdown |
| QuizInteractive.QuizInteractiveService.NextQuestion | src/app/services/quizinteractive/quiz-interactive.service.ts:238-249 | moves on iff index < count - 1, with a fresh 30 s and a running timer; otherwise a no-op |
| QuizInteractive.QuizInteractiveService.PreviousQuestion | src/app/services/quizinteractive/quiz-interactive.service.ts:252-263 | moves back iff index > 0, with a fresh 30 s; otherwise a no-op |
| QuizInteractive.QuizInteractiveService.GoToQuestion | src/app/services/quizinteractive/quiz-interactive.service.ts:266-277 | jumps iff 0 <= index < count, with a fresh 30 s; otherwise a no-op |
| QuizInteractive.QuizInteractiveService.PauseTimer | src/app/services/quizinteractive/quiz-interactive.service.ts:280-282 | the timer stops, nothing else changes |
| QuizInteractive.QuizInteractiveService.ResumeTimer | src/app/services/quizinteractive/quiz-interactive.service.ts:285-289 | restarts from 30 only when no interval exists; otherwise a no-op |
| QuizInteractive.QuizInteractiveService.CompleteQuiz | src/app/services/quizinteractive/quiz-interactive.service.ts:292-385 | the new state and emitted attempt are those of the completion function, with no interval left |
| QuizInteractive.QuizInteractiveService.ResetQuiz | src/app/services/quizinteractive/quiz-interactive.service.ts:387-405 | exactly the initial state, timer stopped |
| QuizInteractive.QuizInteractiveService.Tick | src/app/services/quizinteractive/quiz-interactive.service.ts:180-204 | above 0 only the countdown drops by 1; at 0 the timer stops, an unanswered question gets "" at 0 s, then the next question starts with 30 s or the session completes; a cleared interval does nothing |
| Shuffles.Sample | src/app/services/quizinteractive/quiz-interactive.service.ts:154-157 | min(count, n) elements, each the element at a distinct position, a sub-multiset of the input |
| Shuffles.ReorderPermutes | src/app/services/QuizzService/quiz.service.ts:314 | reordering by a permutation of the positions keeps the multiset of elements |
| QuizCatalog.Scaled | src/app/services/QuizzService/quiz.service.ts:59 | floor(r × n) of a draw in [0, 1) is an index below n |
| QuizCatalog.DrawnDigits | src/app/services/QuizzService/quiz.service.ts:55-60 | n draws give n decimal digits |
| QuizCatalog.RandomCodeShape | src/app/services/QuizzService/quiz.service.ts:54-66 | a code of length n has n digits and, for n >= 1, no leading 0; only the first digit is redrawn |
| QuizCatalog.GenerateRandomCode | src/app/services/QuizzService/quiz.service.ts:54-66 | the for-loop and the leading-zero fix produce that code and consume the draws it needs |
| QuizCatalog.GenerateUniqueCode | src/app/services/QuizzService/quiz.service.ts:77-101 | a returned code is unique, all digits, no leading 0, of a length in 4..10; each round makes at most 11 lookups, 1 + 10 regenerations; with every code unique the first lookup succeeds |
| QuizCatalog.ShuffledQuestionKeepsAnswer | src/app/services/QuizzService/quiz.service.ts:304-319 | text kept, options a permutation of the old ones, correctOption kept, or options[0] when it was falsy and options exist |
| QuizCatalog.RandomizeQuizOptions | src/app/services/QuizzService/quiz.service.ts:299-322 | the forEach over the copy shuffles every question and changes nothing else |
| QuizCatalog.RandomizedQuizKeepsQuestions | src/app/services/QuizzService/quiz.service.ts:299-322 | the result has as many questions, with the same texts and each question's options permuted |
| QuizCatalog.FirstWithCode | src/app/services/QuizzService/quiz.service.ts:148-155 | the quiz found has the code; none is found iff no quiz has it |
| QuizCatalog.FirstWithCodeIsFirst | src/app/services/QuizzService/quiz.service.ts:148-155 | of several quizzes with the code, the first in store order is returned |
| QuizCatalog.QuizByCode | src/app/services/QuizzService/quiz.service.ts:144-162 | a failed read becomes "Error al buscar el quiz: " + message; otherwise the first match or none |
| QuizCatalog.FirstWithId | src/app/services/QuizzService/quiz.service.ts:216-222 | the document found has the id; none iff absent |
| QuizCatalog.QuizById | src/app/services/QuizzService/quiz.service.ts:212-229 | succeeds iff the read succeeds and a document has the id, returning that document; a missing document fails with "Error al cargar el quiz: Quiz no encontrado", a failed read with "Error al cargar el quiz: " + its message |
| QuizCatalog.ModifyQuizGuard | src/app/services/QuizzService/quiz.service.ts:232-295 | an update or delete happens iff a user is signed in, the quiz loads and the user created it; the sign-in and permission failures carry their messages |
| Ranking.Select | src/app/services/ranking/ranking.service.ts:99-104 | a where-filter keeps exactly the matching documents, with their multiplicities |
| Ranking.SortDesc | src/app/services/ranking/ranking.service.ts:102 | ordering by points descending is a sorted permutation |
| Ranking.InsertDesc | src/app/services/ranking/ranking.service.ts:102 | inserting adds exactly the one element to the list's contents |
| Ranking.InsertDescSorted | src/app/services/ranking/ranking.service.ts:102 | inserting into a list sorted by decreasing points keeps it sorted |
| Ranking.FirstIndexOfUser | src/app/services/ranking/ranking.service.ts:142-145 | the index of the first attempt by the user, none iff the user is absent |
| Ranking.TopAttemptsAreBest | src/app/services/ranking/ranking.service.ts:99-120 | the top list has only that quiz's attempts, sorted by non-increasing points, min(limit, count) of them, and no left-out attempt beats a kept one |
| Ranking.UserBestIsMaximum | src/app/services/ranking/ranking.service.ts:150-170 | a best attempt exists iff the user has an attempt on the quiz, and no attempt of theirs has more points |
| Ranking.RankOutsideTopBounds | src/app/services/ranking/ranking.service.ts:185-193 | 1 <= better-count + 1 <= number of the quiz's attempts |
| Ranking.RankInTop | src/app/services/ranking/ranking.service.ts:142-147 | a user in the top list gets their first entry and rank = its index + 1, so 1 <= rank <= |top| |
| Ranking.RankOutsideTop | src/app/services/ranking/ranking.service.ts:149-197 | a user outside the top list, on an entry whose user fields are unset: without attempts on the quiz the entry is unchanged; with attempts the best is their maximum, and the rank is 1 + the number of strictly better attempts, or unset when the count query fails |
| Ranking.LoadRankingFindsUser | src/app/services/ranking/ranking.service.ts:60-197 | a signed-in user with an attempt on a quiz whose ranking loads gets a best attempt of their own, and a rank of at least 1 when the count query is answered |
| Ranking.ResolveUserKeepsEntry | src/app/services/ranking/ranking.service.ts:140-197 | resolving the user sets only the two user fields |
| Ranking.LoadRankingOutcomes | src/app/services/ranking/ranking.service.ts:60-137 | a success is cached, a missing or unreadable quiz gives the "Quiz desconocido" entry and a failed top query the bare entry, neither cached; no user means no best and no rank |
| Ranking.DistinctQuizIds | src/app/services/ranking/ranking.service.ts:264 | each quiz id of the attempts once, and no other |
| Ranking.TitleMap | src/app/services/ranking/ranking.service.ts:267-277 | one title per distinct id: the stored one, or "Quiz desconocido" |
| Ranking.HistoryItemsMatchAttempts | src/app/services/ranking/ranking.service.ts:276-290 | one item per attempt in order, with its figures and its quiz title or "Quiz desconocido" |
| Ranking.RankingService.constructor | src/app/services/ranking/ranking.service.ts:47-51 | empty cache, empty history |
| Ranking.RankingService.LoadRankingData | src/app/services/ranking/ranking.service.ts:98-137 | for a positive limit (Firestore refuses any other when the query is built) fills the top list, resolves a signed-in user and caches the entry under its quiz id; a failed top query returns the entry unchanged and caches nothing |
| Ranking.RankingService.GetQuizRanking | src/app/services/ranking/ranking.service.ts:60-95 | a hit returns the cached entry and changes nothing; a miss returns the loaded entry and caches exactly the successes |
| Ranking.RankingService.ClearCache | src/app/services/ranking/ranking.service.ts:307-309 | the cache is empty, so every later request is a miss |
| Ranking.RankingService.GetUserQuizHistory | src/app/services/ranking/ranking.service.ts:231-304 | always returns []; signed out or a failed query publishes []; otherwise the history items, unless a title lookup fails |
| Ranking.RepeatedRequestHitsCache | src/app/services/ranking/ranking.service.ts:62-64 | after a cached load, a second request returns the same entry whatever the store now holds |
| NewQuiz.RemoveAt | src/app/newquizz/newquizz.page.ts:133 | splice(index, 1) removes exactly the element at the normalised index, or nothing past the end |
| NewQuiz.NonEmptyCells | src/app/newquizz/newquizz.page.ts:253-257 | the non-empty cells, in order, and no others |
| NewQuiz.RowQuestionShape | src/app/newquizz/newquizz.page.ts:245-262 | a row gives a question iff it has >= 3 cells and >= 2 non-empty options; text row[0], correctOption row[1] verbatim, well formed; correctOption is an option iff row[1] is non-empty |
| NewQuiz.SheetQuestionsWellFormed | src/app/newquizz/newquizz.page.ts:241-264 | every parsed question has >= 2 non-empty options; at most one per row |
| NewQuiz.ParseSheet | src/app/newquizz/newquizz.page.ts:239-264 | the nested loops build exactly the questions of the rows, in order |
| NewQuiz.NewQuizPage.constructor | src/app/newquizz/newquizz.page.ts:71-81 | empty form, blank question with two empty options |
| NewQuiz.NewQuizPage.ResetForm | src/app/newquizz/newquizz.page.ts:96-106 | title, description, list and file cleared, blank question |
| NewQuiz.NewQuizPage.UpdateQuestionText | src/app/newquizz/newquizz.page.ts:109-111 | only the text of the question under edit changes |
| NewQuiz.NewQuizPage.UpdateOptionText | src/app/newquizz/newquizz.page.ts:113-120 | options[i] is set; only i = 0 also sets correctOption |
| NewQuiz.NewQuizPage.AddOption | src/app/newquizz/newquizz.page.ts:123-125 | one empty option is appended |
| NewQuiz.NewQuizPage.RemoveOption | src/app/newquizz/newquizz.page.ts:127-135 | a no-op with <= 2 options; else one option removed, and removing index 0 makes the old options[1] correct |
| NewQuiz.NewQuizPage.AddQuestion | src/app/newquizz/newquizz.page.ts:137-168 | refuses empty text or an empty option with its message; otherwise appends one copy with correctOption = options[0] and starts a blank question |
| NewQuiz.NewQuizPage.RemoveQuestion | src/app/newquizz/newquizz.page.ts:170-172 | the list loses the spliced question only |
| NewQuiz.NewQuizPage.ProcessSheetData | src/app/newquizz/newquizz.page.ts:233-273 | fewer than 2 rows or no valid row leaves the list unchanged with its message; otherwise the parsed list replaces it and the count is reported |
| NewQuiz.NewQuizPage.SaveQuiz | src/app/newquizz/newquizz.page.ts:276-322 | no title or no question refuses with nothing changed; a saved quiz resets the form and redirects to /myquizz; a failure keeps the form and reports the message |
| Home.FormatTimeRoundTrip | src/app/home/home.page.ts:129-133 | below 100 minutes the text is MM:SS with two digits each, reading back as t / 60 and t % 60 |
| Strings.PadStart2 | src/app/home/home.page.ts:132 | pads to two characters with leading '0', longer strings kept |
| Strings.JsRem | src/app/home/home.page.ts:131 | JavaScript's %: Dafny's for non-negative dividends; otherwise the remainder of the quotient rounded toward zero (a = b × trunc(a / b) + r), with the dividend's sign and absolute value below b |
| Home.TimerColor | src/app/home/home.page.ts:136-140 | success iff > 20, warning iff in 11..20, danger iff <= 10 |
| Home.ScoreColor | src/app/home/home.page.ts:261-265 | green iff >= 80, orange iff in [60, 80), red iff < 60 |
| Home.AllAnsweredMeansEveryIndex | src/app/home/home.page.ts:208-211 | with keys within the question range, the count check is true iff every question has a selection |
| Home.AnswersReview | src/app/home/home.page.ts:213-249 | one review entry per question |
| Home.ReviewAgreesWithScorer | src/app/home/home.page.ts:216-248 | each entry is graded like the engine: correct iff the first option, points = time iff correct with time > 0 |
| Home.ReviewWithoutPlaceholderEarnsNothing | src/app/home/home.page.ts:224-232 | with no ranking attempt by the placeholder id every entry shows 0 s and 0 points |
| Home.HomePage.constructor | src/app/home/home.page.ts:36-68 | the page starts with no quiz, question 0 of 0, no selections, not completed, score 0, 30 s on the clock, and empty ranking and review lists |
| Home.HomePage.SelectOption | src/app/home/home.page.ts:273-299 | only the current index changes in the local map; the engine records the option with the page's countdown |
| Home.HomePage.OnAnswerSelected | src/app/home/home.page.ts:166-184 | an empty value changes nothing; otherwise as SelectOption |
| Home.HomePage.PrepareAnswersReview | src/app/home/home.page.ts:213-249 | with a quiz the review is rebuilt, otherwise kept |
| Home.HomePage.ApplySnapshot | src/app/home/home.page.ts:93-119 | the page copies the engine's state and rebuilds the review once completed |
| MyQuizzes.Matching | src/app/myquizz/myquizz.page.ts:160-164 | keeps exactly the quizzes whose lowercased title or description contains the search |
| MyQuizzes.MatchingDistributes | src/app/myquizz/myquizz.page.ts:161-164 | the filter keeps order: filter(a + b) = filter(a) + filter(b) |
| MyQuizzes.FilterByTermMeaning | src/app/myquizz/myquizz.page.ts:154-165 | an empty term shows every quiz, otherwise exactly the matches; the term's case does not matter |
| MyQuizzes.WithoutId | src/app/myquizz/myquizz.page.ts:250-251 | keeps exactly the quizzes with another id |
| MyQuizzes.WithoutIdDistributes | src/app/myquizz/myquizz.page.ts:250-251 | removal keeps order: remove(a + b) = remove(a) + remove(b) |
| MyQuizzes.WithoutIdIdempotent | src/app/myquizz/myquizz.page.ts:250-251 | no kept quiz has the id, and removing twice is removing once |
| MyQuizzes.MyQuizzesPage.constructor | src/app/myquizz/myquizz.page.ts:122-124 | empty lists and term |
| MyQuizzes.MyQuizzesPage.LoadQuizzes | src/app/myquizz/myquizz.page.ts:126-151 | both lists become the fetched list, or stay with the error message; loading ends |
| MyQuizzes.MyQuizzesPage.DoRefresh | src/app/myquizz/myquizz.page.ts:168-181 | as loading, with the refresh message |
| MyQuizzes.MyQuizzesPage.FilterQuizzes | src/app/myquizz/myquizz.page.ts:154-165 | the shown list is the filter of the full list by the term |
| MyQuizzes.MyQuizzesPage.DeleteQuiz | src/app/myquizz/myquizz.page.ts:236-259 | on success the id leaves both lists, order kept; on failure both stay and the message is reported |
| Auth.HandleAuthErrorTable | src/app/services/auth.service.ts:77-118 | each listed code keeps itself with its fixed message; any other is passed through (or auth/unknown-error) with its message (or "Authentication failed"); the message is never empty |
| Auth.AuthService.constructor | src/app/services/auth.service.ts:47-51 | no user, no stored credentials |
| Auth.AuthService.StoreTemporaryCredentials | src/app/services/auth.service.ts:65-67 | the slot holds the pair |
| Auth.AuthService.ClearTemporaryCredentials | src/app/services/auth.service.ts:73-75 | the slot is empty |
| Auth.CredentialSlotRoundTrip | src/app/services/auth.service.ts:65-75 | get after store returns the pair; get after clear returns nothing |
| Guardian.CanActivateTable | src/app/services/guardian/guardian.service.ts:17-50 | allowed iff signed in and no role required or the role matches; refused means redirected: /login when signed out or the lookup fails, /home when the role differs or is missing |
| Historial.RankColor | src/app/historial/historial.page.ts:100-105 | 1 warning, 2 secondary, 3 tertiary, medium iff any other rank |
| Historial.PadZeroIsPadStart | src/app/historial/historial.page.ts:127-129 | for n >= 0 padZero is padStart(2, '0'); for negative n it prints "0-" before the digits |
| Historial.PadZeroTwoDigits | src/app/historial/historial.page.ts:127-129 | below 100, two digits that read back as n |
| Historial.FormatDate | src/app/historial/historial.page.ts:107-125 | the label is empty iff the date is missing |

`AuthService.IsAuthenticated` is, by definition, "a user is in the slot" (src/app/services/auth.service.ts:236-242).

## Left out

- Firestore: queries, document reads, `addDoc`, `updateDoc` and `deleteDoc`. Their results are parameters, so snapshot mapping and `completedAt`/`toDate` conversion are absent. `Attempt` has no `completedAt`, and the history is taken in the order the query returns it.
- RxJS: observables, subjects and subscription order are absent. Results are returned values and published values are fields. `HomePage.ApplySnapshot` is the state subscription, and the model does not say when it runs.
- Real time: `setInterval`/`clearInterval` are `Tick` and `timerActive`. `new Date()` is absent. `FormatDate` takes the current time as a parameter.
- Randomness: draws and permutations are inputs. The sort with a random comparator is not a uniform shuffle, and nothing is claimed about how any draw is distributed.
- QuizCatalog.GenerateUniqueCode: the recursion after ten failed regenerations is unbounded. It is modelled with at most `maxRounds` rounds, each with a fresh length, and it may return no code.
- Floating point: the score is an exact real, so JavaScript's float division is not modelled.
- Ranking.LoadRanking: the fire-and-forget `.then` callbacks that later change an entry already returned and cached (src/app/services/ranking/ranking.service.ts:159-196) are modelled as one synchronous step, run before caching.
- Ranking.RankingService: the entry is a value, so the source's aliasing between the returned object and the cached one is not modelled.
- Ranking.SortDesc: the order of attempts with equal points is unspecified in the store. The model keeps store order, and the properties proved do not depend on it.
- Ranking.LoadRanking: a limit <= 0 is treated like a failed lookup. Firestore refuses such a limit when the query is built, inside the pipeline. An empty quiz id, which Firestore refuses synchronously, is not modelled.
- getAllQuizRankings: it returns a snapshot of the cache before its subscriptions resolve, which is concurrency.
- getQuizRanking and getUserQuizAttempts of the session engine: they are pure Firestore queries (the same top query with limit 20, and a per-user query).
- createQuiz, getMyQuizzes and getAllQuizzes: they are store I/O. Their results enter the pages as parameters.
- Credential slot: sign-in, registration, logout and the role lookup are Firebase calls. The role lookup is a parameter of `Guardian.CanActivate`.
- Files: `FileReader`, XLSX and Papa are absent. `ProcessSheetData` takes the parsed grid of strings, so a number cell is a string and a 0 cell is not falsy.
- Loading indicators, toasts, alerts, modals and icons are absent. Toasts are returned messages, and navigation is a returned route.
- The edit-quiz modal, quiz-details modal, profile page and routes are not part of the core.
- The my-quizzes `formatDate` is absent because it relies on `toLocaleString`.
- Strings.ToLower: it lowercases ASCII letters only. JavaScript's `toLowerCase` also lowercases non-ASCII letters.
- QuizCatalog.RandomizeQuizOptions: the deep copy through JSON is a fresh value. Dates turning into strings in that copy are not modelled.
- NewQuiz.NewQuizPage.UpdateOptionText: it requires an existing option index. An index past the end would create array holes, and the template never passes one.
