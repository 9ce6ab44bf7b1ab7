# Quiz application: session and list logic in Dafny

This project models the client-side logic of a single-page quiz application.
Users upload study documents, have multiple-choice quizzes generated from them,
take those quizzes, and browse their subjects and quizzes. The backend stores the
data and computes aggregate statistics. The model covers the two parts of the
client that follow precise rules.

- **The quiz-taking session** (`QuizView`, class `QuizView.Session`). The page
  keeps the loaded questions, the current question index, the selected answer,
  the score, the log of wrong answers and the start time. `HandleAnswer` scores
  one answer by exact string equality: a correct answer bumps the score, a wrong
  one appends `{question_id, selected_answer}` to the log. `HandleNext` does
  nothing until an answer is selected. Before the last question it moves on.
  Past the last question it builds the attempt row: score, number of questions,
  seconds elapsed and the log. It then asks the backend to insert the row and,
  only if that succeeded, to update the user's statistics. The result screen is
  shown whatever those calls returned. The clock reading and the outcome of each
  backend call are parameters.
- **The list pages** (`QuizList`, `Dashboard`, `SubjectDetail`, `SubjectList`,
  with the shared `SubjectSearch`, `Text` and `Sequences`). These cover:
  - the case-insensitive substring search over titles, names and descriptions;
  - the quiz list's subject filter;
  - the dashboard's merge of its six built-in subjects with the user's own;
  - the icon and colour lookups with their fallbacks;
  - the level badge defaults;
  - the add-subject form;
  - the minutes display.

  Each page is a class whose methods write the page's state. The filters are
  functions on sequences.

A ghost log `submissions` records every call of `HandleAnswer`. `Session.Valid()`
ties the score and the wrong-answer log to that log. `AnsweredInOrder()` is the
discipline of one answer per question, taken in order. The code does not enforce
it, so the model assumes it only as a hypothesis. Under it:

- `score + |incorrectAnswers|` equals the number of questions answered;
- the finished attempt satisfies `score + |incorrect_answers| == total_questions`.

The method `QuizView.MixedAnswersSession` drives a three-question session
(right, wrong, right) using nothing but these contracts. It concludes that the
attempt has score 2 out of 3 and logs only the second question. With a failing
statistics call, it also concludes that an error is reported and the result is
still shown.

Each page class keeps its shown list an order-preserving sub-list of the loaded
list. On the dashboard, every subject has a known icon and a known colour.

## Behaviour followed from the code

- A stricter session would refuse a second answer to the same question.
  `handleAnswer` (src/pages/QuizView.tsx:64-80) has no such guard, and
  `HandleAnswer` reproduces that: every call counts once more. The
  per-question invariants are therefore stated under `AnsweredInOrder()`.
- A stricter session would refuse a quiz without questions. The page stores
  whatever list it fetched, even an empty one (src/pages/QuizView.tsx:51), and
  the `Session` constructor accepts an empty list.
- The quiz record's declared type (src/types/index.ts:14) makes the
  description a string. Quizzes the app creates have none
  (src/pages/CreateQuiz.tsx:53-57), and the quiz list treats it as optional
  (src/pages/QuizList.tsx:13, :77). The model makes it optional. The subject
  page's search reads it unguarded (src/pages/SubjectDetail.tsx:76): on a quiz
  whose title does not match and that has no description it throws before
  `setFilteredQuizzes`, so `SubjectDetail.Page.HandleSearch` leaves the shown
  list as it was.
  `HandleAnswer` requires the current index to be in range, because the code
  indexes `questions[currentQuestion]` unguarded (src/pages/QuizView.tsx:66).

## Model

| member | source | states |
|---|---|---|
| `Numbers.RoundedQuotient` | src/pages/QuizView.tsx:91 | `Math.round(n / d)` for a positive divisor: the integer nearest to n/d, a half rounded up |
| `Sequences.Filter` | src/pages/SubjectList.tsx:38-41 | the result is an order-preserving sub-list of the input and holds exactly the input's elements that pass the predicate |
| `Sequences.FilterCounts` | src/pages/SubjectList.tsx:38-41 | every copy of a passing element is kept and no copy of a failing one |
| `Sequences.FilterKeepsAll` | src/pages/SubjectList.tsx:38-41 | a filter every element passes returns its input unchanged |
| `Sequences.FilterIdempotent` | src/pages/SubjectDetail.tsx:74-77 | a property of the filter itself (the pages always filter the full loaded list, never a previous result): filtering a result again by the same predicate changes nothing |
| `Text.Lower` | src/pages/SubjectList.tsx:39-40 | `toLowerCase` on ASCII only: same length, each of A-Z becomes its lower-case letter, every other character is kept |
| `Text.Matches` | src/pages/SubjectList.tsx:39-40 | `text.toLowerCase().includes(query.toLowerCase())`: the lower-cased query occurs at some position of the lower-cased text; the empty query always matches |
| `Text.Contains` | src/pages/SubjectList.tsx:39-40 | `includes`: the empty string is included in every text, and an included part is no longer than the text |
| `Text.ContainsAt` | src/pages/SubjectList.tsx:39-40 | `includes` holds iff the part is a prefix of the text from some position on |
| `Text.EmptyQueryMatches` | src/pages/Dashboard.tsx:141-144 | the empty query matches every text, so an empty search keeps everything |
| `Text.MatchesIgnoresQueryCase` | src/pages/SubjectList.tsx:39-40 | matching ignores the case of the query: lower-casing it first changes nothing |
| `QuizView.IsCorrect` | src/pages/QuizView.tsx:66 | an answer is correct exactly when it is the same string as the question's expected answer |
| `QuizView.ExactMatchOnly` | src/pages/QuizView.tsx:66 | correctness is exact string equality: "Paris " and "paris" are wrong when "Paris" is expected |
| `QuizView.ElapsedSeconds` | src/pages/QuizView.tsx:91 | `Math.round(ms / 1000)`: the result is the whole number of seconds nearest to the elapsed milliseconds, halves rounded up |
| `QuizView.TallyCountsEachSubmission` | src/pages/QuizView.tsx:64-80 | every answer given is counted exactly once, in the score or in the wrong-answer log |
| `QuizView.AllCorrectTally` | src/pages/QuizView.tsx:64-80 | when every answer is correct the score is the number of answers and the log is empty |
| `QuizView.LogEntriesAreWrongAnswers` | src/pages/QuizView.tsx:68-73 | each log entry carries the id of a question answered wrongly and the answer given to it |
| `QuizView.Session.constructor` | src/pages/QuizView.tsx:17-29 | a session starts on question 0 with nothing selected, score 0, an empty log and no result shown |
| `QuizView.Session.HandleAnswer` | src/pages/QuizView.tsx:64-80 | selects the answer and shows the explanation; a correct answer adds 1 to the score and leaves the log alone; a wrong one leaves the score and appends exactly one entry at the end; `score + |log|` grows by exactly 1; under one answer per question it equals the current index + 1 |
| `QuizView.Session.HandleNext` | src/pages/QuizView.tsx:82-127 | with no answer selected nothing changes; before the last question it advances by one, clears the selection and keeps score and log; past the last it returns the attempt (score, question count, rounded seconds, full log in order), issues the statistics call only if the insert succeeded, reports an error if either failed, and shows the result in every case |
| `QuizList.ByText` | src/pages/QuizList.tsx:75-78 | keeps, in order, exactly the quizzes whose title matches or whose present, non-empty description matches |
| `QuizList.BySubject` | src/pages/QuizList.tsx:82 | keeps, in order, exactly the quizzes whose subject is the given one |
| `QuizList.SearchResult` | src/pages/QuizList.tsx:71-86 | an order-preserving sub-list of the quizzes holding exactly those that pass the text filter (skipped for an empty query) and the subject filter (skipped for "all"); every copy of a kept quiz is kept and no copy of a dropped one; with neither filter, the whole list |
| `QuizList.DifficultyLabel` | src/pages/QuizList.tsx:99-106 | 1, 2 and 3 give Débutant, Intermédiaire and Avancé; every other level gives Non défini |
| `QuizList.DifficultyColor` | src/pages/QuizList.tsx:108-115 | 1, 2 and 3 give the green, yellow and red classes; every other level gives the gray class |
| `QuizList.LabelAndColorAgree` | src/pages/QuizList.tsx:99-115 | a level gets the default label iff it gets the gray class |
| `QuizList.Page.constructor` | src/pages/QuizList.tsx:25-29 | empty lists, subject "all", loading |
| `QuizList.Page.Load` | src/pages/QuizList.tsx:32-69 | without a user nothing changes; both lists are set to the fetched quizzes only when both calls succeed; loading ends |
| `QuizList.Page.HandleSearch` | src/pages/QuizList.tsx:71-86 | the shown list becomes SearchResult of the loaded quizzes, the query and the selected subject; the loaded quizzes are not touched |
| `QuizList.Page.HandleSubjectChange` | src/pages/QuizList.tsx:88-97 | records the subject and shows SearchResult with an empty query, so any text query is dropped and "all" shows the whole list |
| `SubjectSearch.FilterSubjects` | src/pages/Dashboard.tsx:141-144 | keeps, in order, exactly the subjects whose lower-cased name or description includes the lower-cased query |
| `SubjectSearch.EmptyQueryKeepsAllSubjects` | src/pages/SubjectList.tsx:37-41 | with an empty query every subject is kept, in its place |
| `Dashboard.IconFor` | src/pages/Dashboard.tsx:154-160 | a registered name gives the icon of that name; any other name gives BookOpen |
| `Dashboard.IconRoundTrip` | src/pages/Dashboard.tsx:154-160 | looking an icon up by its own name gives it back |
| `Dashboard.ColorClass` | src/pages/Dashboard.tsx:162-173 | a known colour gives its table entry; an unknown or absent colour gives the gray class |
| `Dashboard.StyledNeedsNoFallback` | src/pages/Dashboard.tsx:322-324 | a subject with a known icon and colour is drawn with its own, never with a fallback |
| `Dashboard.Customize` | src/pages/Dashboard.tsx:95-99 | a user's subject keeps its id, name, description and owner and becomes gray with the BookOpen icon |
| `Dashboard.MergeSubjects` | src/pages/Dashboard.tsx:93-100 | the six defaults in their fixed order, then each custom subject in fetched order, customised; every subject has a known icon and colour |
| `Dashboard.LevelBadge` | src/pages/Dashboard.tsx:190-194 | without statistics, or with a level of 0, the level is 1; otherwise it is the stored level; xp defaults to 0; the threshold is level × 1000, which is never 0 |
| `Dashboard.Page.constructor` | src/pages/Dashboard.tsx:62-67 | no stats, no subjects, empty query and form, form closed, loading |
| `Dashboard.Page.Load` | src/pages/Dashboard.tsx:69-111 | without a user nothing changes; stats are stored when fetched; the subjects become MergeSubjects of the fetched ones only when both calls succeed; every subject stays drawable without a fallback |
| `Dashboard.Page.HandleSearch` | src/pages/Dashboard.tsx:113-115 | records the query |
| `Dashboard.Page.FilteredSubjects` | src/pages/Dashboard.tsx:141-144 | an order-preserving sub-list of the subjects holding exactly the matching ones, each with a known icon and colour |
| `Dashboard.Page.HandleAddSubject` | src/pages/Dashboard.tsx:117-139 | without a user or with an empty name nothing is sent and nothing changes; otherwise the form is sent and, on success, the returned row is appended at the end in gray with BookOpen, earlier subjects unchanged, and the form is cleared and closed; on failure nothing changes |
| `SubjectDetail.SearchQuizzes` | src/pages/SubjectDetail.tsx:73-79 | fails exactly when some quiz has a title that does not match and no description (its `toLowerCase` throws); otherwise keeps, in order, exactly the quizzes whose lower-cased title or description includes the lower-cased query |
| `SubjectDetail.EmptyQueryKeepsAllQuizzes` | src/pages/SubjectDetail.tsx:74-77 | with an empty query the filter never throws and every quiz is kept, in its place |
| `SubjectDetail.MissingDescriptionThrows` | src/pages/SubjectDetail.tsx:74-77 | searching "x" over a quiz titled "Quiz - a.pdf" (the title quiz creation gives, src/pages/CreateQuiz.tsx:53-57) with no description throws |
| `SubjectDetail.DescribedQuizzesNeverThrow` | src/pages/SubjectDetail.tsx:74-77 | when every quiz has a description, the search never throws |
| `SubjectDetail.MinutesShown` | src/pages/SubjectDetail.tsx:130 | `Math.round(timeSpent / 60)`: the whole number of minutes nearest to the seconds, halves rounded up |
| `SubjectDetail.Page.constructor` | src/pages/SubjectDetail.tsx:12-21 | no subject, empty lists, zero statistics, loading |
| `SubjectDetail.Page.Load` | src/pages/SubjectDetail.tsx:23-71 | without a subject id nothing changes; subject, then both quiz lists (equal), then statistics (zeros when none came back) are stored as each call succeeds, and the first failure stops the rest |
| `SubjectDetail.Page.HandleSearch` | src/pages/SubjectDetail.tsx:73-79 | the shown list becomes SearchQuizzes of the full loaded list, so the latest query alone decides it; when the filter throws, the shown list keeps its old value |
| `SubjectList.Page.constructor` | src/pages/SubjectList.tsx:10-12 | empty lists, loading |
| `SubjectList.Page.Load` | src/pages/SubjectList.tsx:14-35 | without a user nothing changes; on success both lists are the fetched subjects; on failure they keep their values |
| `SubjectList.Page.HandleSearch` | src/pages/SubjectList.tsx:37-43 | the shown list becomes FilterSubjects of the full loaded list, so the latest query alone decides it; the loaded list is not touched |

## Left out

- Backend calls (queries, inserts, the `update_user_stats_after_quiz` procedure) are network I/O. Each call's outcome is a parameter: a `Reply` holding the returned data or a failure, or a success flag. A `null` data field read as `[]` by the code is passed as the empty sequence.
- Loading a quiz and its questions in the quiz page (src/pages/QuizView.tsx:31-62), including the redirect on failure, is not modelled. `QuizView.Session` starts from the loaded questions. The loaded `quiz` record itself is only displayed.
- The quiz page's markup is not part of the source file (src/pages/QuizView.tsx:129-130). Whether its buttons stop a second answer is therefore unknown, and the model does not assume it.
- `Date.now()` is replaced by integer clock readings passed in, the start time fixed when the session is created.
- `toLowerCase` is modelled on ASCII letters only. Unicode case mapping (for example É to é) is not modelled.
- The icon and colour lookups index plain JavaScript objects. Keys that name `Object.prototype` members (such as `constructor`) are not modelled; the model treats them as unknown names.
- Subject descriptions are always present in the model, as the declared type says. The dashboard and subject list searches read them unguarded (src/pages/Dashboard.tsx:143, src/pages/SubjectList.tsx:40) and would throw on a missing one, but the app always writes one (src/pages/Dashboard.tsx:125).
- Numbers are integers: difficulty levels, times and statistics. Non-integer values and `NaN` are not modelled.
- Floating-point percentages are not modelled: the level-badge progress, the progress bar and the per-attempt score percentage (src/pages/Dashboard.tsx:356 and :385).
- Display-only defaults of the dashboard's statistic cards (src/pages/Dashboard.tsx:213, :230, :247) are not modelled. So is the quiz list's difficulty badge visibility (src/pages/QuizList.tsx:198).
- Editing, opening and closing the add-subject form (src/pages/Dashboard.tsx:261, :285, :297, :304) are not modelled. Only `handleAddSubject` is.
- Each handler is one atomic step. React's batching of state updates is not modelled, nor its stale closures.
- Not part of this model: quiz creation and upload (src/pages/CreateQuiz.tsx), the language-model call (src/lib/openai.ts), authentication (src/contexts/AuthContext.tsx, src/components/Navbar.tsx), routing and static pages (src/App.tsx, src/pages/Home.tsx), and the presentational components under src/components.
