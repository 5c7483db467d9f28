# Quiz session engine of Virtual Vana

Virtual Vana is an educational web application about medicinal plants. Its
quiz page (`QuizClient`) runs a quiz entirely in the browser:

- it shuffles the questions;
- it shows one question at a time, with that question's options shuffled;
- the user picks an answer and submits it, sees whether it was right, and moves on;
- on the last question the quiz finishes, and a `{score, total, date}` record
  is appended to the `quizHistory` list kept in local storage.

The project models that engine in Dafny in four modules:

- `Shuffling` (`shuffling.dfy`): the `[...xs].sort(() => Math.random() - 0.5)`
  idiom. It is modelled as a comparison sort on a copied array, where the
  k-th comparator answer comes from the k-th random draw (a parameter). It is
  proved to return a permutation of its input.
- `QuizSession` (`quiz_session.dfy`): the component state as a `Session`
  value and one function per handler (`Start`, `Select`, `Submit`, `Advance`,
  `Restart`). It also holds the invariant `Inv` that every handler keeps, and
  the events the rendered page offers (`Enabled`, `Step`).
- `QuizComponent` (`quiz_client.dfy`): the component as the class
  `QuizClient`. Its fields are the state hooks plus the stored history, and
  its methods are the handlers. Each method updates fields step by step and
  states its effect as the matching `QuizSession` function of the old state.
- `QuizRuns` (`quiz_runs.dfy`): whole sequences of user events. It proves
  that the invariant and the history's append-only shape hold after any run.
  It also works through a three-question run.

Each handler reads the values of the render in which it was clicked, because
React applies state updates only after the handler returns.
`handleNextQuestion` therefore records the answer and score held *before* its
own `setSelectedAnswer(null)`. The model keeps exactly that.

The history entry's score is computed as `score + 1` when the held answer is
correct (`QuizClient.tsx` line 62). But submitting that answer already raised
`score` (line 46), and the finished screen shows plain `score` (line 82). So a
quiz whose last answer is correct stores a score one higher than it shows. A
one-question quiz answered correctly stores 2 out of 1. The model keeps this
behaviour as written and proves it (`LastCorrectAnswerCountedTwice`,
`CorrectWrongCorrect`, `RecordedScoreCanExceedTotal`).

Further facts about `QuizClient.tsx` that the model states:

- A correct, wrong, correct run of three questions shows 2 but stores
  `{score: 3, total: 3}` (lines 46, 62, 82).
- `onValueChange={setSelectedAnswer}` (line 133) does not check the option it
  receives; only the radio group's rendered items limit it. So
  `SelectAnswer` requires the option to be one of the displayed ones.
- The comment at line 61 says `score` "might not be updated yet" when the
  quiz finishes. Submitting and finishing are separate clicks with a render
  between them, so `score` has always been updated by then, and the `+ 1` of
  line 62 counts the last answer a second time.
- The submit button is disabled while the selection is falsy (line 172), and
  the handler also returns early in that case (line 43). The model's events
  let that click through as a no-op, which changes nothing.

Inputs the browser supplies are parameters:

- the random draws (`nat -> real`);
- the completion timestamp (an opaque string);
- whether reading and writing local storage succeeded (`saved`). A failure
  there is swallowed, and the quiz finishes anyway.

## Model

| member | source | states |
|---|---|---|
| `Shuffling.ComparatorPositive` | src/components/quizzes/QuizClient.tsx:27 | the comparator `() => Math.random() - 0.5` asks the sort to swap exactly when its draw exceeds one half |
| `QuizSession.CurrentOf` | src/components/quizzes/QuizClient.tsx:35 | the current question is defined exactly when the index lies within the shuffled list, and then it is the question at that index |
| `QuizSession.HasCurrent` | src/components/quizzes/QuizClient.tsx:114-116 | the page shows a question, rather than "Loading quiz...", exactly when the current question is defined |
| `Shuffling.Shuffle` | src/components/quizzes/QuizClient.tsx:27 | sorting a copy with the random comparator returns a permutation of the input (same multiset, same length), whatever the random draws are |
| `QuizComponent.QuizClient.ShuffleQuestions` | src/components/quizzes/QuizClient.tsx:26-28 | the shuffled question list is a permutation of the questions given |
| `QuizComponent.QuizClient.RefreshOptions` | src/components/quizzes/QuizClient.tsx:35-39 | the displayed options keep their order while the current question is unchanged; without a current question they are empty; otherwise they are a permutation of the new current question's options |
| `QuizSession.Start` | src/components/quizzes/QuizClient.tsx:19-32 | after mounting, the questions given are kept, the order is the shuffle taken, index 0, score 0, no selection, result hidden, not finished, stored history untouched, and the session invariant holds |
| `QuizSession.Redisplay` | src/components/quizzes/QuizClient.tsx:36-39 | while the current question is unchanged the displayed order is kept as it was; without a current question the options are empty; on a changed question they are the new shuffle; and they are a permutation of the current question's options whenever the kept or new shuffle is |
| `QuizComponent.QuizClient.constructor` | src/components/quizzes/QuizClient.tsx:18-39 | the mounted component is `Start` of its questions: the order is a permutation of them and the first question's options are displayed as a permutation of its options |
| `QuizSession.Select` | src/components/quizzes/QuizClient.tsx:133 | picking an option makes it the selection, truthy exactly when it is non-empty, and changes nothing else |
| `QuizComponent.QuizClient.SelectAnswer` | src/components/quizzes/QuizClient.tsx:131-134 | while the result is hidden, picking a displayed option sets the selection and changes nothing else; the invariant is kept |
| `QuizSession.Falsy` | src/components/quizzes/QuizClient.tsx:43 | a selection counts as given exactly when it is present and non-empty (`null` and `""` are falsy) |
| `QuizSession.Submit` | src/components/quizzes/QuizClient.tsx:42-48 | with a falsy selection (null or "") nothing changes; otherwise the result is shown, and the score rises by exactly 1 iff the selection equals the correct answer and is unchanged otherwise |
| `QuizComponent.QuizClient.HandleAnswerSubmit` | src/components/quizzes/QuizClient.tsx:42-48 | the new state is `Submit` of the old one, and the invariant is kept |
| `QuizSession.RecordedScore` | src/components/quizzes/QuizClient.tsx:62 | the stored score is the current `score` or one more, and one more exactly when the held answer equals the current question's correct answer |
| `QuizSession.Advance` | src/components/quizzes/QuizClient.tsx:50-70 | clears the selection and the result, keeps the score; before the last question it moves the index up by exactly 1 and leaves history and finished alone; on the last it finishes without moving the index and, if storage succeeded, appends exactly one entry (recorded score, question count, timestamp) with earlier entries unchanged, else leaves the history as it was |
| `QuizComponent.QuizClient.HandleNextQuestion` | src/components/quizzes/QuizClient.tsx:50-70 | the new state is `Advance` of the old one, computed from the answer and score held before the handler's own updates; the invariant is kept |
| `QuizSession.Restart` | src/components/quizzes/QuizClient.tsx:72-79 | index 0, no selection, score 0, result hidden, not finished, questions in the new order, history kept |
| `QuizSession.RestartIsStart` | src/components/quizzes/QuizClient.tsx:72-79 | a restart from the finished screen is exactly a fresh start on the same questions and stored history; it shows the new shuffle of the first question's options unless that question was already showing, when the memo keeps the old order |
| `QuizComponent.QuizClient.RestartQuiz` | src/components/quizzes/QuizClient.tsx:72-79 | the new state is `Restart` of the old one with a fresh permutation of the questions; the invariant is kept, so the options shown are again a permutation of the first question's |
| `QuizSession.Enabled` | src/components/quizzes/QuizClient.tsx:131-175 | choosing and submitting are offered only on a shown question whose result is hidden (choosing only a displayed option), next only once the result is shown, play-again only on the finished screen |
| `QuizSession.Step` | src/components/quizzes/QuizClient.tsx:42-79 | an offered event keeps the questions given, keeps every stored entry in place, and choosing or submitting leaves the index and history alone |
| `QuizSession.StepPreservesInv` | src/components/quizzes/QuizClient.tsx:131-175 | every event the page offers (plus the disabled submit, as a no-op) keeps the invariant: orders are permutations, the index stays on a question, the score is between 0 and the number of submitted answers, a finished quiz sits on its last question, a shown result has a non-empty answer, and a selection is a displayed option |
| `QuizSession.StepScore` | src/components/quizzes/QuizClient.tsx:42-79 | one event raises the score by at most 1, and only a submit raises it; only a restart lowers it, to 0 |
| `QuizRuns.RunPreservesInv` | src/components/quizzes/QuizClient.tsx:42-79 | after any sequence of offered events the invariant holds and 0 <= score <= submitted answers <= number of questions |
| `QuizRuns.StepAppendsAtMostOne` | src/components/quizzes/QuizClient.tsx:56-68 | one event leaves the history unchanged or appends exactly one entry whose total is the question count and whose score is between 0 and total + 1 |
| `QuizRuns.HistoryOnlyGrows` | src/components/quizzes/QuizClient.tsx:58-64 | after any run the old history is a prefix of the new one, and every appended entry has total equal to the question count and score between 0 and total + 1 |
| `QuizRuns.Round` | src/components/quizzes/QuizClient.tsx:131-175 | choosing a non-empty displayed option, submitting and moving on is always offered and equals `Advance(Submit(Select(...)))` |
| `QuizRuns.LastCorrectAnswerCountedTwice` | src/components/quizzes/QuizClient.tsx:42-82 | submitting a correct last answer and finishing shows score + 1 but stores score + 2, one more than shown |
| `QuizRuns.LastWrongAnswerRecordedOnce` | src/components/quizzes/QuizClient.tsx:62-63 | finishing after a wrong last answer stores exactly the shown score |
| `QuizRuns.FinishingIgnoresStorage` | src/components/quizzes/QuizClient.tsx:56-68 | the quiz finishes whether or not local storage works; a failed save differs from a successful one only in leaving the history unchanged |
| `QuizRuns.CorrectWrongCorrect` | src/components/quizzes/QuizClient.tsx:42-82 | a three-question run answered correct, wrong, correct is offered by the page, finishes showing 2, and appends the entry {score 3, total 3} |
| `QuizRuns.RecordedScoreCanExceedTotal` | src/components/quizzes/QuizClient.tsx:62-63 | a one-question quiz answered correctly shows 1 but stores 2 out of 1 |

## Left out

- Rendering (JSX, styling, progress bar, icons, the `/profile` link): presentation only.
- The percentage and the "at least 70" verdict on the finished screen (lines 83, 93): floating-point display logic.
- Re-running the shuffle when the `questions` prop changes (lines 30-32): the parent page is not part of this model, so the question list is fixed for the component's lifetime.
- Local storage as JSON: parsing, serialising and the other fields of `userProgress` are browser I/O. The stored list is an in-memory sequence, and every read or write failure is the single `saved = false` outcome.
- `new Date().toISOString()`: the timestamp is an opaque string parameter.
- The JavaScript engine's sorting algorithm: an insertion sort that consults the comparator stands for it.
- Shuffling.Shuffle: states only that the result is a permutation. Which orders occur, and how often, is not modelled.
- The options memo compares questions by value, where React compares object references. The two differ only when equal questions appear as distinct objects, and then either choice yields a permutation of the same options.
- React's batching and re-render scheduling beyond "a handler reads the values of its render": handlers are sequential steps.
- `src/types` (the `QuizQuestion` and `UserProgress` types) is not part of this model. Their fields are taken from their uses in `QuizClient.tsx`.
- The plant catalog API (`src/app/api/plants/route.ts`), the chatbot flow and the text-to-speech flow: calls into Firestore, a hosted model and an audio library that are not visible here.
