# Quiz session of the QuizAplication App component

The app is one React Native component, `App` in `App.js`. It fetches ten
multiple-choice trivia questions and shows them one at a time with a running
score. After the last question it shows the final score and a restart button.
This project models the component's session state and the four events that
change it:

- start: the start button, followed by the effect that begins the fetch;
- fetch completion: a decoded response, with or without results, or a failure;
- answer: `handleAnswer`;
- restart: the restart button.

It also models the two pure pieces of the render: the option list of the
current question and the choice of screen.

`Session.dfy` (module `QuizSession`) holds the data model (`Question`,
`FetchOutcome`, `Session`, `Screen`). It gives one pure transition function per
event (`AfterStart`, `AfterFetch`, `AfterAnswer`, `AfterRestart`). The class
`QuizApp` has one mutable field per state hook and one method per handler, and
each method is proved to change the fields exactly as its transition function
says.

`Traces.dfy` (module `QuizTraces`) models runs. An `Event` is applied only when
the rendered screen offers it (`Enabled`):
- start only on the setup form;
- an answer only from the listed options of the Playing screen;
- restart only on the Finished screen;
- a fetch completion only while loading.

It proves an invariant of every state reachable from the initial one. It also
proves how the score and the screen may move per step, and what a whole quiz
played to the end scores.

Three behaviours of the code are worth knowing:

- Restart does not reset the score or the index. It only clears the two flags.
- A failed fetch keeps the old score and index too. So the score can exceed the
  number of questions: a quiz with at least one correct answer, then a restart
  and a failed fetch, leaves a positive score beside an empty list
  (`StaleScoreAfterFailedFetch`). The score is bounded by the length of the
  list only while the list is non-empty (`Reachable`).
- After a failed or empty fetch, the Playing screen offers no option and no
  button. No event can move the session on (`EmptyQuizIsStuck`).

## Model

| member | source | states |
|---|---|---|
| QuizSession.Initial | App.js:8-15 | the session starts with no questions, index and score 0, and neither loading, started nor finished |
| QuizSession.ScreenOf | App.js:60-72 | Finished exactly when quizFinished; otherwise Loading or Playing exactly when started (split by loading), and Setup exactly when not started |
| QuizSession.CurrentQuestion | App.js:47 | there is a current question exactly when the index is inside the list, and it is the question at that index |
| QuizSession.Options | App.js:78-80 | the options are the incorrect answers in delivered order followed by the correct answer: one more entry than the incorrect answers, the correct answer last, nothing shuffled |
| QuizSession.OptionsAt | App.js:78-80 | the list shown is the current question's options, and it is empty exactly when there is no current question |
| QuizSession.AfterStart | App.js:17-24 | start sets quizStarted, and sets loading when it flips quizStarted from false to true; questions, index, score and quizFinished are kept |
| QuizSession.AfterFetch | App.js:23-44 | every outcome ends with loading false; a decoded response resets index, score and quizFinished and keeps the results only when there is at least one (else []); a failure empties the list and keeps index, score and quizFinished |
| QuizSession.AfterAnswer | App.js:46-56 | the score rises by one exactly on an exact match with the current correct answer, else is unchanged; the index advances when more questions remain, otherwise the quiz is finished and no longer started; an in-range index stays in range |
| QuizSession.AfterRestart | App.js:64-67 | restart clears quizFinished and quizStarted and keeps score, index, questions and loading |
| QuizSession.QuizApp.constructor | App.js:8-15 | the component's fields start as the initial session |
| QuizSession.QuizApp.Start | App.js:104 | the start handler, with the effect it triggers, changes the fields as AfterStart says |
| QuizSession.QuizApp.CompleteFetch | App.js:23-44 | the fetch's result handling changes the fields as AfterFetch says |
| QuizSession.QuizApp.HandleAnswer | App.js:46-56 | handleAnswer changes the fields as AfterAnswer says |
| QuizSession.QuizApp.Restart | App.js:64-67 | the restart handler changes the fields as AfterRestart says |
| QuizTraces.Dispatch | App.js:58-108 | delivering an event to the component runs the handler the current screen wires to it, with the effect of Step; an event the screen does not offer changes nothing |
| QuizTraces.InitialInv | App.js:8-15 | the initial session satisfies the invariant |
| QuizTraces.StepInv | App.js:23-104 | every event the screen offers keeps the invariant: flags never both set, loading only when started, index inside a non-empty list, a finished quiz at its last question, score at most one per question reached |
| QuizTraces.RunInv | App.js:23-104 | every run from a state satisfying the invariant ends in one that satisfies it |
| QuizTraces.Reachable | App.js:46-67 | in every reachable state quizStarted and quizFinished are not both true, and a non-empty list has the index inside it and a score no larger than its length |
| QuizTraces.StepScore | App.js:36-49 | a step moves the score by at most one; it rises exactly when an answer matches the current correct answer; it falls only to 0, on a decoded response |
| QuizTraces.StepScreen | App.js:60-104 | an offered event moves the screen only Setup to Loading, Loading to Playing, Playing to Playing or Finished, and Finished to Setup |
| QuizTraces.EmptyQuizIsStuck | App.js:71-90 | on a Playing screen with no questions the screen offers no event at all |
| QuizTraces.AnswerToEnd | App.js:46-56 | answering from question i to the last with listed options finishes the quiz at the last index, un-started, with the score raised by the number of exact matches |
| QuizTraces.PerfectQuiz | App.js:23-56 | start, a non-empty response and the correct answer to every question give a finished quiz with full marks |
| QuizTraces.StaleScoreAfterFailedFetch | App.js:39-67 | a one-question quiz answered correctly, restarted, started again and then failing to fetch ends on the Playing screen with no questions and score 1 |

## Left out

- The HTTP request and the JSON decoding (App.js:26-27) are I/O against the external trivia provider. Their result is the `FetchOutcome` parameter: `Received(None)` stands for a response without a `results` field, and `Failed` for any exception the request or the decoding throws.
- The URL building (App.js:5, 26) and the category and difficulty pickers (App.js:12-13, 94-103) are left out. Those two fields only feed the URL.
- `console.error` logging (App.js:32, 40) is left out.
- React scheduling is left out: batched updates, stale closures and the timing of effects. Each event is one atomic step. Start and its effect's `setLoading(true)` form one step, so the single render between them, which shows the Playing screen with the old questions, is not modelled.
- The markup and styles (App.js:58-122) are left out, apart from the screen choice and the option list. Question text display and the score line are rendering only.
- The fields of a question are assumed present and typed as strings. A result without `incorrect_answers` (App.js:78 tests it) or with non-string fields is not modelled.
- Duplicate option strings are shown as given; the `keyExtractor` clash they cause in the list is a rendering matter.
