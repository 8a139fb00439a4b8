# Quiz session model

A Dafny model of the quiz screen of a React Native multiple-choice quiz app.
The screen keeps seven pieces of session state, besides the animated progress
value left out below: the current question index,
the option the user pressed, the recorded correct answer, whether the options
are locked, the score, whether the Next button is shown, and whether the score
modal is open. Three handlers change that state:

- `validateAnswer` runs when an option is pressed;
- `handleNext` runs when Next is pressed;
- `restartQuiz` runs when Retry is pressed.

From the state the screen derives the colour and badge of each option and the
pass/fail verdict of the score modal.

The project has three modules:

- `QuizSession` (`quiz_session.dfy`) describes the state as a value.
  - The three transitions are functions: `Validated`, `Advanced` and `Restarted`.
  - `Consistent` is the invariant every reachable state keeps. It is stated
    relative to the history of chosen options, so it pins the score down
    exactly: the score is the number of correct choices.
- `QuizScreen` (`quiz_screen.dfy`) is the component itself: a class `Quiz`.
  - Its fields are the state hooks.
  - Its methods perform the setter calls in the source's order.
  - Each method is proved to produce exactly the state its transition
    function describes, and to keep `Valid()`.
  - The UI's gating becomes `requires` clauses. The options are disabled once
    one is pressed, and Next is rendered only when `showNextButton` holds.
  - `ExampleSession` replays a three-question session (answers B, C, A
    against correct answers B, A, A). Its asserts, which Dafny proves, fix
    the score after the first and second answers and, once Next has opened
    the score modal, the final score of 2.
- `QuizDisplay` (`quiz_display.dfy`) holds the pure display logic.
  - Option classification: correct, wrong or neutral.
  - The border colour, background colour and status badge, each proved to
    follow that classification.
  - The verdict `score > allQuestions.length / 2`. The source computes it with
    JavaScript number division; the model computes it over integers as
    `2 * score > count` and proves it equal to the real-number comparison.

The question data is a non-empty sequence of `Question` records given to the
constructor. The model does not assume that a question's answer is one of its
options, because the code never checks this.

A few choices follow directly from the code:

- The handlers have no error path. An option press while the options are
  disabled, or a Next press while the button is hidden, is prevented only by
  the UI (app/screens/Quiz.js:128, app/screens/Quiz.js:174), so these become
  `requires` clauses.
- `validateAnswer` does not check that the pressed option belongs to the
  current question, although the screen only ever calls it with the current
  question's options (app/screens/Quiz.js:124-127). `ValidateAnswer` accepts
  any string.
- Nothing in the code makes a question's answer one of its options.
- `restartQuiz` only resets fields. The model allows it from every state.

## Model

| member | source | states |
|---|---|---|
| QuizSession.InitialConsistent | app/screens/Quiz.js:18-24 | The creation state (index 0, no selection or answer, options enabled, score 0, no Next button, modal hidden) satisfies the session invariant with nothing answered. |
| QuizSession.CorrectCount | app/screens/Quiz.js:33-35 | The number of correct choices in a history is at most the length of that history, and is 0 for an empty history. |
| QuizSession.CorrectCountFull | app/screens/Quiz.js:33-35 | A history scores full marks exactly when every choice in it is its question's answer. |
| QuizSession.Validated | app/screens/Quiz.js:27-37 | Answering records the chosen option and the current question's answer, and locks the options and shows Next. The score rises by one exactly when the choice is the answer and is otherwise unchanged. The index and the modal do not change. |
| QuizSession.Advanced | app/screens/Quiz.js:39-48 | On the last index Next only opens the modal and changes nothing else. On an earlier index it advances by exactly one, clears the selection and answer, unlocks the options, hides Next, and keeps the score. |
| QuizSession.Restarted | app/screens/Quiz.js:56-64 | Restarting from any state gives exactly the creation state. |
| QuizSession.ValidatedConsistent | app/screens/Quiz.js:27-37 | Answering an unlocked question keeps the invariant with the choice appended to the history. This covers the index staying in bounds and the score staying equal to the number of correct choices. |
| QuizSession.AdvancedConsistent | app/screens/Quiz.js:39-48 | Next, once shown, keeps the invariant. In particular the index stays below the number of questions, and the modal opens only on the answered last question. |
| QuizSession.RestartedConsistent | app/screens/Quiz.js:56-64 | Restart from any state re-establishes the invariant with an empty history. |
| QuizSession.ScoreBounded | app/screens/Quiz.js:18-24 | In every consistent state, 0 <= score <= number of questions answered so far <= number of questions. |
| QuizSession.CompleteIsFinal | app/screens/Quiz.js:40-41 | With the modal open every question has been answered, the options are locked and Next changes nothing, so the score is final. The score equals the question count exactly when every answer was right. |
| QuizScreen.Quiz.constructor | app/screens/Quiz.js:17-24 | The component starts in the creation state over the given question data, and that state is valid. |
| QuizScreen.Quiz.CurrentQuestion | app/screens/Quiz.js:28 | Reading the current question never goes out of bounds. The accessor only exposes this; the guarantee itself comes from the invariant that `ValidatedConsistent`, `AdvancedConsistent` and `RestartedConsistent` preserve. |
| QuizScreen.Quiz.ValidateAnswer | app/screens/Quiz.js:27-37 | Pressing an enabled option updates the fields exactly as `Validated` says, adds 1 to the score only for the correct option, and keeps `Valid()`. Because the options are then locked, it cannot run twice for one question. |
| QuizScreen.Quiz.HandleNext | app/screens/Quiz.js:39-48 | Pressing the shown Next button updates the fields exactly as `Advanced` says and keeps `Valid()`. |
| QuizScreen.Quiz.RestartQuiz | app/screens/Quiz.js:56-64 | Retry sets every field to its initial value, as `Restarted` says, and keeps `Valid()`. |
| QuizDisplay.Classify | app/screens/Quiz.js:131-142 | An option is classified correct exactly when it is the recorded answer. It is wrong exactly when it is the selected option and not the answer. Otherwise it is neutral. |
| QuizDisplay.BorderColor | app/screens/Quiz.js:131-136 | The border tone follows the classification (success, error, secondary). Only the neutral border carries the "40" alpha. |
| QuizDisplay.BackgroundColor | app/screens/Quiz.js:137-142 | The background is the classification's tone with the "20" alpha. |
| QuizDisplay.StatusBadgeAsWritten | app/screens/Quiz.js:147-166 | The code's badge: none for a neutral option, otherwise in the classification's tone, always with the "check" glyph. |
| QuizDisplay.WrongChoiceShowsCheckGlyph | app/screens/Quiz.js:158-165 | A concrete wrong choice gets the same "check" glyph as the correct answer. |
| QuizDisplay.StatusBadge | app/screens/Quiz.js:146-166 | The corrected badge: none for a neutral option, otherwise in the classification's tone. |
| QuizDisplay.StatusBadgeGlyphDistinguishes | app/screens/Quiz.js:146-166 | With the corrected badge a check appears exactly for the correct answer and a cross exactly for a wrong choice. |
| QuizDisplay.HighlightInSession | app/screens/Quiz.js:128-166 | In every consistent state nothing is marked before answering. After answering, an option is correct exactly when it is the question's answer, and wrong exactly when it is the chosen option and not the answer. |
| QuizDisplay.Passed | app/screens/Quiz.js:209 | The integer test `2 * score > count` holds exactly when `score > count / 2` holds in real-number division. |
| QuizDisplay.VerdictTitle | app/screens/Quiz.js:208-210 | The title is "Congratulations!" exactly when the session passed, and "Oops!" exactly when it did not. |
| QuizDisplay.ScoreTone | app/screens/Quiz.js:216-219 | The score figure is in the success tone exactly when the title congratulates, and in the error tone otherwise. |
| QuizDisplay.FinalVerdict | app/screens/Quiz.js:209 | For a finished session, passing means more than half of all the questions were answered correctly. A perfect session is congratulated, and a zero score gets "Oops!". |

## Left out

- Rendering: the layout, the question counter, the Next button, the modal and the style sheet. These are presentation. Only the colour and badge choices and the verdict are modelled.
- The animated progress bar (`Animated.Value`, `Animated.timing`, `interpolate`): an animation library working in floating point and percentage strings.
- React's scheduling and batching of state setters, and stale closures: each handler is modelled as one atomic update of the state.
- The question data module, the colour constants and the icon library are not part of this model. The questions are a constructor parameter, the colours an enumeration of palette entries, and icons a glyph name.
- The Retry button is reachable only from the score modal. `RestartQuiz` is modelled as callable from any state, since the handler itself does not depend on that.

## Findings

| source | as written | input that shows it | evidently intended | confidence | as-written member | corrected member |
|---|---|---|---|---|---|---|
| app/screens/Quiz.js:146-165 | Both badges use the icon name "check"; the wrong-choice badge differs only in colour | Correct answer "A", user presses "B": option "B" shows a red badge with a check mark | The comment announces a check or a cross icon, so a wrong choice should show a cross ("close") | medium; not executed | QuizDisplay.StatusBadgeAsWritten, QuizDisplay.WrongChoiceShowsCheckGlyph | QuizDisplay.StatusBadge, QuizDisplay.StatusBadgeGlyphDistinguishes |
