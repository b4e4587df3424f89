# Spectrum: the round state machine, verified

Spectrum is a single-page guessing game. For each of three fixed questions the player first
guesses where the "hivemind" (the average answer of all players) lies on a 0–100 slider, then
gives their own opinion on a second slider, and is then shown a score. The score is
`Math.round(100 - |guess - hivemind|)`, with the hivemind average fetched from the server.

This project models the page component `Home` as a Dafny class and proves what each of its
handlers does to the seven pieces of view state: `gameState`, `currentQuestionIndex`, the live
slider values `guessValue` and `opinionValue`, the snapshots `finalGuess` and `finalOpinion`,
and `resultsData`. The score and fallback expression is modelled as pure functions with lemmas.

- `scoring.dfy`, module `Scoring`: the `|| 50` fallback, JavaScript's `Math.round` and the score.
  `Math.round` is proved equal to its ECMAScript description: the nearest integer, with halves
  going towards +infinity. The score is proved to lie in [0, 100] for inputs in [0, 100]. It is
  100 exactly when the guess is within half a point of the hivemind value. A true average of 0
  is scored as 50.
- `questions.dfy`, module `Deck`: the three questions and the cyclic index walk. `n` rounds move
  the index `n` places, modulo 3. Every question is reached within one pass.
- `home.dfy`, module `Page`: class `Home`, with one method per handler and a method for a click
  on the single visible button. Its invariant `Valid()` says the index points into the question
  list and every slider value and snapshot lies in [0, 100]. Every handler keeps it. Each
  handler's contract states every field's new value; a field the handler does not touch is
  stated to be unchanged.

The network is a parameter. `HandleOpinionSubmit` takes `server: int -> FetchOutcome`, which
maps the `question_id` sent to how the fetch ends. `Failed` stands for a non-ok response or a
thrown error. `Answered(avg)` carries `hivemind_average`, which may be missing. The method
returns the id it sent, and its contract ties the outcome to that id.

The hivemind average is an exact `real`. Slider values, guesses and scores are integers.

## Model

| member | source | states |
|---|---|---|
| `Scoring.Abs` | src/app/page.tsx:57 | `Math.abs`: the result is non-negative and equal to `x` or `-x` |
| `Scoring.Fallback` | src/app/page.tsx:56 | the hivemind value is never 0, and it is either 50 or the fetched average itself |
| `Scoring.FallbackKeeps` | src/app/page.tsx:56 | the result is 50 exactly when the average is missing, 0 or 50; any present non-zero average is kept |
| `Scoring.FallbackReplacesZero` | src/app/page.tsx:56 | a true average of 0 becomes 50 and is scored as if it were 50 |
| `Scoring.FallbackZeroChangesScore` | src/app/page.tsx:56-58 | for a guess in [0, 100], the 50 that replaces a true average of 0 changes the score for every guess except 25 |
| `Scoring.FallbackInRange` | src/app/page.tsx:56 | an average in [0, 100], or a missing one, gives a hivemind value in [0, 100] |
| `Scoring.JsRound` | src/app/page.tsx:58 | `Math.round(x)` is an integer `n` with `n - 1/2 <= x < n + 1/2` |
| `Scoring.JsRoundIsJsRounding` | src/app/page.tsx:58 | `floor(x + 1/2)` equals ECMAScript's rounding, in both directions: nearest integer, ties towards +infinity |
| `Scoring.JsRoundHalvesUp` | src/app/page.tsx:58 | `k + 1/2` rounds to `k + 1` and `k - 1/2` rounds to `k`, for negative `k` too |
| `Scoring.Score` | src/app/page.tsx:57-58 | the score is within half a point of `100 - abs(guess - h)` |
| `Scoring.ScoreBounds` | src/app/page.tsx:57-58 | a guess in [0, 100] against a hivemind value in [0, 100] scores in [0, 100] |
| `Scoring.ScorePerfect` | src/app/page.tsx:57-58 | the score is 100 exactly when the guess is within 1/2 of the hivemind value |
| `Scoring.ScoreOfWholeNumber` | src/app/page.tsx:57-58 | against a whole-number hivemind value the score is exactly `100 - abs(guess - h)`, and it is 100 exactly when guess equals h |
| `Scoring.ScoreMonotone` | src/app/page.tsx:57-58 | a guess nearer the hivemind value never scores less |
| `Scoring.ScoreExample` | src/app/page.tsx:53-58 | guess 80 against a fetched average of 70 scores 90 |
| `Deck.NextIndex` | src/app/page.tsx:77 | the next index is in [0, 3); from a valid index it is the successor, wrapping from the last question to 0 |
| `Deck.Advance` | src/app/page.tsx:77 | after one or more rounds the index is in [0, 3) |
| `Deck.AdvanceIsOffset` | src/app/page.tsx:77 | `n` rounds from index `i` give index `(i + n) % 3` |
| `Deck.FullCycle` | src/app/page.tsx:8-12 | three rounds return to the same question |
| `Deck.EveryQuestionReached` | src/app/page.tsx:8-12 | from any question, every question is reached within fewer than three rounds |
| `Page.NextPhase` | src/app/page.tsx:33-83 | defines the cycle of phases that lines 35, 66 and 80 set (over the `GameState` type of line 6): guessing, then submittingOpinion, then results, then guessing; its contract states that every phase moves to a different one |
| `Page.Home.constructor` | src/app/page.tsx:17-27 | starts in `guessing` at index 0, both sliders at 50, both snapshots at 0, results `{hivemind: 0, score: 0}`, and valid |
| `Page.Home.CurrentQuestion` | src/app/page.tsx:30 | `questions[currentQuestionIndex]` is defined in every valid state and is one of the questions |
| `Page.Home.SliderValue` | src/app/page.tsx:151 | the range input displays the guess while guessing and the opinion otherwise; in every valid state that value lies within the input's `min`/`max` of 0 and 100 |
| `Page.Home.VisibleButton` | src/app/page.tsx:154-158 | "Lock In Guess" shows exactly while guessing; "Play Next Round" shows exactly on the results screen |
| `Page.Home.HandleGuessSubmit` | src/app/page.tsx:33-36 | the state becomes `submittingOpinion` and no other field changes |
| `Page.Home.HandleOpinionSubmit` | src/app/page.tsx:38-73 | sends the current index as `question_id`. A failed fetch leaves every field unchanged. An answer sets `finalGuess`/`finalOpinion` to the sliders, `resultsData` to the fallback value and its score, and the state to `results`. Index and sliders are unchanged. An in-range average gives hivemind and score in [0, 100] |
| `Page.Home.HandlePlayAgain` | src/app/page.tsx:75-83 | the index becomes `(index + 1) % 3`, the state `guessing`, both sliders 50; snapshots and results are unchanged |
| `Page.Home.HandleSliderChange` | src/app/page.tsx:151 | writes only `guessValue` while guessing and only `opinionValue` otherwise; the input then displays the value; nothing else changes |
| `Page.Home.PressButton` | src/app/page.tsx:131-158 | a click on the visible button moves to the next phase, except that a failed fetch stays in `submittingOpinion`. Only "Play Next Round" moves the index and resets both sliders to 50. Only an answered "Submit Opinion" sets the snapshots to the sliders and `resultsData` to the fallback value and its score; every other click leaves them unchanged |

## Left out

- `src/app/api/get-results/route.ts` is not part of this model. It only forwards `question_id` to a database stored procedure that this repository does not contain. It answers 400 when the id is missing and returns the first row without checking that one exists. The model treats the whole endpoint as the `server` parameter.
- `fetch`, `response.json()`, `console.log`, `console.error` and `alert` are left out. Their only effect on the state is the fetch outcome, which is the `server` parameter. The alert shown on failure is not modelled.
- `answer_count` in the response body is not modelled, because the page never reads it.
- `Scoring.Fallback`: IEEE-754 doubles are not modelled, so `NaN`, which `||` also replaces with 50, has no counterpart. A non-number `hivemind_average` is not modelled either.
- `Page.Home.HandleSliderChange`: takes the slider position as an integer in [0, 100]. This is what the range input's `min`/`max` and `parseInt` produce. Parsing the string `e.target.value` is not modelled.
- React's batching of setter calls and the `await` points are not modelled. Each handler is one atomic step that reads the state at the moment of the click.
- JSX rendering and CSS are not modelled. The three results markers sit at `finalGuess`, `finalOpinion` and `resultsData.hivemind` percent of the bar, and `Valid()` keeps the first two in [0, 100].
