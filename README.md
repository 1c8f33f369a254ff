# Country explorer: flag quiz and browsing logic in Dafny

This project models the two pieces of logic inside the Country Explorer
React UI and proves properties about them.

- **The flag quiz** (`src/countryQuiz.jsx`). The game status moves from
  not-started to playing to ended, and "Play Again" goes from ended back to
  playing. The state also holds the score, the streak, a per-question and a
  per-game countdown, the difficulty and the current question. Module
  `FlagQuiz` (flag_quiz.dfy) gives:
  - the question builder, on values: the picked country, the first three
    countries of another `cca3` as distractors, and a reordering;
  - one transition function per event on a `QuizState` value (`AfterStart`,
    `AfterAnswer`, `AfterTimeOut`, `AfterQuestionTick`, `AfterGameTick`,
    `AfterEndGame`, `AfterContinuation`) with an `Event` type, `Step` and
    `Run`;
  - the invariant `Inv` and the lemmas about these functions;
  - the class `Quiz`. It has the component's state fields, and each handler
    method is proved to move `State()` exactly as the matching transition
    function says, keeping `Valid()`. The two internal helpers
    `GenerateQuestion` and `EndGame` run inside other handlers, in
    intermediate states. They are proved against their transition functions
    only.

  The random draws are parameters. `pick` is the index `Math.random` would
  give. `perm` is the order the random-comparator sort leaves the options
  in, and it may be any permutation. The 1-second deferred continuation is
  kept in `pending`, oldest first. Each entry is the difficulty its closure
  captured. It fires through `ResolvePending`, which checks no status, just
  as the source does not. `ContinuationAfterGameOver` shows the result: a
  continuation still pending when the game ends clears the final-score
  message of the ended game.
- **The browsing shell** (`src/App.jsx`). Module `App` (app.dfy) holds:
  - the theme flip and pagination: 4 per page, a ceiling page count, JS
    `slice` semantics, and guarded next and previous;
  - the case-insensitive substring search, with lower-casing as a given
    `char -> char` mapping;
  - the rule for what the result area shows;
  - the `cca3 → name` table, built by a loop the way the source's `reduce`
    writes into its accumulator;
  - classes for the `ThemeProvider`, `Showlist` and `AppContent` state and
    their handlers.

`JsArrays` (js_arrays.dfy) models the JavaScript built-ins used here:
`filter`, `map`, `slice` and `String.prototype.includes`. `IncludesIff` ties
the scanning `Includes` to an occurrence-at-an-index definition.
`CountryData` (country_data.dfy) holds the country record (`cca3`,
`name.common`, `flags.png`) and its set of codes.

Facts about the code that the model keeps:
- The code builds `1 + min(3, number of other-coded countries)` options and
  fails only on an empty list, where `countries[0]` is undefined.
  `NewQuestion` returns `None` there. `QuestionShape` proves 4 options once
  the list holds 4 distinct codes.
- The options are not always distinct. The filter keeps every copy of a
  repeated record, so a list that repeats a country's record can show that
  country twice among the options. Answers are compared by name, and the
  buttons are keyed by name. `QuestionNamesDistinct` proves what does hold:
  when no two countries share a common name, no two options do, and the
  answer is the only option with its name.
- The deferred continuation checks no status, and neither does the model.
- The difficulty is a string. Any value other than easy, medium or hard
  gets 10 seconds.

On an empty list the source can throw in three places:
- `startQuiz`, from a click handler: every field is set, and no question is
  built.
- The continuation, from a timer callback: the message is cleared, but the
  question clock is not reset. While the list stays fixed this cannot
  happen. A continuation is scheduled only by an answer, which needs a
  current country, or by a timeout that found one. `EmptyListNothingPending`
  proves that on an empty list there is no current country and nothing
  pending. The case is modelled for completeness only.
- `handleTimeOut`, called inside the question effect. React passes an
  error thrown in an effect to the error boundaries, and the tree has none,
  so the whole tree is unmounted. `AfterTimeOut` records this in the
  state's `unmounted` flag. After that no event is enabled (`Enabled`), and
  `UnmountedIsFinal` proves that nothing changes any more.

In the first two cases the model keeps the updates made before the throw
and drops the ones after it.

## Model

| member | source | states |
|---|---|---|
| FlagQuiz.DifficultyTimer | src/countryQuiz.jsx:46-53 | easy gives 15, medium 10, hard 5, any other string 10; always between 5 and 15 |
| FlagQuiz.NewQuestion | src/countryQuiz.jsx:55-71 | building a question fails exactly when the country list is empty |
| FlagQuiz.DistractorsShape | src/countryQuiz.jsx:62-68 | the distractors are the first min(3, n) countries, in list order, whose `cca3` differs from the chosen code; the filtered list is an order-preserving subsequence holding exactly those countries; the filtered list keeps every copy of each other-coded country and no copy of a country with the chosen code; no distractor has the chosen code |
| FlagQuiz.EnoughOthers | src/countryQuiz.jsx:62-64 | with at least 4 distinct codes in the list, at least 3 countries have another code than any given one |
| FlagQuiz.ShufflePermutes | src/countryQuiz.jsx:69 | any index permutation yields a reordering with the same multiset of options |
| FlagQuiz.QuestionShape | src/countryQuiz.jsx:55-71 | the answer is the picked country's option; the options are a permutation of [answer, ...distractors], contain the answer, number 1 + min(3, other-coded countries), and number 4 once 4 distinct codes exist |
| FlagQuiz.OtherCodedDistinct | src/countryQuiz.jsx:62-64 | filtering by code keeps the common names pairwise distinct |
| FlagQuiz.DistractorsDistinct | src/countryQuiz.jsx:62-64 | with pairwise distinct common names, the distractors' names are pairwise distinct and differ from the picked country's |
| FlagQuiz.BaseOptionsDistinct | src/countryQuiz.jsx:55-68 | with pairwise distinct common names, the answer and the distractors carry pairwise distinct names |
| FlagQuiz.DistinctNamesPermutation | src/countryQuiz.jsx:69 | a reordering keeps the option names pairwise distinct |
| FlagQuiz.QuestionNamesDistinct | src/countryQuiz.jsx:55-71 | when no two countries share a common name, no two options share a name, and an option has the answer's name exactly when it is the answer |
| FlagQuiz.InitialInv | src/countryQuiz.jsx:6-14 | the initial state (not-started, score 0, streak 0, 10 s and 30 s on the clocks, medium) satisfies the invariant |
| FlagQuiz.StartResets | src/countryQuiz.jsx:36-44 | start sets status playing, score and streak 0, game clock 30, question clock to the difficulty's seconds, stores the difficulty, and shows a question for the picked country whose options are a reordering of the answer and its distractors; message, scheduled continuations and mounting are kept |
| FlagQuiz.PlayAgainKeepsDifficulty | src/countryQuiz.jsx:186-188 | play again restarts with the stored difficulty and its seconds |
| FlagQuiz.AnswerRule | src/countryQuiz.jsx:73-87 | score and streak both rise by exactly 1 if and only if the selected name equals the answer's; otherwise streak 0 and score kept; the message is "correct" on a match and otherwise names the answer; clocks, status and question unchanged; one continuation scheduled with the current difficulty |
| FlagQuiz.TimeOutIsWrongAnswer | src/countryQuiz.jsx:89-97 | a timeout leaves score, streak and the scheduled continuations as a wrong answer does, and its message names the answer; status, both clocks, question, options and difficulty are unchanged |
| FlagQuiz.TimeOutWithoutQuestion | src/countryQuiz.jsx:89-90 | a timeout with no current country happens only on an empty list after a start, and it unmounts the component and changes nothing else |
| FlagQuiz.EmptyListNothingPending | src/countryQuiz.jsx:73-97 | on an empty list no question is ever current and no continuation is ever scheduled |
| FlagQuiz.UnmountedIsFinal | src/countryQuiz.jsx:20-21 | once the component is unmounted, no sequence of events changes its state |
| FlagQuiz.StatusEdges | src/countryQuiz.jsx:16-102 | each event leaves the status alone or moves it along one edge of the lifecycle: not-started to playing on a difficulty choice, ended to playing on play again, playing to ended on a game tick |
| FlagQuiz.QuestionTickRule | src/countryQuiz.jsx:16-24 | the question clock drops by exactly 1 if and only if the game is playing with time left; otherwise the state is unchanged; no other field ever changes; it never goes below 0 |
| FlagQuiz.GameTickRule | src/countryQuiz.jsx:26-34 | the game clock drops by exactly 1 if and only if playing with time left, and otherwise the state is unchanged; it never goes below 0; going from 1 to 0 ends the game with the score in the message, whatever the question clock; score, streak, question clock, question, difficulty and mounting unchanged, and the message too unless the game ends |
| FlagQuiz.ContinuationRule | src/countryQuiz.jsx:82-86 | the continuation clears the message, shows a question for the picked country and resets the question clock to the current difficulty's seconds; the new options are a reordering of the answer and its distractors; score, streak, status and game clock unchanged |
| FlagQuiz.ContinuationAfterGameOver | src/countryQuiz.jsx:92-96 | with no status guard, a continuation fired after the game ended leaves it ended, clears the final-score message and restarts the question clock |
| FlagQuiz.StepPreservesInv | src/countryQuiz.jsx:16-102 | every event keeps the invariant: both clocks within bounds and never negative, ended exactly when the game clock is 0, 0 <= streak <= score, pending continuations carry the current difficulty, a current country is among the options |
| FlagQuiz.ScoreAndStreakSteps | src/countryQuiz.jsx:73-97 | per event the score stays, rises by 1, or restarts at 0 on a new game; the streak stays, rises by 1 or drops to 0 |
| FlagQuiz.RunPreservesInv | src/countryQuiz.jsx:16-102 | every state reached by a sequence of events from a state satisfying the invariant satisfies it |
| FlagQuiz.Quiz.constructor | src/countryQuiz.jsx:6-14 | the component starts in the initial state |
| FlagQuiz.Quiz.GenerateQuestion | src/countryQuiz.jsx:55-71 | sets the options and the current country from the built question, or changes nothing when the list is empty |
| FlagQuiz.Quiz.StartQuiz | src/countryQuiz.jsx:36-44 | the new state is the start transition of the old one; the invariant holds |
| FlagQuiz.Quiz.PlayAgain | src/countryQuiz.jsx:186-188 | the new state is the start transition with the stored difficulty |
| FlagQuiz.Quiz.TickQuestion | src/countryQuiz.jsx:18-19 | the new state is the question-tick transition of the old one |
| FlagQuiz.Quiz.TickGame | src/countryQuiz.jsx:28-32 | the new state is the game-tick transition, including the end of the game at 0 |
| FlagQuiz.Quiz.EndGame | src/countryQuiz.jsx:99-102 | status becomes ended and the message carries the current score; nothing else changes |
| FlagQuiz.Quiz.HandleAnswer | src/countryQuiz.jsx:73-87 | the new state is the answer transition of the old one |
| FlagQuiz.Quiz.HandleTimeOut | src/countryQuiz.jsx:89-97 | the new state is the timeout transition of the old one: the time's-up message, streak 0 and one continuation, or unmounting when there is no current country |
| FlagQuiz.Quiz.ResolvePending | src/countryQuiz.jsx:82-86 | the new state is the continuation transition for the oldest scheduled continuation |
| JsArrays.IncludesIff | src/App.jsx:191 | `includes` holds exactly when the needle occurs at some index of the haystack |
| App.ToggledTheme | src/App.jsx:15-17 | the result is "dark" exactly when the theme was "light", and "light" otherwise |
| App.ToggleTwice | src/App.jsx:15-17 | flipping twice from "light" or "dark" gives the starting theme back |
| App.ThemeProvider.ToggleTheme | src/App.jsx:13-17 | the theme becomes the flipped one |
| App.TotalPages | src/App.jsx:33 | the page count is the ceiling of count / 4: 4 pages hold the list and one page fewer would not |
| App.PageBounds | src/App.jsx:34-37 | page p is the list from position 4(p-1) to 4p, clamped; it holds at most 4 countries, and at least 1 when p is a real page |
| App.PagesCoverList | src/App.jsx:31-37 | concatenating pages 1 to totalPages gives the whole list in order |
| App.NavigationStaysInRange | src/App.jsx:39-45 | next increments exactly when page < totalPages, previous decrements exactly when page > 1; both keep the page in [1, max(1, totalPages)] and move it by at most 1 |
| App.Showlist.constructor | src/App.jsx:30 | the list starts on page 1 |
| App.Showlist.CountriesToShow | src/App.jsx:34-37 | the current page's slice, at most 4 countries |
| App.Showlist.GoToNextPage | src/App.jsx:39-41 | the page becomes the guarded increment and stays in range |
| App.Showlist.GoToPreviousPage | src/App.jsx:43-45 | the page becomes the guarded decrement and stays in range |
| App.SearchResultsSpec | src/App.jsx:190-192 | the results are an order-preserving subsequence holding exactly the countries whose lower-cased name contains the lower-cased query, with every copy kept |
| App.EmptyQueryKeepsAll | src/App.jsx:190-192 | an empty query keeps the whole list |
| App.ChooseView | src/App.jsx:130-145 | a prompt exactly when the query is empty, a "too many" notice exactly when the query is nonempty and there are 10 or more matches, the matches themselves otherwise |
| App.ListedAreMatches | src/App.jsx:130-145 | a listed result is fewer than 10 countries of the list, in list order, each containing the query |
| App.CountryNames | src/App.jsx:168-173 | the keys are exactly the codes in the list, and each maps to the common name of the last country carrying it |
| App.AppContent.constructor | src/App.jsx:152-156 | the shell starts with no countries, hidden list, empty query and no selection |
| App.AppContent.ReceiveCountries | src/App.jsx:160-162 | the fetched list replaces the countries; nothing else changes |
| App.AppContent.HandleSearch | src/App.jsx:177-180 | the query becomes the typed text and the selection is cleared; the list toggle is untouched |
| App.AppContent.HandleToggleList | src/App.jsx:182-188 | with a selection, it is cleared and the list toggle kept; without one, the list toggle flips; the selection ends up empty either way |
| App.AppContent.SetSelectedCountry | src/App.jsx:139 | the selection becomes the given country, or none; nothing else changes |

## Left out

- Fetching the country list with `noteService.getAll` and logging its error (src/App.jsx:158-166): network I/O. Only the success callback's `setCountries` is modelled, as `ReceiveCountries`.
- `setInterval`, `setTimeout` and React effect re-runs: wall-clock scheduling. Ticks, the timeout and the deferred continuation are explicit events. One consequence: the model lets the timeout event happen whenever the question clock reads 0. The effect calls it only when its dependencies change, so the model allows more timeouts than the source.
- Interval handles and their clean-up: the guarded ticks stand for it. Nothing cancels a pending continuation, and nothing does in the source either.
- The bias of the random-comparator sort and of `Math.random` itself: `perm` ranges over every permutation and `pick` over every index.
- The timer-bar width (src/countryQuiz.jsx:178): floating point, display only.
- No file of the program calls the context's `toggleTheme` (src/App.jsx:15-17). Its consumers read only `theme`, and the switch in src/themeSwitcher.jsx keeps its own flag. In the running program the context theme therefore stays "light". `ThemeProvider.ToggleTheme` models the updater as written.
- src/themeSwitcher.jsx: `localStorage`, `document.body.classList` and `matchMedia` are browser calls around one boolean negation.
- All JSX rendering, `getDifficultyColor`, the `styles` object, the `Display` modal's field dump with its border-name lookup, the quiz modal flag `isModalOpen`, icons and CSS. The buttons' `disabled` flags are left out as well, because the handlers guard themselves.
- Unicode semantics of `toLowerCase`: it is a given character mapping, applied character by character.
- Message texts: they are abstracted to the constructor and the name or score they carry.
- Unmounting and remounting of `Showlist`: the source mounts it only while the list is shown and no country is selected (src/App.jsx:222), so opening and closing a country's details brings the list back on page 1. In the model, `Showlist` is never unmounted and keeps its page.
- Handlers of the unmounted quiz: every `Quiz` handler except the internal helpers `GenerateQuestion` and `EndGame` requires that the component is still mounted. Nothing of the source runs after the tree is removed.
- Closing and reopening the quiz: "Close Quiz" (src/App.jsx:242-246) unmounts the quiz component. Reopening it mounts a fresh one in the initial state. Continuations still pending from the closed one update nothing. The model's `Quiz` is one instance that is never closed or remounted.
- A change of the `countries` prop while the quiz or the paged list is mounted: both components take the list as fixed.
