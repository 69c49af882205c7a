# Make 100 — a verified model of the Code-Ninjas puzzle game

Code-Ninjas is a web game: the player gets six digits from 1 to 9 and must
join them with arithmetic operators so that the expression is worth 100.
This project models the game's logic in Dafny and proves properties of it.
The parts modelled are:

- **The puzzle engine (`MathPuzzleGame`).**
  - The operator palette for a level.
  - Heap's permutation generator, swapping a shared array in place.
  - The Cartesian product of operator sequences.
  - The candidate builder.
  - The checks: digits as a multiset, value within 1e-4 of 100, and their conjunction.
  - One pass of the generator's search over the permutations and operator sequences.
- **The game session handlers.**
  - Start, level fetch with on-demand generation, answer submission with points and trophies, hint, quit, pause and resume.
  - They work on a session record whose fields the handlers update in place.
- **The battle handlers.**
  - Matchmaking, answer submission with time-out draw and winner and loser rewards, status, cancelling a search.
  - Friendly invitations and spectators.
  - Battles and sessions are objects updated in place.
- **The two client puzzle pages.**
  - The timed page (scoring table, penalty, countdown, trophy total clamped at 0) and the practice page (clock counting up).
  - Both pages share the answer check: digits in order, sanitizing, a syntax pre-filter, then evaluation with tolerance 1e-6.
- **The puzzle list.** It is deduplicated and sorted, then split into three slices by time limit.
- **The leaderboard.** Its filter, stable sort by score, top 50 and rank labels.
- **The friend lobby.** Case-insensitive unique trainer names, selection toggle, battle start and end, and the online-status simulation.

JavaScript's `eval` and `Function` are replaced by an explicit grammar
(`Arith`). It covers:

- number literals, `+ - * /`, right-associative `**`, unary signs and parentheses;
- exact evaluation over `real`.

Division by zero gives no value, where JavaScript gives `Infinity` or
`NaN`. A final `Infinity` or `NaN` is never within 1e-4 of 100, but a later
operation can absorb an intermediate one (`0/(1/0)` is `0` in JavaScript);
"Left out" says where the two then differ. The grammar rejects two operands written side by
side, such as `(1)2` or `2 3`, as a single JavaScript expression does. It
reads the text as one expression, so a line break never ends a statement
(see "Left out"). Randomness, clocks, ids
and the database become parameters: `drawn` for the six drawn digits,
`pick` for a random index, `now` for `Date.now()`, and a session or battle
object (or `null`) for a query's result.

Three details of the code that the model keeps:

- `validateNumbers` looks only at the digits 1 to 9 (`/[1-9]/`), so a `0`
  in an answer is ignored.
- `validateExpression` does not strip characters before evaluating; it only
  writes `^` as `**`.
- The restart loop in `generateNumbersWithSolution` has no bound.

## Model

| member | source | states |
|---|---|---|
| Puzzle.AllowedOperations | backend/controllers/gameController.js:29-33 | four operators up to level 10, five (adds `()`) for levels 11-20, six (adds `**`) above 20; the first four are always `+ - * /` |
| Puzzle.PaletteMonotone | backend/controllers/gameController.js:29-33 | a lower level's palette is contained in any higher level's |
| Puzzle.CombinationsCount | backend/controllers/gameController.js:24-27 | the Cartesian product of a palette of k operators to length n has k^n sequences |
| Puzzle.CombinationsMembers | backend/controllers/gameController.js:24-27 | a sequence is in the product exactly when it has the requested length and every element is in the palette |
| Puzzle.MathPuzzleGame.constructor | backend/controllers/gameController.js:6-11 | a new game has the level's palette, no numbers and an empty solution |
| Puzzle.MathPuzzleGame.GetOperationCombinations | backend/controllers/gameController.js:24-27 | k^length sequences, exactly those of that length over the game's palette |
| Puzzle.MathPuzzleGame.Permute | backend/controllers/gameController.js:13-22 | the array method yields, in order, the arrays of the recursive generator specification `HeapRun`, and leaves the array in that specification's final state |
| Puzzle.MathPuzzleGame.SwapElements | backend/controllers/gameController.js:19 | the array afterwards is the old contents with positions i and j exchanged |
| Puzzle.HeapRun | backend/controllers/gameController.js:13-22 | the generator leaves the array with its length unchanged |
| Puzzle.HeapRunFirst | backend/controllers/gameController.js:13-14 | the first array the generator yields is the array as it stands |
| Puzzle.HeapRunCount | backend/controllers/gameController.js:13-22 | the generator yields exactly n! arrays |
| Puzzle.HeapRunLeaves | backend/controllers/gameController.js:13-22 | the shared array is left as a rearrangement of its original contents |
| Puzzle.HeapRunYields | backend/controllers/gameController.js:13-22 | every yielded copy is a rearrangement of the input |
| Puzzle.HeapLoopStep | backend/controllers/gameController.js:15-20 | one round of the loop: what was yielded so far plus what the rest of the loop yields from the new array state is what the loop yields |
| Puzzle.YieldsRearrange | backend/controllers/gameController.js:61 | every permutation the search tries is a rearrangement of the drawn digits |
| Puzzle.MathPuzzleGame.BuildExpression | backend/controllers/gameController.js:43-55 | the loop computes the candidate text `Build` for the level, digits and operators |
| Puzzle.BuildFacts | backend/controllers/gameController.js:43-55 | with its non-digits removed the candidate is the six digits in the given order; it uses only the allowed characters and never contains `**` |
| Puzzle.PrefixSucc | backend/controllers/gameController.js:45-51 | one round of the loop without the `()` marker appends the digit and then the operator's text |
| Puzzle.StarsToCaretIdentity | backend/controllers/gameController.js:54 | a text without `**` is left alone by the rewrite to `^` |
| Puzzle.CaretStarsRoundTrip | backend/controllers/gameController.js:54 | on a text without `^`, rewriting `**` to `^` (the builder) and back (`validateExpression`, line 77) gives the text again |
| Puzzle.StarsToCaretFacts | backend/controllers/gameController.js:54 | writing `**` as `^` leaves no `**`, keeps the digits and the allowed characters, and keeps a `)` followed by a digit |
| Puzzle.ParenCandidateNeverValid | backend/controllers/gameController.js:47-48 | above level 5 a candidate that uses the `()` marker renders as `(…)d` and never passes `validateExpression` |
| Puzzle.UsedDigits | backend/controllers/gameController.js:36-37 | the digits an answer uses are each between 1 and 9 |
| Puzzle.SortInts | backend/controllers/gameController.js:38-39 | the numeric sort yields an ascending permutation of its input |
| Puzzle.SortedUnique | backend/controllers/gameController.js:40 | two ascending lists with the same elements are equal, so comparing the sorted lists compares multisets |
| Puzzle.ValidateNumbers | backend/controllers/gameController.js:35-41 | `validateNumbers` holds exactly when the answer's digits 1-9 and the puzzle numbers are the same multiset: order is irrelevant and zeros are ignored |
| Puzzle.ValidateRendered | backend/controllers/gameController.js:76-83 | a candidate rendered with `^` passes `validateExpression` exactly when the text it was rendered from evaluates to within 1e-4 of 100 |
| Puzzle.CheckAnswer | backend/controllers/gameController.js:85-88 | `checkAnswer` holds exactly when the answer's digits 1-9 are the puzzle's numbers as a multiset and the answer is worth 100 |
| Puzzle.RearrangedPuzzleDigits | backend/controllers/gameController.js:59-61 | a rearrangement of six digits 1-9 is again six digits 1-9 |
| Puzzle.FirstOps | backend/controllers/gameController.js:64-71 | an operator sequence the inner search returns is one of those tried and passes the test |
| Puzzle.FirstSolution | backend/controllers/gameController.js:63-72 | a pair the search returns is a tried permutation and operator sequence that passes the test |
| Puzzle.Combos | backend/controllers/gameController.js:64 | the sequences tried are exactly the length-5 sequences over the level's palette |
| Puzzle.FirstSolutionNone | backend/controllers/gameController.js:63-72 | when the search returns nothing, no pair passes |
| Puzzle.FirstSolutionAt | backend/controllers/gameController.js:63-72 | the search returns the first passing pair in enumeration order (permutations outer, operator sequences inner) |
| Puzzle.CandidateChecks | backend/controllers/gameController.js:85-88 | a candidate worth 100 uses exactly its own digits in order and passes `checkAnswer` against them and against any rearrangement of them |
| Puzzle.SearchRoundTrip | backend/controllers/gameController.js:57-74 | a found solution's digits rearrange the drawn ones, the solution uses exactly those digits in that order, and `checkAnswer` accepts it |
| Puzzle.SearchExhaustive | backend/controllers/gameController.js:57-74 | a pass that finds nothing has tried every permutation the generator yields with every operator sequence of the palette (that the generator reaches all n! orderings is not proved) |
| Puzzle.BuildWitness | backend/controllers/gameController.js:43-55 | at level 1 the digits 5 5 4 1 1 1 with five `*` build `5*5*4*1*1*1` |
| Puzzle.HitsWitness | backend/controllers/gameController.js:76-83 | that candidate passes `validateExpression` |
| Puzzle.SearchFinds | backend/controllers/gameController.js:57-74 | a level-1 pass over the draw 5 5 4 1 1 1 finds a solution, so the search is not empty |
| Puzzle.MathPuzzleGame.GenerateNumbersWithSolution | backend/controllers/gameController.js:57-74 | it succeeds exactly when the search specification finds a solution; then `currentNumbers` and `solution` are that solution, the numbers are six digits 1-9 and `checkAnswer` accepts the solution |
| Arith.TokenizeSeparated | backend/controllers/gameController.js:79 | a text of single-character digits, operators and parentheses with no two digits and no two operators adjacent scans one token per character |
| Arith.EvaluateHundred | backend/controllers/gameController.js:79 | `5*5*4` is worth 100 |
| Arith.EvaluatePrecedence | backend/controllers/gameController.js:79 | `*` binds tighter than `+`: `1+2*3` is 7 |
| Arith.PowerRightAssociative | backend/controllers/gameController.js:77-79 | `2**3**2` parses as `2**(3**2)` |
| Arith.PowerRightValue | backend/controllers/gameController.js:77-79 | which is 512, where `(2**3)**2` is 64 |
| Arith.EvaluateDivZero | backend/controllers/gameController.js:79 | `1/0` has no value, so `validateExpression` rejects it as it rejects JavaScript's `Infinity` |
| Arith.EvaluateJuxtaposed | backend/controllers/gameController.js:79-82 | `(1)2` has no value: JavaScript throws, and the check answers `false` |
| Arith.EvaluateSolution | backend/controllers/gameController.js:79 | `5*5*4*1*1*1` is worth 100 |
| Arith.ParsedHasNoJuxtaposition | backend/controllers/gameController.js:78-79 | a token sequence that parses has no operand directly followed by another operand |
| Arith.CloseThenOperandHasNoValue | backend/controllers/gameController.js:78-79 | a text with `)` directly followed by a digit or `(` has no value |
| Arith.CloseThenDigitHasNoValue | backend/controllers/gameController.js:78-79 | a text with `)` directly followed by a digit has no value |
| Text.DigitsOnly | frontend/src/components/Homepagecomp/Gameplay.jsx:187 | the projection keeps only digits and never lengthens the text |
| Text.DigitsOnlyAppend | frontend/src/components/Homepagecomp/Gameplay.jsx:187 | the projection of a concatenation is the concatenation of the projections |
| Text.NatToString | frontend/src/components/Homepagecomp/Gameplay.jsx:30-31 | the decimal rendering is digits with no leading zero and is one character exactly below 10 |
| Text.NatToStringRoundTrip | frontend/src/components/Homepagecomp/Gameplay.jsx:30-31 | reading the rendering back gives the number |
| Text.Pad2 | frontend/src/components/Homepagecomp/Gameplay.jsx:30-31 | padding gives at least two digits worth the number, with a leading `0` below 10 |
| Text.Lower | frontend/src/components/Homepagecomp/Playwithfriend.jsx:85 | lower-casing keeps the length and maps each character |
| Text.Includes | frontend/src/components/Homepagecomp/Leaderboard.jsx:32 | true exactly when the needle occurs at some position |
| Text.TrimStart | frontend/src/components/Homepagecomp/Playwithfriend.jsx:78 | the suffix of the text after its leading white space, starting with a non-space |
| Text.TrimEnd | frontend/src/components/Homepagecomp/Playwithfriend.jsx:78 | the prefix of the text before its trailing white space, ending with a non-space |
| Text.Trim | frontend/src/components/Homepagecomp/Playwithfriend.jsx:78 | the result is a middle part of the text with only ECMAScript white space or line terminators cut from either end, and a non-empty result neither starts nor ends with white space |
| JsNumber.Max | backend/controllers/gameController.js:212 | the larger of the two arguments |
| JsNumber.Min | backend/controllers/battleController.js:34 | the smaller of the two arguments |
| JsNumber.Rem | backend/controllers/gameController.js:267 | JavaScript's `%`: strictly between -n and n, the Euclidean remainder on non-negative dividends, never positive on non-positive ones |
| Models.UnlockedUpTo | backend/controllers/gameController.js:218-221 | the unlocked levels are exactly 1, 2, ..., n |
| Models.GameSession.constructor | backend/controllers/gameController.js:97-107 | a new session is at level 1 with only level 1 unlocked, zero score and trophies, no level states, not paused and idle |
| Models.Battle.constructor | backend/models/Battle.js:4-27 | a new battle has the given players, puzzle, start, limit and status, no result, no winner, zero attempts, is public and has no spectators |
| GameController.PointsEarned | backend/controllers/gameController.js:211-212 | at least 10 points and at least 100 + 20·level − 10·(attempts − 1); 100 + 20·level on the first attempt; exactly 10 fewer per further attempt while above the floor |
| GameController.PointsNonIncreasing | backend/controllers/gameController.js:211-212 | a later attempt never earns more points |
| GameController.TrophiesAwarded | backend/controllers/gameController.js:213 | 7 trophies exactly on the first attempt, then 4, 3, 2, 1, and 0 from the sixth attempt on |
| GameController.AttemptsRemaining | backend/controllers/gameController.js:267 | always at least 1; 3 − (attempts mod 3) for non-negative counts, so 3 exactly when the count is a multiple of 3 |
| GameController.HintParts | backend/controllers/gameController.js:423 | every hint part is a run of digits or a single operator or parenthesis |
| GameController.HintPartsCover | backend/controllers/gameController.js:423 | the parts, laid end to end, are exactly the solution's digits, operators and parentheses, in order |
| GameController.HintPartsEmpty | backend/controllers/gameController.js:423-424 | there are no parts exactly when the solution has no digit, operator or parenthesis |
| GameController.FreshLevelWinnable | backend/controllers/gameController.js:143-153 | a freshly generated level stores six digits 1-9 that rearrange the draw, and a non-empty solution that `checkAnswer` accepts against them |
| GameController.GenerateLevel | backend/controllers/gameController.js:144-153 | the stored state is the fresh level state of the draw's solution |
| GameController.StartGame | backend/controllers/gameController.js:92-124 | the stored session is returned unchanged, otherwise a fresh level-1 session is created; the reply summarises it |
| GameController.GetLevel | backend/controllers/gameController.js:126-172 | a level above the player's is refused without change; otherwise only that level's state is added if missing, and the reply carries it |
| GameController.EnsureLevel | backend/controllers/gameController.js:142-155 | afterwards the level has a state: the stored one, or a freshly generated one; nothing else changes |
| GameController.StoreLevel | backend/controllers/gameController.js:147-153 | only that level's state changes, and the session invariant holds |
| GameController.CompleteLevel | backend/controllers/gameController.js:215-227 | the next level becomes current with levels 1 to it unlocked, points and trophies are added, and the level's state is stored |
| GameController.ScoredFacts | backend/controllers/gameController.js:204-275 | under the scoring rules the level advances exactly when the answer is correct, and then the reply is `Solved`; the attempt is counted on the current level and no other; the level is solved when right and failed after a third wrong attempt; the score never drops and trophies stay non-negative |
| GameController.ScoreAttempt | backend/controllers/gameController.js:204-275 | the new session view and the reply are the scoring rules `Scored` applied to the old view: a correct answer adds `PointsEarned` and `TrophiesAwarded`, keeps the best score, marks the level solved and unlocks the next; a wrong third or later attempt fails the level and reveals the solution; an earlier wrong one costs a trophy down to 0; nothing else changes |
| GameController.ScoreSolved | backend/controllers/gameController.js:208-240 | a correct answer: the whole new view and reply are `Scored` for a correct attempt |
| GameController.ScoreFailed | backend/controllers/gameController.js:242-257 | a wrong third or later attempt: the whole new view and reply are `Scored` for a failed level |
| GameController.ScoreRetry | backend/controllers/gameController.js:259-273 | an earlier wrong attempt: the whole new view and reply are `Scored` for a retry |
| GameController.SubmitAnswer | backend/controllers/gameController.js:174-283 | only the current level is accepted, with a missing level state generated first; the whole new session view and the reply are `Scored` applied to the old view, the level's state and `checkAnswer`'s verdict; another level changes nothing |
| GameController.GetHint | backend/controllers/gameController.js:388-453 | once per current level, shows one part of the stored solution and deducts min(20, score); repeats, missing levels and solutions without parts change nothing |
| GameController.QuitLevel | backend/controllers/gameController.js:455-505 | only the current level's state changes: it is marked quit, and the reply reveals its solution |
| GameController.PauseGame | backend/controllers/gameController.js:285-306 | only the paused flag changes, to true |
| GameController.ResumeGame | backend/controllers/gameController.js:308-333 | only the paused flag changes, to false; the reply summarises the session |
| BattleController.TimeRemaining | backend/controllers/battleController.js:216 | never negative; equal to limit minus elapsed seconds whenever positive |
| BattleController.TimedOutMeansNoTimeLeft | backend/controllers/battleController.js:112 | the submit handler's time-out test implies no time remains, and time remaining implies the deadline has not passed |
| BattleController.BattleAttemptsRemaining | backend/controllers/battleController.js:188 | 3 − (attempts mod 3) for non-negative counts: between 1 and 3, and 3 exactly when the count is a multiple of 3 |
| BattleController.SetBattleStatus | backend/controllers/battleController.js:84-88 | only the session's battle status, battle id and opponent change |
| BattleController.LeaveBattle | backend/controllers/battleController.js:164-172 | the score grows by the gain, trophies are set, and the session goes idle with no battle id |
| BattleController.FindOpponent | backend/controllers/battleController.js:10-100 | a player in battle gets their battle id back unchanged; with no opponent the player waits; on a match both sessions point at a new active, public 30-second battle at the lower level, each naming the other |
| BattleController.CancelBattleSearch | backend/controllers/battleController.js:228-253 | only a waiting player stops waiting, and only the status changes |
| BattleController.ExpireBattle | backend/controllers/battleController.js:112-138 | the battle becomes a completed draw with no winner, and both players go idle |
| BattleController.WinnerView | backend/controllers/battleController.js:160-165 | the winner's view gains 200 points and 10 trophies and goes idle with no battle id; nothing else changes |
| BattleController.LoserView | backend/controllers/battleController.js:168-173 | the loser's trophies drop by 5 but not below 0, and it goes idle with no battle id; nothing else changes |
| BattleController.RewardWin | backend/controllers/battleController.js:152-180 | the winner's session becomes `WinnerView` and the loser's `LoserView` of their old views; a missing winner or loser is a server error after the other's update; a player who is both gets both updates |
| BattleController.CountAttempt | backend/controllers/battleController.js:141-144 | only the submitter's counter grows by 1; anyone who is not player 1 counts as player 2 |
| BattleController.CloseAsWin | backend/controllers/battleController.js:152-157 | the battle becomes completed, won by the submitter; nothing else changes |
| BattleController.PlayAttempt | backend/controllers/battleController.js:141-189 | the attempt is counted for the submitter; a correct one closes the battle as the submitter's win and gives both sessions the win and loss rewards; a wrong one reports 3 − (attempts mod 3) and changes no session |
| BattleController.SubmitBattleAnswer | backend/controllers/battleController.js:103-198 | an ended battle changes nothing; past the limit it is a draw, both players go idle and no other session changes; otherwise the attempt is counted, a correct answer completes the battle with the rewards, and a wrong one changes only the counter |
| BattleController.CheckBattleStatus | backend/controllers/battleController.js:201-225 | the reply is the battle's status, result, winner, the other player's attempts and the non-negative time left |
| BattleController.CreateFriendlyBattle | backend/controllers/battleController.js:256-311 | a pending, public 60-second battle on a fresh puzzle at the lower level, with the creator waiting for the friend |
| BattleController.AcceptBattleInvitation | backend/controllers/battleController.js:314-363 | only the invited player of a pending battle can accept, and a refusal changes nothing; the battle becomes active from now; the acceptor's whole new view is its old one in battle against player 1 with this battle's id; of player 1's session only the status changes, to in battle; a missing acceptor session is a server error |
| BattleController.AddSpectator | backend/controllers/battleController.js:382-385 | the user is in the list afterwards, appended once and never twice, and no one else is added |
| BattleController.AddSpectatorKeepsUnique | backend/controllers/battleController.js:382-385 | joining keeps the list free of duplicates, and joining twice is joining once |
| BattleController.JoinAsBattleSpectator | backend/controllers/battleController.js:366-407 | a private battle refuses, an inactive one is only reported, and an active public one takes the user as a spectator once |
| ClientCheck.DigitsInOrderPassesServer | frontend/src/components/Homepagecomp/Gameplay.jsx:185-190 | an answer that passes the page's in-order digit check against a puzzle of digits 1-9 also passes the server's `validateNumbers` |
| ClientCheck.ServerIgnoresOrder | backend/controllers/gameController.js:35-41 | the converse fails: `2+1` passes the server for puzzle 1, 2 but not the page's order check |
| ClientCheck.Strip | frontend/src/components/Homepagecomp/Gameplay.jsx:228-230 | the sanitizer never lengthens the text and leaves only allowed characters (`^` only on the timed page) |
| ClientCheck.SanitizersAgree | frontend/src/components/Homepagecomp/Gamepage.jsx:137 | the practice page's order (`^` to `**`, then strip) and the timed page's (strip, then `^` to `**`) give the same text |
| ClientCheck.StripKeepsCaret | frontend/src/components/Homepagecomp/Gameplay.jsx:229 | `^` survives the timed page's strip |
| ClientCheck.CaretMakesDoubleOperator | frontend/src/components/Homepagecomp/Gameplay.jsx:230-234 | writing `^` as `**` puts two operators in a row, which the pre-filter rejects |
| ClientCheck.Judge | frontend/src/components/Homepagecomp/Gameplay.jsx:193-258 | digits out of order exactly give "digits misused"; in-order digits equal to the number exactly give "bare number"; "invalid" exactly when the remaining answers fail the syntax pre-filter or have no value; a value is reported only for answers that pass the pre-filter, as the value of the sanitized text, and it is "correct" exactly when within 1e-6 of 100 |
| ClientCheck.CaretNeverEvaluated | frontend/src/components/Homepagecomp/Gameplay.jsx:228-243 | an answer containing `^` never gets a value on either page |
| ClientCheck.PagesAgree | frontend/src/components/Homepagecomp/Gamepage.jsx:137-140 | the practice page's missing `)(` rule changes no verdict: both pages judge every answer alike |
| ClientCheck.ClearedIsBare | frontend/src/components/Homepagecomp/Gameplay.jsx:178-182 | an answer of only the puzzle's digits is judged "insert operators" |
| ClientCheck.HundredPassesServerDigits | frontend/src/components/Homepagecomp/Gameplay.jsx:185-190 | a page accepts only answers whose digits the server accepts too |
| ClientCheck.InsertKeepsDigits | frontend/src/components/Homepagecomp/Gameplay.jsx:161-176 | inserting text without digits at the caret keeps the digit check's outcome |
| Gameplay.RulesFor | frontend/src/components/Homepagecomp/Gameplay.jsx:11-16 | every table penalises, defaults to 0 points, gives at least 5 points on the first attempt and positive points only for attempts 1-4 |
| Gameplay.CalculateScore | frontend/src/components/Homepagecomp/Gameplay.jsx:11-22 | the table's points: 6, 4, 3, 1 for 120 seconds; 7, 4, 2 for 85; 9, 5, 3 for 45; 5, 3, 1 for any other limit; 0 for an attempt the table does not list |
| Gameplay.ScoreNonIncreasing | frontend/src/components/Homepagecomp/Gameplay.jsx:11-22 | a later attempt never scores more |
| Gameplay.Penalty | frontend/src/components/Homepagecomp/Gameplay.jsx:11-26 | a loss of 2 trophies for 85 seconds, 5 for 45, and 1 for 120 and any other limit |
| Gameplay.FormatTime | frontend/src/components/Homepagecomp/Gameplay.jsx:27-33 | the text is digits, a colon and two digits below 60; reading it back gives the seconds |
| Gameplay.SliceSizes | frontend/src/components/Homepagecomp/Gameplay.jsx:36-41 | the first two slices fit in the list; with fewer than three puzzles all go to the first; otherwise the three slices are non-empty thirds, the earlier ones at most one larger than the last |
| Gameplay.LevelSlice | frontend/src/components/Homepagecomp/Gameplay.jsx:42-46 | a slice exists exactly for 120, 85 and 45 seconds, and holds only listed puzzles |
| Gameplay.SlicesPartition | frontend/src/components/Homepagecomp/Gameplay.jsx:36-46 | the three slices, joined in order, are the whole list |
| Gameplay.PuzzleList | frontend/src/components/Homepagecomp/Gameplay.jsx:47-62 | never empty; the limit's slice when it exists and is non-empty, the fallback list `["123456"]` otherwise; a known limit on a list of at least three uses its slice |
| Gameplay.TimedBoard.constructor | frontend/src/components/Homepagecomp/Gameplay.jsx:57-86 | the limit is the route's (120 when missing or 0), the puzzles are its list, a first puzzle is drawn, the countdown is full and the trophy total is the saved one |
| Gameplay.TimedBoard.GenerateNewNumber | frontend/src/components/Homepagecomp/Gameplay.jsx:114-132 | a new puzzle from the list, the expression reset to its digits, attempts and scores cleared, the countdown full, and the page invariant kept |
| Gameplay.TimedBoard.Tick | frontend/src/components/Homepagecomp/Gameplay.jsx:88-110 | counts down only while time is left and the puzzle is unsolved; the last second ends the game with no points |
| Gameplay.TimedBoard.InsertOperator | frontend/src/components/Homepagecomp/Gameplay.jsx:161-176 | while active, the selection is replaced by the operator and the caret goes after it; otherwise nothing changes |
| Gameplay.TimedBoard.ClearOperators | frontend/src/components/Homepagecomp/Gameplay.jsx:178-182 | while active, the expression becomes the bare number, which the check answers with "insert operators" |
| Gameplay.TimedBoard.HandleExpressionChange | frontend/src/components/Homepagecomp/Gameplay.jsx:293-297 | typing changes the expression only while the game is active |
| Gameplay.TimedBoard.ToggleGeneralHint | frontend/src/components/Homepagecomp/Gameplay.jsx:306-309 | only the hint flag flips |
| Gameplay.TimedBoard.CheckExpression | frontend/src/components/Homepagecomp/Gameplay.jsx:193-290 | while active, the attempt is counted; every error and wrong value costs the penalty, clamped at 0; the bare number costs nothing; 100 wins `calculateScore` points and ends the game |
| Gameplay.TimedBoard.ApplyVerdict | frontend/src/components/Homepagecomp/Gameplay.jsx:203-285 | each verdict's message, result, correct flag and trophy change, with the page invariant kept |
| Gamepage.FormatClock | frontend/src/components/Homepagecomp/Gamepage.jsx:18-28 | `h:mm:ss` with minutes and seconds below 60; reading it back gives the seconds |
| Gamepage.WithFallback | frontend/src/components/Homepagecomp/Gamepage.jsx:12-15 | never empty, and a non-empty list is kept as it is |
| Gamepage.PuzzleListIsDigits | frontend/src/components/Homepagecomp/Gamepage.jsx:6-15 | the page's list is the hand-written one, and every puzzle on it is a string of digits |
| Gamepage.PracticeBoard.constructor | frontend/src/components/Homepagecomp/Gamepage.jsx:32-41 | the first puzzle is drawn, with no attempts and the clock running from 0 |
| Gamepage.PracticeBoard.Tick | frontend/src/components/Homepagecomp/Gamepage.jsx:43-52 | the clock advances one second only while it runs |
| Gamepage.PracticeBoard.GenerateNewNumber | frontend/src/components/Homepagecomp/Gamepage.jsx:54-76 | a new puzzle, its digits as the expression, no attempts, and the clock restarted from 0 |
| Gamepage.PracticeBoard.InsertOperator | frontend/src/components/Homepagecomp/Gamepage.jsx:91-105 | the selection is replaced by the operator and the caret goes after it |
| Gamepage.PracticeBoard.ClearOperators | frontend/src/components/Homepagecomp/Gamepage.jsx:107-119 | the expression becomes the bare number, which the check answers with "insert operators" |
| Gamepage.PracticeBoard.HandleExpressionChange | frontend/src/components/Homepagecomp/Gamepage.jsx:167 | only the expression changes |
| Gamepage.PracticeBoard.ToggleGeneralHint | frontend/src/components/Homepagecomp/Gamepage.jsx:184 | only the hint flag flips |
| Gamepage.PracticeBoard.CheckExpression | frontend/src/components/Homepagecomp/Gamepage.jsx:126-165 | the attempt is always counted; 100 stops the clock and reports the time taken; any other verdict leaves the puzzle unsolved |
| Gamepage.PracticeBoard.ApplyVerdict | frontend/src/components/Homepagecomp/Gamepage.jsx:141-164 | each verdict's message, result and correct flag, with the page invariant kept |
| PuzzleData.Dedup | frontend/src/components/puzzleData.js:33 | no repeats, no longer than the input, and exactly the input's strings |
| PuzzleData.LexTotal | frontend/src/components/puzzleData.js:33 | the default string order compares any two strings |
| PuzzleData.InsertLex | frontend/src/components/puzzleData.js:33 | inserting into a sorted list keeps it sorted and adds exactly that one string |
| PuzzleData.SortLex | frontend/src/components/puzzleData.js:33 | the default sort yields a sorted permutation |
| PuzzleData.NoRepeatsByCount | frontend/src/components/puzzleData.js:33 | a list has no repeats exactly when each string occurs at most once in its multiset |
| PuzzleData.UniqueSorted | frontend/src/components/puzzleData.js:33 | no repeats, sorted, and exactly the strings of the input |
| PuzzleData.JoinSixDigits | frontend/src/components/puzzleData.js:28-30 | joining two lists of six-digit strings gives one |
| PuzzleData.AllSolvableNumbersFacts | frontend/src/components/puzzleData.js:4-36 | the exported list has no repeats, is sorted, holds exactly the strings of the two source lists, and each is a six-digit puzzle |
| Leaderboard.FilterMatching | frontend/src/components/Homepagecomp/Leaderboard.jsx:32 | the matching players, and only them |
| Leaderboard.FilterCounts | frontend/src/components/Homepagecomp/Leaderboard.jsx:32 | each matching player is kept as often as it occurs, and every other one is dropped |
| Leaderboard.InsertByScore | frontend/src/components/Homepagecomp/Leaderboard.jsx:33 | inserting into an ordered list keeps it ordered and adds exactly that one player |
| Leaderboard.SortByScore | frontend/src/components/Homepagecomp/Leaderboard.jsx:33 | the result is ordered by score in the chosen direction |
| Leaderboard.SortPermutes | frontend/src/components/Homepagecomp/Leaderboard.jsx:33 | the sort is a permutation |
| Leaderboard.SortIsStable | frontend/src/components/Homepagecomp/Leaderboard.jsx:33 | players with equal scores keep their relative order |
| Leaderboard.FilteredPlayers | frontend/src/components/Homepagecomp/Leaderboard.jsx:31-34 | at most fifty players, each a matching player from the list, ordered by score |
| Leaderboard.FilteredPlayersAllWhenFew | frontend/src/components/Homepagecomp/Leaderboard.jsx:31-34 | with at most fifty matches, every match is listed as often as it occurs |
| Leaderboard.FilteredPlayersBest | frontend/src/components/Homepagecomp/Leaderboard.jsx:31-34 | with more than fifty matches, exactly fifty are listed, and no left-out match ranks strictly before a listed one |
| Leaderboard.EveryMatchListed | frontend/src/components/Homepagecomp/Leaderboard.jsx:31-34 | with at most fifty matches, every matching player is listed |
| Leaderboard.SearchIgnoresCase | frontend/src/components/Homepagecomp/Leaderboard.jsx:32 | the search gives the same answer for a search text and its lower-cased form |
| Leaderboard.RankOf | frontend/src/components/Homepagecomp/Leaderboard.jsx:87 | a medal for the first three rows, then the one-based position |
| Leaderboard.RanksDistinct | frontend/src/components/Homepagecomp/Leaderboard.jsx:87 | different rows never share a rank label |
| Leaderboard.ToggleSort | frontend/src/components/Homepagecomp/Leaderboard.jsx:25 | the toggle always flips the direction |
| Leaderboard.ToggleTwice | frontend/src/components/Homepagecomp/Leaderboard.jsx:25 | toggling twice restores the direction |
| Leaderboard.ToggleReversesOrder | frontend/src/components/Homepagecomp/Leaderboard.jsx:25 | toggling reverses the comparison between players with different scores |
| PlayWithFriend.NameTaken | frontend/src/components/Homepagecomp/Playwithfriend.jsx:85 | true exactly when some trainer's name equals the given one, ignoring case |
| PlayWithFriend.Find | frontend/src/components/Homepagecomp/Playwithfriend.jsx:73 | the first trainer with the selected id, or none exactly when nothing is selected or no trainer has that id |
| PlayWithFriend.ToggleSelection | frontend/src/components/Homepagecomp/Playwithfriend.jsx:104-107 | selecting the selected trainer clears the selection; any other id becomes the selection |
| PlayWithFriend.SelectTwice | frontend/src/components/Homepagecomp/Playwithfriend.jsx:104-107 | selecting the same trainer twice restores the selection if it was that trainer, and clears it otherwise |
| PlayWithFriend.Flip | frontend/src/components/Homepagecomp/Playwithfriend.jsx:62-66 | a round of the simulation keeps id and name, and flips the online flag unless the draw keeps it |
| PlayWithFriend.FlipAll | frontend/src/components/Homepagecomp/Playwithfriend.jsx:62-66 | each trainer is flipped with its own draw, in order |
| PlayWithFriend.FlipAllKeepsNames | frontend/src/components/Homepagecomp/Playwithfriend.jsx:59-71 | the simulation keeps every id and name, and so keeps the names unique |
| PlayWithFriend.AppendKeepsNames | frontend/src/components/Homepagecomp/Playwithfriend.jsx:93-100 | appending a trimmed name that is not taken keeps the names unique and trimmed |
| PlayWithFriend.FriendLobby.SelectedTrainer | frontend/src/components/Homepagecomp/Playwithfriend.jsx:73 | a selected trainer is on the list and carries the selected id |
| PlayWithFriend.FriendLobby.constructor | frontend/src/components/Homepagecomp/Playwithfriend.jsx:12-18 | the lobby starts with no trainers, no selection and no battle |
| PlayWithFriend.FriendLobby.SetUsername | frontend/src/components/Homepagecomp/Playwithfriend.jsx:231 | only the input text changes |
| PlayWithFriend.FriendLobby.AddTrainer | frontend/src/components/Homepagecomp/Playwithfriend.jsx:76-102 | an empty trimmed name is refused and the input kept; a name taken regardless of case is refused and the input cleared; any other name is appended; names stay unique |
| PlayWithFriend.FriendLobby.SubmitName | frontend/src/components/Homepagecomp/Playwithfriend.jsx:80-100 | the same three outcomes once the input is trimmed |
| PlayWithFriend.FriendLobby.Register | frontend/src/components/Homepagecomp/Playwithfriend.jsx:93-100 | the trainer is appended and the lobby invariant kept |
| PlayWithFriend.FriendLobby.ClearAddMessage | frontend/src/components/Homepagecomp/Playwithfriend.jsx:101 | only the message is cleared |
| PlayWithFriend.FriendLobby.SelectTrainer | frontend/src/components/Homepagecomp/Playwithfriend.jsx:104-107 | ignored during a battle, otherwise the selection toggles |
| PlayWithFriend.FriendLobby.StartBattle | frontend/src/components/Homepagecomp/Playwithfriend.jsx:109-117 | only a selected online trainer, and only with no battle running, becomes the opponent; the selection is cleared |
| PlayWithFriend.FriendLobby.Challenge | frontend/src/components/Homepagecomp/Playwithfriend.jsx:109-117 | the same once the selected trainer is looked up |
| PlayWithFriend.FriendLobby.EndBattle | frontend/src/components/Homepagecomp/Playwithfriend.jsx:119-124 | only during a battle: the battle ends and the opponent is cleared |
| PlayWithFriend.FriendLobby.SimulateStatus | frontend/src/components/Homepagecomp/Playwithfriend.jsx:59-71 | only the online flags change, each by its own draw, and the lobby invariant is kept |

## Left out

- **Floating point.** Evaluation uses exact rationals, not IEEE doubles.
  - Rounding, overflow to `Infinity` and non-integer exponents (`Apply` gives no value for them) are not modelled.
  - So a candidate that is 100 only after double rounding is judged by its exact value.
- **Decimal points on the client pages.** The pages keep `.`. Number literals with a fraction or an exponent are not part of the grammar, so an answer using `.` is judged as having no value. Comments (`//`, `/*`) in an answer are likewise treated as giving no value.
- **The restart loop in `generateNumbersWithSolution`.**
  - It is modelled as one pass over a given draw `drawn`.
  - Callers require the draw on which the loop stops (`Solvable`), so termination of the unbounded loop is not claimed.
- **Generator laziness.** `permute` is computed in full. On success, `currentNumbers` is set to the yielded copy, which is the state the abandoned generator leaves.
- **Randomness, clocks and ids.** `Math.random`, `Date.now()` and `uuid` become parameters: `drawn`, `pick`, `keep`, `online`, `now`, `battleId`.
- **Storage.**
  - MongoDB queries, saves and their failure paths (HTTP 500 on a thrown error) are not modelled.
  - Each query's result is a parameter.
  - `localStorage` is not modelled, except as the saved trophy total passed to the timed page.
- **Fields outside the session schema.** `battleStatus`, `battleId`, `opponentId` (session) and `hintUsed` (level state) are not in the Mongoose schema. The model gives them the meaning the controllers use.
- **Level numbers.** They are integers. The source's string levels, `parseInt` and `NaN` are not modelled.
- **Other handlers.** `getAllLevels`, `getProfile`, `getBattleUpdates` and `getShareableBattleLink` in the controllers are not part of this model, and neither are the socket handlers, authentication and the leaderboard controller.
- **Concurrency.** Interleaved requests on the same session or battle are not modelled; each handler runs to completion.
- **UI effects.** These are not modelled:
  - confetti, input focus, caret placement via `setSelectionRange`, navigation, page styling;
  - message wording (messages are a datatype);
  - console logging.
- **Timers.**
  - The timed page's interval and effect are modelled as `Tick` and the `gameActive` rule folded into the handlers.
  - The practice page's interval is modelled as `Tick` and the `timerRunning` flag.
  - The friend lobby's `setTimeout` is the separate method `ClearAddMessage`.
- Gameplay.FormatTime: only non-negative seconds are modelled. A negative time limit in the route, such as `-5`, starts the countdown below zero, and the page then shows the unformatted `-1:-5`; that text is not modelled.
- Gamepage.FormatClock: only non-negative seconds are modelled. The practice clock counts up from 0, so it never needs more.
- **Leaderboard data.** The page's fixed sample players and their avatars are not modelled; the player list is a parameter.
- Text.Lower: only `A`-`Z` are folded, where JavaScript's `toLowerCase` folds every cased Unicode letter. So `PlayWithFriend.NameTaken` and `FriendLobby.AddTrainer` treat two names that differ only in a non-ASCII letter's case (`É` and `é`) as different names, where the page treats them as the same. The leaderboard search likewise misses such a match.
- **Statements in the server's `eval`.** `validateExpression` hands the answer to `eval`, which runs a whole script. The model reads one expression only.
  - A line break can end a statement, so `1*2*3` and `5*5*4` on two lines is worth 100 in JavaScript, the value of the last statement; the model finds two operands side by side and no value.
  - `;`, `,` (the comma operator), decimal fractions, exponents (`1e2`) and hexadecimal literals are accepted by `eval`; the model judges every answer using them as having no value, so `checkAnswer` is `false` there.
- Arith.Evaluate, Puzzle.CheckAnswer, ClientCheck.Judge: a division by zero anywhere in the text makes it worthless, while JavaScript carries on with `Infinity` and a later operation can absorb it. On the drawing [5,5,4,1,1,1] the answer `5*5*4*1*1+0/(1/0)` is 100 in JavaScript and passes the `/[1-9]/g` digit check (the zeros are ignored), so `checkAnswer` and both pages accept it; the model rejects it.
- Puzzle.MathPuzzleGame.GenerateNumbersWithSolution: the numbers it leaves are modelled as a fresh array. The array the generator swaps in place is the one `Permute` works on.
