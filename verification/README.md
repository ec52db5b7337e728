# Crafting simulator model

A Dafny model of the simulator in `src/App.tsx`. The simulator has a board of three
slots, A, B and C. Each slot holds at most ten outcomes, and each outcome is a success
or a fail. Every attempt succeeds with the current probability. That probability
starts at 75 and moves down by 10 after a success and up by 10 after a failure. It is
clamped to the band from 25 to 75.

The player can cut a slot by hand or reset the board. The player can also let a move
heuristic fill a whole board, either once or in a batch of up to 2000 runs. A batch
stops at the first board that meets the chosen strategy's target:

- "77": at least seven successes in A and in B, and at most four in C.
- "16": at least sixteen successes across A and B, at most four in C, and not eight in
  each.

The model has four modules:

- `Board` (`board.dfy`) holds the pure data:
  - the outcomes, the slots and the board;
  - the outcome counter `GetCounts`;
  - the probability step `NextProb`;
  - the single attempt `Attempt` that both the manual cut and the automated runs
    perform.
- `Strategies` (`strategy.dfy`) holds the strategy evaluator `CheckSuccess` and the
  move heuristic `NextMove`.
- `Simulation` (`simulation.dfy`) holds the automated runs:
  - `Run` is the functional specification of one run.
  - `SimulateOneStone` is the loop that performs one run.
  - `Batch` is the loop of `runFullAuto`, which performs up to 2000 runs.
- `App` (`app.dfy`) holds the `AppState` class. Its fields are the probability, the
  board, the attempt count and the status line. Its methods model the four
  handlers.

Randomness is injected:

- A manual cut receives the roll it draws.
- Automated runs read a sequence of rolls. Run k of a batch reads the 30 draws that
  start at position 30k, because every run takes exactly 30 draws.

## Model

| member | source | states |
|---|---|---|
| Board.Count | src/App.tsx:24-28 | the number of entries equal to an outcome never exceeds the history's length |
| Board.CountPositions | src/App.tsx:24-28 | the count equals the number of positions holding that outcome, which is the length of the filtered history |
| Board.CountPartition | src/App.tsx:24-28 | the success, fail and unset counts add up to the length |
| Board.CountZero | src/App.tsx:24-28 | a count is zero if and only if the outcome does not occur |
| Board.CountAll | src/App.tsx:24-28 | a count equals the length if and only if every entry is that outcome |
| Board.CountAppend | src/App.tsx:55-58 | appending an outcome raises its own count by one and leaves every other count unchanged |
| Board.GetCounts | src/App.tsx:24-28 | the counter reports the history's length; successes plus fails plus unset entries equal that length |
| Board.CountsAddUp | src/App.tsx:24-28 | successes plus fails never exceed the length, and equal it when no entry is unset |
| Board.Stones.Append | src/App.tsx:55-58 | the chosen slot gains exactly the new outcome at its end, and the other two slots are unchanged |
| Board.AppendCounts | src/App.tsx:55-58 | after an append the slot's success and fail counts move by exactly the appended outcome, its length grows by one, and the other slots' success counts are unchanged |
| Board.OutcomeOf | src/App.tsx:52-53 | the recorded outcome is never unset, and it is a success exactly when the attempt succeeded |
| Board.NextProb | src/App.tsx:60-66 | the step keeps the probability within the band 25, 35, ..., 75 |
| Board.NextProbMoves | src/App.tsx:60-66 | inside the band a success lowers the probability by 10 unless it is at 25, and a failure raises it by 10 unless it is at 75 |
| Board.NextProbUndo | src/App.tsx:134-138 | a success followed by a failure, or a failure followed by a success, restores the probability unless the first step was clamped |
| Board.InBandValues | src/App.tsx:60-66 | the band is exactly the six values 25, 35, 45, 55, 65 and 75 |
| Board.Attempt | src/App.tsx:125-138 | one attempt records exactly one more outcome, and it keeps a sound state sound when the slot is not full |
| Board.AttemptRecords | src/App.tsx:125-138 | the slot gains a success when the roll is below the probability and a fail otherwise; other slots are unchanged; the probability moves by that outcome |
| Strategies.CheckSuccess | src/App.tsx:30-46 | a board that meets either target has at most four successes in C and at least fourteen across A and B |
| Strategies.CheckSuccessCounts | src/App.tsx:30-46 | in terms of the outcome counter, "77" holds if and only if A >= 7, B >= 7 and C <= 4, and "16" holds if and only if A + B >= 16, C <= 4 and not A = B = 8 |
| Strategies.CheckSuccessExamples | src/App.tsx:38-43 | 8/8/0 fails "16", 9/7/0 meets "16", 7/7/4 meets "77" and 7/7/5 fails "77" |
| Strategies.MeetsMonotone | src/App.tsx:35-44 | more successes in A or B and fewer in C never turn a success into a failure, for both strategies |
| Strategies.NextMove | src/App.tsx:77-115 | the heuristic returns no move if and only if all three slots are full, and any slot it returns is not full |
| Strategies.NextMoveRules | src/App.tsx:90-112 | the rule order: at probability 45 or less an open C comes first; C is otherwise chosen only when A and B are full; "77" takes the open one of A and B when the other is full, and otherwise the one with fewer successes, ties going to A; "16" takes A while it is open, then B |
| Simulation.Run | src/App.tsx:121-139 | a run ends with every slot full, and it keeps the probability in the band |
| Simulation.RunExtends | src/App.tsx:129-132 | a run only appends: each slot history it starts from is a prefix of the one it ends with |
| Simulation.RunRecordsOutcomes | src/App.tsx:125-132 | a run adds no unset entry |
| Simulation.SimulateCounts | src/App.tsx:117-141 | after a whole run every slot's counter reports ten entries, and its successes plus fails equal ten |
| Simulation.SimulateOneStone | src/App.tsx:117-141 | the loop computes the run of the specification, takes exactly 30 iterations, and leaves every slot full with the probability in the band |
| Simulation.Batch | src/App.tsx:156-171 | it performs between 1 and 2000 runs; the stored run is the last one performed; success holds exactly when that run meets the target; every earlier run missed it; without success all 2000 runs were performed |
| App.AppState.constructor | src/App.tsx:14-21 | the initial state: probability 75, empty slots, no attempts, blank status |
| App.AppState.HandleCut | src/App.tsx:48-67 | a full slot leaves everything unchanged; otherwise the slot gains exactly one success or fail, decided by the roll against the old probability; the other slots are unchanged; the probability moves by that outcome; the state stays valid |
| App.AppState.HandleReset | src/App.tsx:69-74 | everything returns to the initial state |
| App.AppState.RunInstantAuto | src/App.tsx:143-154 | the board and probability become one whole run; the attempt count grows by one; the status is success exactly when that run meets the target |
| App.AppState.RunFullAuto | src/App.tsx:156-184 | the state becomes the last run of the batch; the attempt count is between 1 and 2000; the status is success exactly when that run meets the target, and it is a capped failure otherwise, which happens only after 2000 runs; every earlier run missed the target |

## Left out

- Rendering is not modelled: the JSX markup, `renderRow`, the CSS classes and the Korean status strings. The status line becomes the `Status` datatype.
- React's `useState` setters are modelled as plain field updates, one after another. Batched re-rendering is not modelled. In `handleCut` the outcome is decided from the rendered probability, while the step is applied to the setter's previous value. For one click these are the same value, and the model uses it for both.
- `Math.random() * 100` is a float. The model draws an integer roll in [0, 100) instead, and an attempt succeeds when the roll is below the probability. The probability is always an integer, so a float x succeeds exactly when the integer roll floor(x) does. The floating-point comparison itself is not modelled.
- The random stream is a finite sequence of rolls, and a draw past its end reads as 0. A batch reads at most 60000 draws, so every stream of draws is represented by its first 60000 entries.
- `getNextMove` ends with `return null` for a strategy other than "77" or "16". The model does not include it: the strategy is a closed two-value datatype, so that line cannot be reached.
- `getNextMove` and `checkSuccess` call `getCounts` on all three slots. The model reads the same two quantities directly: the slot's length, and its number of successes (`Count`). `Strategies.CheckSuccessCounts` proves that this reading agrees with `GetCounts`.
