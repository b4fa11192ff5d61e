# Rock-paper-scissors: round evaluation and score keeping

A model of the game logic of a browser rock-paper-scissors page
(`script.js`). The player clicks a move button. The opponent's move comes
from a random integer. `evaluateRound` scores the round as 1, -1 or 0 for
the player. The click handler then updates two global counters and hands the
scores to the display. Once either counter reaches `POINTS_TO_WIN` (5), both
are reset to 0.

- `round.dfy`, module `Round`: `evaluateRound` over move-name strings. The
  JavaScript `undefined` it returns for an unknown player selection is
  `Option.None`. The same module holds the integer-to-move mapping of
  `getComputerChoice`, and a reference definition of the game: an enumerated
  `Move`, the cyclic `Beats` relation and its `Outcome`. The evaluator is
  proved to agree with that reference on all nine pairs of valid moves.
- `game.dfy`, module `Game`: the score state machine. `Tally` is the
  increment and `Settle` the reset. `Run` applies a sequence of rounds.
  `MessageFor` is the headline decision of `updateGameText`. Class `Match`
  holds the two counters as fields. `PlayRound` is the update/report/reset
  part of the click handler. `HandleClick` is the whole handler with the DOM
  stripped away. The class invariant `Valid()` says both counters are in
  0..4 between rounds.

An unknown move is not rejected with an error. An unknown player selection
yields `undefined`, which the handler treats as no change and the display
shows as `ERROR`. A valid player selection against an unknown opponent
selection is a tie (0). `UnknownSelections` and `ErrorOnlyForUnknownButton`
state both behaviours.

## Model

| member | source | states |
|---|---|---|
| Round.EvaluateRound | script.js:69-110 | the result is `undefined` exactly when the player selection is not "rock", "paper" or "scissors"; a defined result lies in -1..1; a valid player selection against an unknown opponent selection gives 0 |
| Round.EvaluateRoundMatchesTable | script.js:69-110 | on every pair of valid moves the evaluator returns the reference outcome: 0 for equal moves, 1 when the player's move beats the opponent's (rock>scissors>paper>rock), -1 otherwise |
| Round.SameMoveTies | script.js:72-103 | equal valid selections give 0 |
| Round.WinningPairs | script.js:73-100 | rock/scissors, paper/rock and scissors/paper give 1; the reversed pairs give -1 |
| Round.EvaluateRoundAntisymmetric | script.js:69-110 | two valid selections always give a defined result; for distinct ones it is nonzero and swapping them negates it |
| Round.UnknownSelections | script.js:105-109 | an unknown player selection gives `undefined` whatever the opponent chose; a valid one against an unknown opponent selection gives 0 |
| Round.ComputerChoice | script.js:117-122 | the result is always a valid move; it is "rock" exactly for 0, "paper" exactly for 1 and "scissors" for every other integer |
| Round.ComputerChoiceIsBijectionOnDraws | script.js:118-121 | the draws 0, 1, 2 give three different moves and every move is one of them, so a uniform draw gives a uniform move |
| Game.Tally | script.js:31-44 | neither counter decreases, and the total of the two grows by exactly one for a result of 1 or -1 and by nothing for 0 or any other value |
| Game.Run | script.js:8-58 | over a sequence of handled rounds the total of the two counters grows by at most one per round (the reset only lowers it) |
| Game.Settle | script.js:55-58 | after the end-of-round check neither counter is at 5; the state is unchanged or (0, 0), and it changes exactly when a counter was at 5 |
| Game.MessageFor | script.js:143-165 | the win message exactly when the player has 5; the lose message exactly when the opponent has 5 and the player does not; otherwise the round message matches the result (1 won, -1 lost, 0 tie) and the error message appears exactly for any other result |
| Game.TallyChangesOneCounter | script.js:31-44 | a result of 1 adds one to the player's counter only, -1 to the opponent's only, anything else (0, `undefined`) changes neither |
| Game.RoundKeepsBelow | script.js:31-58 | from a state between rounds the reported scores are at most 5, not both 5, and the state after the reset is again in 0..4 |
| Game.RunStaysBelow | script.js:8-58 | from (0, 0), or any state in 0..4, every sequence of rounds leaves both counters in 0..4 |
| Game.MessageMatchesReset | script.js:52-58 | the reported scores are taken after the increment and before the reset: the final message appears exactly in the rounds after which the board is cleared to (0, 0); the error message appears exactly when the result is not 1, -1 or 0 |
| Game.ErrorOnlyForUnknownButton | script.js:28-52 | a click whose target id is not a move name shows the error message and leaves the scores unchanged; a click on a move button never shows it |
| Game.ExampleMatch | script.js:31-58 | the rounds won, won, tie, lost, won, won lead to 4-1; a further win reports 5-1 with the win message, then the board clears |
| Game.Match.constructor | script.js:8-9 | both counters start at 0 |
| Game.Match.PlayRound | script.js:31-58 | keeps both counters in 0..4 between rounds; the reported scores are the old ones after the increment for the result; the new state is those scores after the reset check |
| Game.Match.HandleClick | script.js:15-58 | keeps the invariant; the report carries the opponent's move for the drawn integer, the evaluator's result for the clicked id, the scores after the increment and the headline chosen from them; the new state is the reported scores after the reset check |

## Left out

- DOM lookups, the click listener's registration and the button colouring (script.js:3-5, 11-26): page wiring with no game rule in it.
- `removeAllChildNodes` and the element creation in `updateGameText` (script.js:136-141, 172-176): DOM mutation. Only the choice of headline is modelled (`MessageFor`), not its text.
- The text of the messages, including the scores formatted into them (script.js:144-164).
- `Math.random()` (script.js:118): the drawn integer is a parameter of `ComputerChoice` and `HandleClick`. That the draw is uniform over 0..2 is not modelled; only that the mapping is a bijection from 0..2 onto the moves.
- The player's move text in the round data, `target.innerText.toLowerCase()` (script.js:47): it depends on the browser's rendering and only feeds the message text.
- The counters are unbounded `nat`s. JavaScript numbers would lose precision only far above 5, which the reset never lets the counters reach.
