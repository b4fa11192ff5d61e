/** Round evaluation of the rock-paper-scissors game: the 3x3 outcome table
    over the move names, and the mapping from a random integer to the
    opponent's move. Moves travel through the game as strings (a button's
    id), so the model works on strings and keeps the fallthrough cases. */
module Round {

  /** A JavaScript value that may be `undefined`: `None` is `undefined`. */
  datatype Option<T> = None | Some(value: T)

  const ROCK: string := "rock"
  const PAPER: string := "paper"
  const SCISSORS: string := "scissors"

  /** The three strings the evaluator recognises. */
  predicate IsMove(s: string) {
    s == ROCK || s == PAPER || s == SCISSORS
  }

  /** The result of a round for the player: 1 won, -1 lost, 0 tied;
      `None` when the player's selection is not a move name.
      An unknown opponent selection against a valid player move falls into
      the final else-branch of each case and counts as a tie. */
  function EvaluateRound(player: string, computer: string): (r: Option<int>)
    ensures r.None? <==> !IsMove(player)
    ensures r.Some? ==> -1 <= r.value <= 1
    ensures IsMove(player) && !IsMove(computer) ==> r == Some(0)
  {
    if player == ROCK then
      if computer == PAPER then Some(-1)
      else if computer == SCISSORS then Some(1)
      else Some(0)
    else if player == PAPER then
      if computer == SCISSORS then Some(-1)
      else if computer == ROCK then Some(1)
      else Some(0)
    else if player == SCISSORS then
      if computer == ROCK then Some(-1)
      else if computer == PAPER then Some(1)
      else Some(0)
    else
      None
  }

  /** The opponent's move chosen from an integer: 0 is rock, 1 is paper and
      every other integer is scissors. `getComputerChoice` draws the integer as
      floor(random * 3), so it lies in 0..2. */
  function ComputerChoice(num: int): (m: string)
    ensures IsMove(m)
    ensures m == ROCK <==> num == 0
    ensures m == PAPER <==> num == 1
    ensures m == SCISSORS <==> num != 0 && num != 1
  {
    if num == 0 then ROCK
    else if num == 1 then PAPER
    else SCISSORS
  }

  /** Each of the three integers the random draw can produce gives a
      different move, and every move is produced by one of them; so a
      uniform draw over 0..2 gives a uniform move. */
  lemma ComputerChoiceIsBijectionOnDraws()
    ensures forall i, j :: 0 <= i < 3 && 0 <= j < 3 && i != j ==> ComputerChoice(i) != ComputerChoice(j)
    ensures forall m :: IsMove(m) ==> exists i :: 0 <= i < 3 && ComputerChoice(i) == m
  {
    forall m | IsMove(m) ensures exists i :: 0 <= i < 3 && ComputerChoice(i) == m {
      if m == ROCK {
        assert ComputerChoice(0) == m;
      } else if m == PAPER {
        assert ComputerChoice(1) == m;
      } else {
        assert ComputerChoice(2) == m;
      }
    }
  }

  // ---------------------------------------------------------------------
  // Reference definition: the cyclic-dominance table over enumerated moves

  datatype Move = Rock | Paper | Scissors

  function Name(m: Move): (s: string)
    ensures IsMove(s)
  {
    match m
    case Rock => ROCK
    case Paper => PAPER
    case Scissors => SCISSORS
  }

  /** Rock beats scissors, scissors beats paper, paper beats rock. */
  predicate Beats(a: Move, b: Move) {
    (a == Rock && b == Scissors) || (a == Scissors && b == Paper) || (a == Paper && b == Rock)
  }

  /** The outcome for the player who plays `a` against `b`. */
  function Outcome(a: Move, b: Move): int {
    if a == b then 0 else if Beats(a, b) then 1 else -1
  }

  /** The evaluator agrees with the dominance table on all nine pairs of
      valid moves. */
  lemma EvaluateRoundMatchesTable(a: Move, b: Move)
    ensures EvaluateRound(Name(a), Name(b)) == Some(Outcome(a, b))
  {
  }

  /** Equal valid selections tie. */
  lemma SameMoveTies(s: string)
    requires IsMove(s)
    ensures EvaluateRound(s, s) == Some(0)
  {
  }

  /** The three winning pairs give 1 and their reversals give -1. */
  lemma WinningPairs()
    ensures EvaluateRound(ROCK, SCISSORS) == Some(1) && EvaluateRound(SCISSORS, ROCK) == Some(-1)
    ensures EvaluateRound(PAPER, ROCK) == Some(1) && EvaluateRound(ROCK, PAPER) == Some(-1)
    ensures EvaluateRound(SCISSORS, PAPER) == Some(1) && EvaluateRound(PAPER, SCISSORS) == Some(-1)
  {
  }

  /** Swapping two distinct valid selections negates the result, and two
      valid selections always give a defined result in {-1, 0, 1}. */
  lemma EvaluateRoundAntisymmetric(a: string, b: string)
    requires IsMove(a) && IsMove(b)
    ensures EvaluateRound(a, b).Some? && EvaluateRound(b, a).Some?
    ensures a != b ==> EvaluateRound(a, b).value == -EvaluateRound(b, a).value
    ensures a != b ==> EvaluateRound(a, b).value != 0
  {
  }

  /** The fallthrough cases, collected in one place for readers (they follow
      from the contract of `EvaluateRound`): an unrecognised player selection
      gives `undefined` whatever the opponent chose; a recognised one against
      an unrecognised opponent selection gives 0. */
  lemma UnknownSelections(player: string, computer: string)
    ensures !IsMove(player) ==> EvaluateRound(player, computer) == None
    ensures IsMove(player) && !IsMove(computer) ==> EvaluateRound(player, computer) == Some(0)
  {
  }
}
