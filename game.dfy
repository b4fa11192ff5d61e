/** The score state machine of the click handler: two counters that a
    round's result increments, a report of the scores to the display, and a
    reset once either counter reaches the win threshold. */
module Game {
  import opened Round

  const POINTS_TO_WIN: nat := 5

  /** The pair of counters (player, opponent). */
  datatype Scores = Scores(player: nat, opponent: nat)

  /** Both counters below the threshold: the state between rounds. */
  predicate Below(s: Scores) {
    s.player < POINTS_TO_WIN && s.opponent < POINTS_TO_WIN
  }

  /** The score update of one round: 1 credits the player, -1 the opponent,
      0 and every other value (including `undefined`) change nothing. */
  function Tally(s: Scores, result: Option<int>): (t: Scores)
    ensures t.player >= s.player && t.opponent >= s.opponent
    ensures t.player + t.opponent
            == s.player + s.opponent + (if result in {Some(1), Some(-1)} then 1 else 0)
  {
    if result == Some(1) then s.(player := s.player + 1)
    else if result == Some(-1) then s.(opponent := s.opponent + 1)
    else s
  }

  /** The end-of-round check: the board clears once either side has won. */
  function Settle(t: Scores): (r: Scores)
    ensures r.player != POINTS_TO_WIN && r.opponent != POINTS_TO_WIN
    ensures r == t || r == Scores(0, 0)
    ensures r != t <==> t.player == POINTS_TO_WIN || t.opponent == POINTS_TO_WIN
  {
    if t.player == POINTS_TO_WIN || t.opponent == POINTS_TO_WIN then Scores(0, 0) else t
  }

  /** The counters after a sequence of handled rounds, one click each.
      A round adds at most one point in all and the reset only removes
      points, so the total grows by at most one per round. */
  function Run(s: Scores, results: seq<Option<int>>): (r: Scores)
    ensures r.player + r.opponent <= s.player + s.opponent + |results|
    decreases |results|
  {
    if results == [] then s else Run(Settle(Tally(s, results[0])), results[1..])
  }

  /** What the display headline announces. */
  datatype MessageKind = PlayerWon | PlayerLost | RoundWon | RoundLost | Tie | Error

  predicate IsFinal(k: MessageKind) {
    k == PlayerWon || k == PlayerLost
  }

  /** The headline chosen from the reported scores and the round's result:
      a final message when a counter is at the threshold (the player's
      checked first), otherwise one per result, and an error message for a
      result that is not 1, -1 or 0. */
  function MessageFor(result: Option<int>, player: int, opponent: int): (k: MessageKind)
    ensures k == PlayerWon <==> player == POINTS_TO_WIN
    ensures k == PlayerLost <==> player != POINTS_TO_WIN && opponent == POINTS_TO_WIN
    ensures !IsFinal(k) ==> (k == Error <==> result !in {Some(1), Some(-1), Some(0)})
    ensures k == RoundWon ==> result == Some(1)
    ensures k == RoundLost ==> result == Some(-1)
    ensures k == Tie ==> result == Some(0)
  {
    if player == POINTS_TO_WIN then PlayerWon
    else if opponent == POINTS_TO_WIN then PlayerLost
    else if result == Some(1) then RoundWon
    else if result == Some(-1) then RoundLost
    else if result == Some(0) then Tie
    else Error
  }

  /** A round changes exactly one counter, by one, when its result is 1 or
      -1, and neither counter otherwise. */
  lemma TallyChangesOneCounter(s: Scores, result: Option<int>)
    ensures result == Some(1) ==> Tally(s, result) == Scores(s.player + 1, s.opponent)
    ensures result == Some(-1) ==> Tally(s, result) == Scores(s.player, s.opponent + 1)
    ensures result != Some(1) && result != Some(-1) ==> Tally(s, result) == s
  {
  }

  /** From a state between rounds, the reported scores are at most the
      threshold and at most one of them reaches it; the state after the
      round is again between rounds. */
  lemma RoundKeepsBelow(s: Scores, result: Option<int>)
    requires Below(s)
    ensures Tally(s, result).player <= POINTS_TO_WIN && Tally(s, result).opponent <= POINTS_TO_WIN
    ensures !(Tally(s, result).player == POINTS_TO_WIN && Tally(s, result).opponent == POINTS_TO_WIN)
    ensures Below(Settle(Tally(s, result)))
  {
  }

  /** Starting between rounds, any sequence of rounds leaves both counters
      in 0..4; in particular from the initial (0, 0). */
  lemma {:induction false} RunStaysBelow(s: Scores, results: seq<Option<int>>)
    requires Below(s)
    ensures Below(Run(s, results))
    decreases |results|
  {
    if results != [] {
      RoundKeepsBelow(s, results[0]);
      RunStaysBelow(Settle(Tally(s, results[0])), results[1..]);
    }
  }

  /** The reported scores are those after the increment and before the
      reset: the final message is shown exactly in the rounds after which
      the board clears, and an error message only when the result was not
      1, -1 or 0. */
  lemma MessageMatchesReset(s: Scores, result: Option<int>)
    requires Below(s)
    ensures var t := Tally(s, result);
      IsFinal(MessageFor(result, t.player, t.opponent)) <==> Settle(t) != t
    ensures var t := Tally(s, result);
      IsFinal(MessageFor(result, t.player, t.opponent)) ==> Settle(t) == Scores(0, 0)
    ensures var t := Tally(s, result);
      MessageFor(result, t.player, t.opponent) == Error <==> result !in {Some(1), Some(-1), Some(0)}
  {
  }

  /** A click on something that is not a move button (its id is not a move
      name) shows the error message and leaves the scores alone; a click on a
      move button never does. */
  lemma ErrorOnlyForUnknownButton(s: Scores, targetId: string, num: int)
    requires Below(s)
    ensures var result := EvaluateRound(targetId, ComputerChoice(num));
      var t := Tally(s, result);
      MessageFor(result, t.player, t.opponent) == Error <==> !IsMove(targetId)
    ensures !IsMove(targetId) ==> Tally(s, EvaluateRound(targetId, ComputerChoice(num))) == s
  {
  }

  /** Five player wins from (0, 0), with a tie and an opponent win between
      them: the scores go 1-0, 2-0, 2-0, 2-1, 3-1, 4-1, the last round
      reports 5-1 with the winning message, and the board then clears. */
  lemma ExampleMatch()
    ensures var before := Run(Scores(0, 0), [Some(1), Some(1), Some(0), Some(-1), Some(1), Some(1)]);
      before == Scores(4, 1) &&
      Tally(before, Some(1)) == Scores(5, 1) &&
      MessageFor(Some(1), 5, 1) == PlayerWon &&
      Settle(Tally(before, Some(1))) == Scores(0, 0)
  {
  }

  /** What the click handler hands to the display. The player's move text
      (the button's inner text, lower-cased) is not modelled. */
  datatype Report = Report(opponentChoice: string, result: Option<int>,
                           playerScore: nat, opponentScore: nat, kind: MessageKind)

  /** The two global counters of the page. */
  class Match {
    var playerScore: nat
    var opponentScore: nat

    /** Between rounds neither counter is at the threshold. */
    ghost predicate Valid()
      reads this
    {
      Below(Current())
    }

    function Current(): Scores
      reads this
    {
      Scores(playerScore, opponentScore)
    }

    /** Both counters start at 0. */
    constructor ()
      ensures Valid()
      ensures Current() == Scores(0, 0)
    {
      playerScore := 0;
      opponentScore := 0;
    }

    /** The score part of the click handler: update by the result, report,
        then reset if either counter reached the threshold. Returns the
        scores that are reported. */
    method PlayRound(result: Option<int>) returns (reported: Scores)
      requires Valid()
      modifies this
      ensures Valid()
      ensures reported == Tally(old(Current()), result)
      ensures Current() == Settle(reported)
    {
      if result == Some(1) {
        playerScore := playerScore + 1;
      } else if result == Some(-1) {
        opponentScore := opponentScore + 1;
      }
      reported := Current();
      if playerScore == POINTS_TO_WIN || opponentScore == POINTS_TO_WIN {
        playerScore := 0;
        opponentScore := 0;
      }
      RoundKeepsBelow(old(Current()), result);
    }

    /** One click: the opponent's move from the drawn integer, the round's
        result for the clicked element's id, the score update and the report
        that the display receives. */
    method HandleClick(targetId: string, num: int) returns (report: Report)
      requires Valid()
      modifies this
      ensures Valid()
      ensures report.opponentChoice == ComputerChoice(num)
      ensures report.result == EvaluateRound(targetId, ComputerChoice(num))
      ensures Scores(report.playerScore, report.opponentScore) == Tally(old(Current()), report.result)
      ensures report.kind == MessageFor(report.result, report.playerScore, report.opponentScore)
      ensures Current() == Settle(Scores(report.playerScore, report.opponentScore))
    {
      var compChoice := ComputerChoice(num);
      var result := EvaluateRound(targetId, compChoice);
      var reported := PlayRound(result);
      report := Report(compChoice, result, reported.player, reported.opponent,
                       MessageFor(result, reported.player, reported.opponent));
    }
  }
}
