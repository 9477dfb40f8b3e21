/** The computer player's choice of move, makeAIMove
    (src/utils/gameLogic.ts:175-226).  The easy level picks any listed
    move; the other levels score every listed move and take the first one
    with the highest score. */
module Strategy {
  import opened LudoTypes
  import opened Board
  import opened Position
  import opened Moves
  import opened Apply

  /** The number of pawns standing unsafe on `cell`. */
  function CapturableOn(pawns: seq<Pawn>, cell: int): (n: nat)
    ensures n <= |pawns|
  {
    if |pawns| == 0 then 0
    else
      var last := pawns[|pawns| - 1];
      CapturableOn(pawns[..|pawns| - 1], cell) + (if last.position == cell && !last.isSafe then 1 else 0)
  }

  /** The number of pawns, over every player whose id differs from
      `moverId`, standing unsafe on `cell` (lines 204-212). */
  function OpponentCapturable(players: seq<PlayerView>, moverId: string, cell: int): nat
  {
    if |players| == 0 then 0
    else
      var last := players[|players| - 1];
      var rest := OpponentCapturable(players[..|players| - 1], moverId, cell);
      if last.id != moverId then rest + CapturableOn(last.pawns, cell) else rest
  }

  /** No pawn of the list is counted exactly when none stands unsafe on
      the cell. */
  lemma {:induction false} CapturableOnZero(pawns: seq<Pawn>, cell: int)
    ensures CapturableOn(pawns, cell) == 0
            <==> forall k :: 0 <= k < |pawns| ==> !(pawns[k].position == cell && !pawns[k].isSafe)
  {
    if |pawns| > 0 {
      var init := pawns[..|pawns| - 1];
      CapturableOnZero(init, cell);
      assert forall k :: 0 <= k < |init| ==> init[k] == pawns[k];
    }
  }

  /** No opponent pawn is counted exactly when no pawn of a player other
      than the mover stands unsafe on the cell. */
  lemma {:induction false} OpponentCapturableZero(players: seq<PlayerView>, moverId: string, cell: int)
    ensures OpponentCapturable(players, moverId, cell) == 0
            <==> forall i, k :: 0 <= i < |players| && players[i].id != moverId && 0 <= k < |players[i].pawns|
                                ==> !(players[i].pawns[k].position == cell && !players[i].pawns[k].isSafe)
  {
    if |players| > 0 {
      var init := players[..|players| - 1];
      OpponentCapturableZero(init, moverId, cell);
      CapturableOnZero(players[|players| - 1].pawns, cell);
      assert forall i :: 0 <= i < |init| ==> init[i] == players[i];
    }
  }

  /** The score of moving `pawn` to `newPosition` (lines 198-215): 10 for
      leaving base, 15 for every opponent pawn standing unsafe on the
      target, 5 for a target in the home stretch. */
  function MoveScore(players: seq<PlayerView>, moverId: string, pawn: Pawn, newPosition: int): int {
    (if pawn.isInBase then 10 else 0)
    + 15 * OpponentCapturable(players, moverId, newPosition)
    + (if newPosition >= 52 then 5 else 0)
  }

  /** The target of moving the current player's pawn `pawnId`, when it has
      one (lines 187-188, 196-197, 222-223). */
  function TargetOf(gameState: GameView, pawnId: PawnId): int
    requires 0 <= gameState.currentPlayerIndex < |gameState.players|
  {
    var mover := gameState.players[gameState.currentPlayerIndex];
    var j := FindPawn(mover.pawns, pawnId);
    if j < |mover.pawns| then CalculateNewPosition(mover.pawns[j], gameState.diceValue, mover.color) else -1
  }

  /** The score of moving the current player's pawn `pawnId`.  Every listed
      move names one of the current player's pawns (Moves.ValidMoveIsFound),
      so the fallback score -1 never applies to one. */
  function ScoreOf(gameState: GameView, pawnId: PawnId): int
    requires 0 <= gameState.currentPlayerIndex < |gameState.players|
  {
    var mover := gameState.players[gameState.currentPlayerIndex];
    var j := FindPawn(mover.pawns, pawnId);
    if j < |mover.pawns| then MoveScore(gameState.players, mover.id, mover.pawns[j], TargetOf(gameState, pawnId))
    else -1
  }

  /** The scores of the moves `pawnIds`, in order. */
  function Scores(gameState: GameView, pawnIds: seq<PawnId>): (r: seq<int>)
    requires 0 <= gameState.currentPlayerIndex < |gameState.players|
    ensures |r| == |pawnIds|
  {
    if |pawnIds| == 0 then []
    else Scores(gameState, pawnIds[..|pawnIds| - 1]) + [ScoreOf(gameState, pawnIds[|pawnIds| - 1])]
  }

  lemma {:induction false} ScoresAt(gameState: GameView, pawnIds: seq<PawnId>, i: int)
    requires 0 <= gameState.currentPlayerIndex < |gameState.players|
    requires 0 <= i < |pawnIds|
    ensures Scores(gameState, pawnIds)[i] == ScoreOf(gameState, pawnIds[i])
  {
    if i < |pawnIds| - 1 {
      var init := pawnIds[..|pawnIds| - 1];
      ScoresAt(gameState, init, i);
      assert init[i] == pawnIds[i];
    }
  }

  /** The index a left-to-right scan with a strict `>` keeps: the first
      index holding the largest value. */
  function FirstMax(s: seq<int>): (k: nat)
    requires |s| > 0
    ensures k < |s|
  {
    if |s| == 1 then 0
    else
      var k := FirstMax(s[..|s| - 1]);
      if s[|s| - 1] > s[k] then |s| - 1 else k
  }

  /** FirstMax holds a largest value, and every value before it is
      smaller. */
  lemma {:induction false} FirstMaxIsFirstLargest(s: seq<int>)
    requires |s| > 0
    ensures forall j :: 0 <= j < |s| ==> s[j] <= s[FirstMax(s)]
    ensures forall j :: 0 <= j < FirstMax(s) ==> s[j] < s[FirstMax(s)]
  {
    if |s| > 1 {
      var init := s[..|s| - 1];
      FirstMaxIsFirstLargest(init);
      assert forall j :: 0 <= j < |init| ==> init[j] == s[j];
    }
  }

  /** FirstMax of a sequence one longer: the new last index when its value
      beats the best before it, else the best before it. */
  lemma FirstMaxExtend(s: seq<int>)
    requires |s| > 0
    ensures FirstMax(s) == if |s| == 1 then 0
      else if s[|s| - 1] > s[FirstMax(s[..|s| - 1])] then |s| - 1 else FirstMax(s[..|s| - 1])
  {
  }

  /** One step of the scan: with the best index and score so far (index 0
      and score -1 before the first element), a non-negative next value
      replaces the best exactly when it is strictly higher. */
  lemma {:induction false} FirstMaxScanStep(s: seq<int>, i: int, best: int, bestScore: int)
    requires 0 <= i < |s| && s[i] >= 0
    requires i == 0 ==> best == 0 && bestScore == -1
    requires i > 0 ==> best == FirstMax(s[..i]) && bestScore == s[best]
    ensures FirstMax(s[..i + 1]) == if s[i] > bestScore then i else best
  {
    FirstMaxExtend(s[..i + 1]);
    assert s[..i + 1][..i] == s[..i];
  }

  /** The two properties of FirstMax determine it: an index holding a
      largest value with only smaller values before it is FirstMax. */
  lemma FirstMaxUnique(s: seq<int>, k: int)
    requires 0 <= k < |s|
    requires forall j :: 0 <= j < |s| ==> s[j] <= s[k]
    requires forall j :: 0 <= j < k ==> s[j] < s[k]
    ensures FirstMax(s) == k
  {
    FirstMaxIsFirstLargest(s);
  }

  /** Every score is at least 0, so the initial best score of -1 is beaten
      by the first listed move. */
  lemma ScoresAreNonNegative(players: seq<PlayerView>, moverId: string, pawn: Pawn, newPosition: int)
    ensures MoveScore(players, moverId, pawn, newPosition) >= 0
  {
  }

  /** The capture bonus is earned exactly when some opponent pawn stands
      unsafe on the target. */
  lemma {:induction false} CaptureBonus(players: seq<PlayerView>, moverId: string, pawn: Pawn, newPosition: int)
    ensures var base := (if pawn.isInBase then 10 else 0) + (if newPosition >= 52 then 5 else 0);
      MoveScore(players, moverId, pawn, newPosition) >= base + 15
      <==> exists i, k :: 0 <= i < |players| && players[i].id != moverId && 0 <= k < |players[i].pawns|
                          && players[i].pawns[k].position == newPosition && !players[i].pawns[k].isSafe
  {
    var n := OpponentCapturable(players, moverId, newPosition);
    OpponentCapturableZero(players, moverId, newPosition);
    if n == 0 {
      assert MoveScore(players, moverId, pawn, newPosition) < (if pawn.isInBase then 10 else 0) + (if newPosition >= 52 then 5 else 0) + 15;
    }
  }

  /** When every pawn's flags agree with its position, the capture bonus is
      only ever counted for a target on which movePawn really captures: an
      unsafe track cell. */
  lemma {:induction false} CaptureBonusIsReal(players: seq<PlayerView>, moverId: string, newPosition: int)
    requires AllWellFormed(players)
    requires OpponentCapturable(players, moverId, newPosition) > 0
    ensures CapturesOn(newPosition)
  {
    OpponentCapturableZero(players, moverId, newPosition);
    var i, k :| 0 <= i < |players| && players[i].id != moverId && 0 <= k < |players[i].pawns|
                && players[i].pawns[k].position == newPosition && !players[i].pawns[k].isSafe;
    assert WellFormed(players[i].pawns[k]);
  }

  /** The scoring of one move (lines 196-215), with its two nested sweeps
      over the opponents' pawns. */
  method ScoreMove(players: seq<PlayerView>, moverId: string, pawn: Pawn, newPosition: int) returns (score: int)
    ensures score == MoveScore(players, moverId, pawn, newPosition)
  {
    score := 0;
    if pawn.isInBase {
      score := score + 10;
    }
    ghost var base := score;
    for i := 0 to |players|
      invariant score == base + 15 * OpponentCapturable(players[..i], moverId, newPosition)
    {
      assert players[..i + 1][..i] == players[..i];
      var player := players[i];
      if player.id != moverId {
        for k := 0 to |player.pawns|
          invariant score == base + 15 * (OpponentCapturable(players[..i], moverId, newPosition)
                                          + CapturableOn(player.pawns[..k], newPosition))
        {
          assert player.pawns[..k + 1][..k] == player.pawns[..k];
          var otherPawn := player.pawns[k];
          if otherPawn.position == newPosition && !otherPawn.isSafe {
            score := score + 15;
          }
        }
        assert player.pawns[..|player.pawns|] == player.pawns;
      }
    }
    assert players[..|players|] == players;
    if newPosition >= 52 {
      score := score + 5;
    }
  }

  /** makeAIMove.  No move when the current player has no listed move;
      otherwise a listed pawn and its target.  Above the easy level the pawn
      is the first listed one with the highest score.  The easy level's
      `Math.random` pick is any listed move. */
  method MakeAIMove(gameState: GameView) returns (move: Option<AIMove>)
    requires 0 <= gameState.currentPlayerIndex < |gameState.players|
    ensures var mover := gameState.players[gameState.currentPlayerIndex];
      move.None? <==> ValidMoves(mover.pawns, mover.color, gameState.diceValue) == []
    ensures var mover := gameState.players[gameState.currentPlayerIndex];
      move.Some? ==>
        && move.value.pawnId in ValidMoves(mover.pawns, mover.color, gameState.diceValue)
        && FindPawn(mover.pawns, move.value.pawnId) < |mover.pawns|
        && move.value.position == TargetOf(gameState, move.value.pawnId)
    ensures var mover := gameState.players[gameState.currentPlayerIndex];
      var validMoves := ValidMoves(mover.pawns, mover.color, gameState.diceValue);
      move.Some? && gameState.aiDifficulty != Easy ==>
        move.value.pawnId == validMoves[FirstMax(Scores(gameState, validMoves))]
  {
    var currentPlayer := gameState.players[gameState.currentPlayerIndex];
    var validMoves := GetValidMoves(currentPlayer, gameState.diceValue);
    if |validMoves| == 0 {
      return None;
    }
    forall id | id in validMoves
      ensures FindPawn(currentPlayer.pawns, id) < |currentPlayer.pawns|
    {
      ValidMoveIsFound(currentPlayer.pawns, currentPlayer.color, gameState.diceValue, id);
    }

    if gameState.aiDifficulty == Easy {
      var pick :| 0 <= pick < |validMoves|;
      var randomPawnId := validMoves[pick];
      var pawn := currentPlayer.pawns[FindPawn(currentPlayer.pawns, randomPawnId)];
      var newPosition := CalculateNewPosition(pawn, gameState.diceValue, currentPlayer.color);
      return Some(AIMove(randomPawnId, newPosition));
    }

    var best := BestMove(gameState, validMoves);
    var pawn := currentPlayer.pawns[FindPawn(currentPlayer.pawns, validMoves[best])];
    var newPosition := CalculateNewPosition(pawn, gameState.diceValue, currentPlayer.color);
    return Some(AIMove(validMoves[best], newPosition));
  }

  /** The scan of lines 193-220 over the listed moves: each is scored and
      replaces the best so far when its score is strictly higher than the
      best score, which starts at -1. */
  method BestMove(gameState: GameView, validMoves: seq<PawnId>) returns (best: int)
    requires 0 <= gameState.currentPlayerIndex < |gameState.players|
    requires |validMoves| > 0
    requires var mover := gameState.players[gameState.currentPlayerIndex];
      forall i :: 0 <= i < |validMoves| ==> FindPawn(mover.pawns, validMoves[i]) < |mover.pawns|
    ensures best == FirstMax(Scores(gameState, validMoves))
  {
    ghost var scores := Scores(gameState, validMoves);
    best := 0;
    var bestScore := -1;
    for i := 0 to |validMoves|
      invariant 0 <= best < |validMoves|
      invariant i == 0 ==> best == 0 && bestScore == -1
      invariant i > 0 ==> best == FirstMax(scores[..i]) && bestScore == scores[best]
    {
      var score := ScoreListed(gameState, validMoves, i);
      FirstMaxScanStep(scores, i, best, bestScore);
      if score > bestScore {
        best := i;
        bestScore := score;
      }
    }
    assert scores[..|validMoves|] == scores;
  }

  /** One pass of the scan's body (lines 196-215): the listed pawn is
      looked up, its target computed and the move scored. */
  method ScoreListed(gameState: GameView, validMoves: seq<PawnId>, i: int) returns (score: int)
    requires 0 <= gameState.currentPlayerIndex < |gameState.players|
    requires 0 <= i < |validMoves|
    requires var mover := gameState.players[gameState.currentPlayerIndex];
      FindPawn(mover.pawns, validMoves[i]) < |mover.pawns|
    ensures score == Scores(gameState, validMoves)[i] && score >= 0
  {
    var currentPlayer := gameState.players[gameState.currentPlayerIndex];
    var pawn := currentPlayer.pawns[FindPawn(currentPlayer.pawns, validMoves[i])];
    var newPosition := CalculateNewPosition(pawn, gameState.diceValue, currentPlayer.color);
    score := ScoreMove(gameState.players, currentPlayer.id, pawn, newPosition);
    ScoresAreNonNegative(gameState.players, currentPlayer.id, pawn, newPosition);
    ScoresAt(gameState, validMoves, i);
  }
}
