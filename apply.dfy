/** The move applier, movePawn (src/utils/gameLogic.ts:108-160), stated on
    values.  GameState.MovePawn in module Engine edits the shared objects in
    place and is proved to produce exactly MovedState. */
module Apply {
  import opened LudoTypes
  import opened Board
  import opened Position
  import opened Moves

  /** A pawn leaving base for its start cell (lines 116-120). */
  function LeaveBase(pawn: Pawn, newPosition: int): Pawn {
    pawn.(isInBase := false, position := newPosition, isSafe := IsSafePosition(newPosition))
  }

  /** An ordinary move (lines 124-132): the flags are recomputed from the
      target; the base flag is left as it was. */
  function Advance(pawn: Pawn, newPosition: int): Pawn {
    var moved := pawn.(position := newPosition,
                       isSafe := IsSafePosition(newPosition) || newPosition >= 52);
    if newPosition == 57 then moved.(isInHome := true) else moved
  }

  /** A captured pawn goes back to base (lines 141-144). */
  function SendToBase(pawn: Pawn): Pawn {
    pawn.(position := -1, isInBase := true, isSafe := false, isInHome := false)
  }

  /** An unsafe pawn on the landing cell is captured; any other is left alone. */
  function CaptureAt(pawn: Pawn, cell: int): Pawn {
    if pawn.position == cell && !pawn.isSafe then SendToBase(pawn) else pawn
  }

  function CapturePawns(pawns: seq<Pawn>, cell: int): seq<Pawn> {
    seq(|pawns|, k requires 0 <= k < |pawns| => CaptureAt(pawns[k], cell))
  }

  /** The capture sweep of lines 136-148: every player whose id differs from
      the mover's has its pawns on `cell` captured. */
  function CaptureOpponents(players: seq<PlayerView>, moverId: string, cell: int): seq<PlayerView> {
    seq(|players|, i requires 0 <= i < |players| =>
      if players[i].id != moverId then players[i].(pawns := CapturePawns(players[i].pawns, cell))
      else players[i])
  }

  predicate AllInHome(pawns: seq<Pawn>) {
    forall k :: 0 <= k < |pawns| ==> pawns[k].isInHome
  }

  /** Two rosters name the same players in the same seats, each with the
      same pawns (by id and owner), whatever the pawns' positions and flags. */
  predicate SameRoster(a: seq<PlayerView>, b: seq<PlayerView>) {
    && |a| == |b|
    && forall i :: 0 <= i < |a| ==>
      && b[i].id == a[i].id && b[i].name == a[i].name && b[i].color == a[i].color
      && b[i].isAI == a[i].isAI && |b[i].pawns| == |a[i].pawns|
      && forall k :: 0 <= k < |a[i].pawns| ==>
        b[i].pawns[k].id == a[i].pawns[k].id && b[i].pawns[k].playerId == a[i].pawns[k].playerId
  }

  /** Pawn k of player i replaced by `pawn`, as the in-place field writes do. */
  function SetPawn(players: seq<PlayerView>, i: int, k: int, pawn: Pawn): seq<PlayerView>
    requires 0 <= i < |players| && 0 <= k < |players[i].pawns|
  {
    players[i := players[i].(pawns := players[i].pawns[k := pawn])]
  }

  /** The capture sweep, run only when the moved pawn ended unsafe on a
      track cell (line 135). */
  function CaptureStep(players: seq<PlayerView>, moverId: string, moved: Pawn, newPosition: int)
    : seq<PlayerView>
  {
    if !moved.isSafe && newPosition < 52 then CaptureOpponents(players, moverId, newPosition) else players
  }

  /** The win check (lines 152-157) on the roster left by the move. */
  function WinCheck(gameState: GameView, players: seq<PlayerView>): GameView
    requires 0 <= gameState.currentPlayerIndex < |players|
  {
    var cur := gameState.currentPlayerIndex;
    if AllInHome(players[cur].pawns) then
      gameState.(players := players[cur := players[cur].(isWinner := true)],
                 winner := Some(players[cur].id), gamePhase := Finished)
    else
      gameState.(players := players)
  }

  /** The state movePawn returns.  Only the players, the winner and the
      phase can differ from the input: the turn, the dice, the possible
      moves, the selection, the mode and the difficulty never change. */
  function MovedState(gameState: GameView, pawnId: PawnId, newPosition: int): (r: GameView)
    requires 0 <= gameState.currentPlayerIndex < |gameState.players|
    ensures r == gameState.(players := r.players, winner := r.winner, gamePhase := r.gamePhase)
  {
    var cur := gameState.currentPlayerIndex;
    var mover := gameState.players[cur];
    var j := FindPawn(mover.pawns, pawnId);
    if j == |mover.pawns| then gameState
    else
      var pawn := mover.pawns[j];
      if pawn.isInBase && newPosition == StartingPosition(mover.color) then
        gameState.(players := SetPawn(gameState.players, cur, j, LeaveBase(pawn, newPosition)))
      else
        var moved := Advance(pawn, newPosition);
        var afterMove := SetPawn(gameState.players, cur, j, moved);
        WinCheck(gameState, CaptureStep(afterMove, mover.id, moved, newPosition))
  }

  /** movePawn changes no player's identity: every seat keeps its player,
      and every player the same pawns, by id and owner, in the same order. */
  lemma {:induction false} MovedStateKeepsRoster(gameState: GameView, pawnId: PawnId, newPosition: int)
    requires 0 <= gameState.currentPlayerIndex < |gameState.players|
    ensures SameRoster(gameState.players, MovedState(gameState, pawnId, newPosition).players)
  {
    var cur := gameState.currentPlayerIndex;
    var mover := gameState.players[cur];
    var j := FindPawn(mover.pawns, pawnId);
    if j < |mover.pawns| {
      var pawn := mover.pawns[j];
      if pawn.isInBase && newPosition == StartingPosition(mover.color) {
        SetPawnKeepsRoster(gameState.players, cur, j, LeaveBase(pawn, newPosition));
      } else {
        var moved := Advance(pawn, newPosition);
        var afterMove := SetPawn(gameState.players, cur, j, moved);
        SetPawnKeepsRoster(gameState.players, cur, j, moved);
        var afterCapture := CaptureStep(afterMove, mover.id, moved, newPosition);
        CaptureOpponentsKeepsRoster(afterMove, mover.id, newPosition);
        SameRosterTransitive(gameState.players, afterMove, afterCapture);
        WinCheckKeepsRoster(gameState, afterCapture);
        SameRosterTransitive(gameState.players, afterCapture, WinCheck(gameState, afterCapture).players);
      }
    }
  }

  lemma SetPawnKeepsRoster(players: seq<PlayerView>, i: int, k: int, pawn: Pawn)
    requires 0 <= i < |players| && 0 <= k < |players[i].pawns|
    requires pawn.id == players[i].pawns[k].id && pawn.playerId == players[i].pawns[k].playerId
    ensures SameRoster(players, SetPawn(players, i, k, pawn))
  {
  }

  lemma CaptureOpponentsKeepsRoster(players: seq<PlayerView>, moverId: string, cell: int)
    ensures SameRoster(players, CaptureOpponents(players, moverId, cell))
  {
  }

  lemma WinCheckKeepsRoster(gameState: GameView, players: seq<PlayerView>)
    requires 0 <= gameState.currentPlayerIndex < |players|
    ensures SameRoster(players, WinCheck(gameState, players).players)
  {
  }

  lemma SameRosterTransitive(a: seq<PlayerView>, b: seq<PlayerView>, c: seq<PlayerView>)
    requires SameRoster(a, b) && SameRoster(b, c)
    ensures SameRoster(a, c)
  {
  }

  /** The flags of a pawn agree with its position: in base exactly at -1,
      home exactly at 57, safe exactly on a safe cell or the home stretch. */
  predicate WellFormed(p: Pawn) {
    && -1 <= p.position <= 57
    && (p.isInBase <==> p.position == -1)
    && (p.isInHome <==> p.position == 57)
    && (p.isSafe <==> IsSafePosition(p.position) || p.position >= 52)
  }

  predicate AllWellFormed(players: seq<PlayerView>) {
    forall i, k :: 0 <= i < |players| && 0 <= k < |players[i].pawns| ==> WellFormed(players[i].pawns[k])
  }

  /** An id that is not one of the current player's pawns changes nothing. */
  lemma MovePawnUnknownId(gameState: GameView, pawnId: PawnId, newPosition: int)
    requires 0 <= gameState.currentPlayerIndex < |gameState.players|
    requires forall k :: 0 <= k < |gameState.players[gameState.currentPlayerIndex].pawns| ==>
      gameState.players[gameState.currentPlayerIndex].pawns[k].id != pawnId
    ensures MovedState(gameState, pawnId, newPosition) == gameState
  {
  }

  /** Leaving base: the pawn is put on the start cell, out of base and safe;
      no other pawn, no winner flag and neither the winner nor the phase
      changes (no capture or win check happens). */
  lemma {:induction false} MovePawnLeaveBase(gameState: GameView, pawnId: PawnId, newPosition: int)
    requires 0 <= gameState.currentPlayerIndex < |gameState.players|
    requires var mover := gameState.players[gameState.currentPlayerIndex];
      var j := FindPawn(mover.pawns, pawnId);
      j < |mover.pawns| && mover.pawns[j].isInBase && newPosition == StartingPosition(mover.color)
    ensures var cur := gameState.currentPlayerIndex;
      var mover := gameState.players[cur];
      var j := FindPawn(mover.pawns, pawnId);
      var r := MovedState(gameState, pawnId, newPosition);
      && r.players[cur].pawns[j] == mover.pawns[j].(isInBase := false, position := newPosition, isSafe := true)
      && r.winner == gameState.winner && r.gamePhase == gameState.gamePhase
      && (forall i :: 0 <= i < |r.players| ==> r.players[i].isWinner == gameState.players[i].isWinner)
      && (forall i, k :: 0 <= i < |r.players| && 0 <= k < |r.players[i].pawns| && (i, k) != (cur, j) ==>
            r.players[i].pawns[k] == gameState.players[i].pawns[k])
  {
    StartingPositionsAreSafe(gameState.players[gameState.currentPlayerIndex].color);
  }

  /** The capture condition of line 135: the moved pawn is not safe and the
      target is a track cell; that is, the target is an unsafe track cell. */
  predicate CapturesOn(newPosition: int) {
    newPosition < 52 && !IsSafePosition(newPosition)
  }

  /** An ordinary move: the pawn takes the target position, is safe exactly
      on a safe cell or the home stretch, becomes home exactly on 57 (or
      stays home), and keeps its base flag.  Every other pawn of the mover
      is untouched; a pawn of another player is sent to base exactly when
      the target is an unsafe track cell, the player's id differs from the
      mover's, and the pawn stands unsafe on the target; nothing else moves. */
  lemma {:induction false} MovePawnOrdinary(gameState: GameView, pawnId: PawnId, newPosition: int)
    requires 0 <= gameState.currentPlayerIndex < |gameState.players|
    requires var mover := gameState.players[gameState.currentPlayerIndex];
      var j := FindPawn(mover.pawns, pawnId);
      j < |mover.pawns| && !(mover.pawns[j].isInBase && newPosition == StartingPosition(mover.color))
    ensures var cur := gameState.currentPlayerIndex;
      var mover := gameState.players[cur];
      var j := FindPawn(mover.pawns, pawnId);
      var pawn := mover.pawns[j];
      var r := MovedState(gameState, pawnId, newPosition);
      && r.players[cur].pawns[j].position == newPosition
      && (r.players[cur].pawns[j].isSafe <==> IsSafePosition(newPosition) || newPosition >= 52)
      && (r.players[cur].pawns[j].isInHome <==> pawn.isInHome || newPosition == 57)
      && r.players[cur].pawns[j].isInBase == pawn.isInBase
      && (forall k :: 0 <= k < |mover.pawns| && k != j ==> r.players[cur].pawns[k] == mover.pawns[k])
      && (forall i, k :: 0 <= i < |r.players| && i != cur && 0 <= k < |r.players[i].pawns| ==>
            var before := gameState.players[i].pawns[k];
            r.players[i].pawns[k] ==
              if CapturesOn(newPosition) && gameState.players[i].id != mover.id
                 && before.position == newPosition && !before.isSafe
              then before.(position := -1, isInBase := true, isSafe := false, isInHome := false)
              else before)
  {
    var cur := gameState.currentPlayerIndex;
    var mover := gameState.players[cur];
    var j := FindPawn(mover.pawns, pawnId);
    var moved := Advance(mover.pawns[j], newPosition);
    var afterMove := SetPawn(gameState.players, cur, j, moved);
    var afterCapture := CaptureStep(afterMove, mover.id, moved, newPosition);
    var r := MovedState(gameState, pawnId, newPosition);
    assert r == WinCheck(gameState, afterCapture);
    assert afterCapture[cur] == afterMove[cur];
    assert r.players[cur].pawns == afterMove[cur].pawns == mover.pawns[j := moved];
    assert !moved.isSafe && newPosition < 52 <==> CapturesOn(newPosition);
    forall i | 0 <= i < |r.players| && i != cur
      ensures r.players[i] == afterCapture[i]
      ensures afterMove[i] == gameState.players[i]
    {
    }
  }

  /** What the win check does to a roster. */
  lemma WinCheckOutcome(gameState: GameView, players: seq<PlayerView>)
    requires 0 <= gameState.currentPlayerIndex < |players|
    ensures var cur := gameState.currentPlayerIndex;
      var won := AllInHome(players[cur].pawns);
      var r := WinCheck(gameState, players);
      && r.winner == (if won then Some(players[cur].id) else gameState.winner)
      && r.gamePhase == (if won then Finished else gameState.gamePhase)
      && r.players[cur] == players[cur].(isWinner := won || players[cur].isWinner)
      && (forall i :: 0 <= i < |players| && i != cur ==> r.players[i] == players[i])
  {
  }

  /** The win check of lines 152-157, run after every ordinary move: the
      mover wins exactly when all of its pawns are home afterwards, which
      sets its flag, the winner and the finished phase; otherwise the winner
      and phase are unchanged.  No other player's flag changes. */
  lemma {:induction false} MovePawnWinCheck(gameState: GameView, pawnId: PawnId, newPosition: int)
    requires 0 <= gameState.currentPlayerIndex < |gameState.players|
    requires var mover := gameState.players[gameState.currentPlayerIndex];
      var j := FindPawn(mover.pawns, pawnId);
      j < |mover.pawns| && !(mover.pawns[j].isInBase && newPosition == StartingPosition(mover.color))
    ensures var cur := gameState.currentPlayerIndex;
      var mover := gameState.players[cur];
      var r := MovedState(gameState, pawnId, newPosition);
      var won := AllInHome(r.players[cur].pawns);
      && r.winner == (if won then Some(mover.id) else gameState.winner)
      && r.gamePhase == (if won then Finished else gameState.gamePhase)
      && r.players[cur].isWinner == (won || mover.isWinner)
      && (forall i :: 0 <= i < |r.players| && i != cur ==> r.players[i].isWinner == gameState.players[i].isWinner)
  {
    var cur := gameState.currentPlayerIndex;
    var mover := gameState.players[cur];
    var j := FindPawn(mover.pawns, pawnId);
    var moved := Advance(mover.pawns[j], newPosition);
    var afterMove := SetPawn(gameState.players, cur, j, moved);
    var afterCapture := CaptureStep(afterMove, mover.id, moved, newPosition);
    assert afterCapture[cur] == afterMove[cur];
    assert forall i :: 0 <= i < |afterCapture| ==> afterCapture[i].isWinner == gameState.players[i].isWinner;
    WinCheckOutcome(gameState, afterCapture);
  }

  /** A safe pawn is never captured: whatever the move, every pawn other
      than the one being moved that was safe before is unchanged after. */
  lemma {:induction false} SafePawnsAreImmune(gameState: GameView, pawnId: PawnId, newPosition: int, i: int, k: int)
    requires 0 <= gameState.currentPlayerIndex < |gameState.players|
    requires 0 <= i < |gameState.players| && 0 <= k < |gameState.players[i].pawns|
    requires gameState.players[i].pawns[k].isSafe
    requires i != gameState.currentPlayerIndex
      || k != FindPawn(gameState.players[gameState.currentPlayerIndex].pawns, pawnId)
    ensures MovedState(gameState, pawnId, newPosition).players[i].pawns[k] == gameState.players[i].pawns[k]
  {
    var mover := gameState.players[gameState.currentPlayerIndex];
    var j := FindPawn(mover.pawns, pawnId);
    if j < |mover.pawns| {
      if mover.pawns[j].isInBase && newPosition == StartingPosition(mover.color) {
        MovePawnLeaveBase(gameState, pawnId, newPosition);
      } else {
        MovePawnOrdinary(gameState, pawnId, newPosition);
      }
    }
  }

  /** A legal move keeps every pawn's flags in agreement with its position:
      when the pawn is one the enumerator lists for a die of 1..6 and the
      target is the calculator's, as the caller guarantees, the result is
      well formed if the input was. */
  lemma {:induction false} MovePawnKeepsWellFormed(gameState: GameView, pawnId: PawnId, diceValue: int)
    requires 0 <= gameState.currentPlayerIndex < |gameState.players|
    requires 1 <= diceValue <= 6
    requires AllWellFormed(gameState.players)
    requires var mover := gameState.players[gameState.currentPlayerIndex];
      var j := FindPawn(mover.pawns, pawnId);
      j < |mover.pawns| && IsValidMove(mover.pawns[j], mover.color, diceValue)
    ensures var mover := gameState.players[gameState.currentPlayerIndex];
      var pawn := mover.pawns[FindPawn(mover.pawns, pawnId)];
      AllWellFormed(MovedState(gameState, pawnId, CalculateNewPosition(pawn, diceValue, mover.color)).players)
  {
    var cur := gameState.currentPlayerIndex;
    var mover := gameState.players[cur];
    var j := FindPawn(mover.pawns, pawnId);
    var pawn := mover.pawns[j];
    var target := CalculateNewPosition(pawn, diceValue, mover.color);
    var r := MovedState(gameState, pawnId, target);
    assert WellFormed(pawn);
    if pawn.isInBase {
      LeaveBaseKeepsWellFormed(gameState, pawnId, target);
    } else {
      OrdinaryMoveKeepsWellFormed(gameState, pawnId, target);
    }
  }

  lemma {:induction false} LeaveBaseKeepsWellFormed(gameState: GameView, pawnId: PawnId, newPosition: int)
    requires 0 <= gameState.currentPlayerIndex < |gameState.players|
    requires AllWellFormed(gameState.players)
    requires var mover := gameState.players[gameState.currentPlayerIndex];
      var j := FindPawn(mover.pawns, pawnId);
      j < |mover.pawns| && mover.pawns[j].isInBase && newPosition == StartingPosition(mover.color)
    ensures AllWellFormed(MovedState(gameState, pawnId, newPosition).players)
  {
    var cur := gameState.currentPlayerIndex;
    var j := FindPawn(gameState.players[cur].pawns, pawnId);
    var r := MovedState(gameState, pawnId, newPosition);
    MovePawnLeaveBase(gameState, pawnId, newPosition);
    StartingPositionsAreSafe(gameState.players[cur].color);
    forall i, k | 0 <= i < |r.players| && 0 <= k < |r.players[i].pawns|
      ensures WellFormed(r.players[i].pawns[k])
    {
      if (i, k) != (cur, j) {
        assert WellFormed(gameState.players[i].pawns[k]);
      }
    }
  }

  lemma {:induction false} OrdinaryMoveKeepsWellFormed(gameState: GameView, pawnId: PawnId, newPosition: int)
    requires 0 <= gameState.currentPlayerIndex < |gameState.players|
    requires AllWellFormed(gameState.players)
    requires 0 <= newPosition <= 57
    requires var mover := gameState.players[gameState.currentPlayerIndex];
      var j := FindPawn(mover.pawns, pawnId);
      j < |mover.pawns| && !mover.pawns[j].isInBase && !mover.pawns[j].isInHome
    ensures AllWellFormed(MovedState(gameState, pawnId, newPosition).players)
  {
    var cur := gameState.currentPlayerIndex;
    var j := FindPawn(gameState.players[cur].pawns, pawnId);
    var r := MovedState(gameState, pawnId, newPosition);
    MovePawnOrdinary(gameState, pawnId, newPosition);
    forall i, k | 0 <= i < |r.players| && 0 <= k < |r.players[i].pawns|
      ensures WellFormed(r.players[i].pawns[k])
    {
      if i != cur || k != j {
        assert WellFormed(gameState.players[i].pawns[k]);
      }
    }
  }
}
