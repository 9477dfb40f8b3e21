/** The game objects as the source keeps them: players whose pawn arrays and
    winner flags are edited in place, and the game state that movePawn
    shallow-copies (src/utils/gameLogic.ts:22-43, 108-160). */
module Engine {
  import opened LudoTypes
  import opened Board
  import opened Position
  import opened Moves
  import opened Apply

  /** The pawns createPlayer builds for player `playerId`: four pawns in
      base, numbered 0..3. */
  function InitialPawns(playerId: string): seq<Pawn> {
    seq(4, i requires 0 <= i < 4 => Pawn(PawnId(playerId, i), playerId, -1, true, false, false))
  }

  /** A new player's pawns are consistent: each in base at -1, not home,
      not safe. */
  lemma InitialPawnsWellFormed(playerId: string)
    ensures |InitialPawns(playerId)| == 4
    ensures forall k :: 0 <= k < 4 ==> WellFormed(InitialPawns(playerId)[k])
  {
  }

  /** From the opening position only a 6 gives moves, and then every pawn
      may leave base. */
  lemma OpeningMoves(playerId: string, color: Color, diceValue: int)
    ensures ValidMoves(InitialPawns(playerId), color, diceValue)
         == if diceValue == 6
            then [PawnId(playerId, 0), PawnId(playerId, 1), PawnId(playerId, 2), PawnId(playerId, 3)]
            else []
  {
    var pawns := InitialPawns(playerId);
    assert pawns[..4] == pawns;
    assert ValidMoves(pawns[..0], color, diceValue) == [];
    assert ValidMoves(pawns[..1], color, diceValue) == (if diceValue == 6 then [PawnId(playerId, 0)] else []) by {
      assert pawns[..1][..0] == pawns[..0];
    }
    assert ValidMoves(pawns[..2], color, diceValue)
        == (if diceValue == 6 then [PawnId(playerId, 0), PawnId(playerId, 1)] else []) by {
      assert pawns[..2][..1] == pawns[..1];
    }
    assert ValidMoves(pawns[..3], color, diceValue)
        == (if diceValue == 6 then [PawnId(playerId, 0), PawnId(playerId, 1), PawnId(playerId, 2)] else []) by {
      assert pawns[..3][..2] == pawns[..2];
    }
    assert pawns[..4][..3] == pawns[..3];
  }

  class Player {
    const id: string
    const name: string
    const color: Color
    const pawns: array<Pawn>
    const isAI: bool
    var isWinner: bool

    ghost function View(): PlayerView
      reads this, pawns
    {
      PlayerView(id, name, color, pawns[..], isAI, isWinner)
    }

    /** createPlayer: a new player with four fresh pawns in base. */
    constructor (id: string, name: string, color: Color, isAI: bool)
      ensures View() == PlayerView(id, name, color, InitialPawns(id), isAI, false)
      ensures fresh(pawns)
    {
      var created := new Pawn[4];
      for i := 0 to 4
        invariant forall k :: 0 <= k < i ==> created[k] == InitialPawns(id)[k]
      {
        created[i] := Pawn(PawnId(id, i), id, -1, true, false, false);
      }
      this.id := id;
      this.name := name;
      this.color := color;
      this.pawns := created;
      this.isAI := isAI;
      this.isWinner := false;
    }
  }

  /** The snapshot of a list of players. */
  ghost function PlayersView(players: seq<Player>): seq<PlayerView>
    reads set p | p in players, set p | p in players :: p.pawns
  {
    seq(|players|, i requires 0 <= i < |players|
                     reads set p | p in players, set p | p in players :: p.pawns => players[i].View())
  }

  class GameState {
    var players: seq<Player>
    var currentPlayerIndex: int
    var diceValue: int
    var gamePhase: GamePhase
    var possibleMoves: seq<PawnId>
    var selectedPawn: Option<PawnId>
    var winner: Option<string>
    var gameMode: GameMode
    var aiDifficulty: AIDifficulty

    /** No player object, and no pawn array, sits in two seats. */
    ghost predicate Valid()
      reads this
    {
      DistinctSeats(players)
    }

    ghost function View(): GameView
      reads this, set p | p in players, set p | p in players :: p.pawns
    {
      GameView(PlayersView(players), currentPlayerIndex, diceValue, gamePhase, possibleMoves,
               selectedPawn, winner, gameMode, aiDifficulty)
    }

    /** An object literal, and `{ ...gameState }` when given another state's
        fields: the players are shared, not copied. */
    constructor (players: seq<Player>, currentPlayerIndex: int, diceValue: int, gamePhase: GamePhase,
                 possibleMoves: seq<PawnId>, selectedPawn: Option<PawnId>, winner: Option<string>,
                 gameMode: GameMode, aiDifficulty: AIDifficulty)
      requires DistinctSeats(players)
      ensures Valid()
      ensures this.players == players && this.currentPlayerIndex == currentPlayerIndex
      ensures this.diceValue == diceValue && this.gamePhase == gamePhase
      ensures this.possibleMoves == possibleMoves && this.selectedPawn == selectedPawn
      ensures this.winner == winner && this.gameMode == gameMode && this.aiDifficulty == aiDifficulty
    {
      this.players := players;
      this.currentPlayerIndex := currentPlayerIndex;
      this.diceValue := diceValue;
      this.gamePhase := gamePhase;
      this.possibleMoves := possibleMoves;
      this.selectedPawn := selectedPawn;
      this.winner := winner;
      this.gameMode := gameMode;
      this.aiDifficulty := aiDifficulty;
    }

    /** movePawn.  The result is this state itself when the id is not one of
        the current player's pawns, and otherwise a shallow copy whose
        snapshot is MovedState.  The pawns and winner flags are edited on the
        shared player objects, so this state sees those edits too, while its
        own winner and phase stay as they were.  The copy (`{ ...gameState }`)
        is allocated where it is returned, with the winner and phase the
        source writes into it.  Before that the source reads the copy's
        players and current index, which equal this state's own. */
    method MovePawn(pawnId: PawnId, newPosition: int) returns (next: GameState)
      requires Valid()
      requires 0 <= currentPlayerIndex < |players|
      modifies set p | p in players, set p | p in players :: p.pawns
      ensures next == this || fresh(next)
      ensures next == this <==> FindPawn(old(View()).players[old(currentPlayerIndex)].pawns, pawnId)
                                == |old(View()).players[old(currentPlayerIndex)].pawns|
      ensures next.players == players && next.Valid()
      ensures next.View() == MovedState(old(View()), pawnId, newPosition)
      ensures View() == old(View()).(players := next.View().players)
    {
      var currentPlayer := players[currentPlayerIndex];
      var j := Find(currentPlayer.pawns, pawnId);
      if j == currentPlayer.pawns.Length {
        return this;
      }
      var pawn := currentPlayer.pawns[j];
      if pawn.isInBase && newPosition == StartingPosition(currentPlayer.color) {
        next := LeaveBaseMove(j, newPosition);
      } else {
        next := BoardMove(j, newPosition);
      }
    }

    /** Lines 116-121: pawn j of the current player leaves base; the copy
        keeps every field of this state. */
    method LeaveBaseMove(j: int, newPosition: int) returns (next: GameState)
      requires Valid()
      requires 0 <= currentPlayerIndex < |players| && 0 <= j < players[currentPlayerIndex].pawns.Length
      modifies players[currentPlayerIndex].pawns
      ensures fresh(next) && next.players == players && next.Valid()
      ensures var cur := old(currentPlayerIndex);
        next.View() == old(View()).(players := SetPawn(old(View()).players, cur, j,
                                                       LeaveBase(old(players[cur].pawns[j]), newPosition)))
      ensures View() == old(View()).(players := next.View().players)
    {
      var pawn := players[currentPlayerIndex].pawns[j];
      var left := pawn.(isInBase := false, position := newPosition, isSafe := IsSafePosition(newPosition));
      WritePawn(players, currentPlayerIndex, j, left);
      next := new GameState(players, currentPlayerIndex, diceValue, gamePhase, possibleMoves,
                            selectedPawn, winner, gameMode, aiDifficulty);
    }

    /** Lines 122-157: pawn j of the current player moves on the board,
        captures, and the win check runs; the copy carries the winner and
        the phase the check writes. */
    method BoardMove(j: int, newPosition: int) returns (next: GameState)
      requires Valid()
      requires 0 <= currentPlayerIndex < |players| && 0 <= j < players[currentPlayerIndex].pawns.Length
      modifies set p | p in players, set p | p in players :: p.pawns
      ensures fresh(next) && next.players == players && next.Valid()
      ensures var cur := old(currentPlayerIndex);
        var moved := Advance(old(players[cur].pawns[j]), newPosition);
        next.View() == WinCheck(old(View()), CaptureStep(SetPawn(old(View()).players, cur, j, moved),
                                                         players[cur].id, moved, newPosition))
      ensures View() == old(View()).(players := next.View().players)
    {
      ghost var before := View();
      var currentPlayer := players[currentPlayerIndex];
      ghost var moved := Advance(currentPlayer.pawns[j], newPosition);
      MoveAndCapture(players, currentPlayerIndex, j, newPosition);
      ghost var afterCapture := CaptureStep(SetPawn(before.players, currentPlayerIndex, j, moved),
                                            currentPlayer.id, moved, newPosition);
      var allPawnsHome := CheckWinner(players, currentPlayerIndex);
      ghost var after := WinCheck(before, afterCapture);
      assert PlayersView(players) == after.players;
      if allPawnsHome {
        next := new GameState(players, currentPlayerIndex, diceValue, Finished, possibleMoves,
                              selectedPawn, Some(currentPlayer.id), gameMode, aiDifficulty);
      } else {
        next := new GameState(players, currentPlayerIndex, diceValue, gamePhase, possibleMoves,
                              selectedPawn, winner, gameMode, aiDifficulty);
      }
      assert next.View().players == after.players;
    }
  }

  /** The win check on the players (lines 152-154): whether every pawn of
      seat `cur` is home, and if so that player's winner flag is set. */
  method CheckWinner(players: seq<Player>, cur: int) returns (allPawnsHome: bool)
    requires DistinctSeats(players)
    requires 0 <= cur < |players|
    modifies players[cur]
    ensures allPawnsHome == AllInHome(old(PlayersView(players))[cur].pawns)
    ensures PlayersView(players) == if allPawnsHome
      then old(PlayersView(players))[cur := old(PlayersView(players))[cur].(isWinner := true)]
      else old(PlayersView(players))
  {
    allPawnsHome := EveryPawnHome(players[cur].pawns);
    if allPawnsHome {
      CrownWinner(players, cur);
    }
  }

  /** An ordinary move on the board (lines 124-149): the pawn's position
      and flags are rewritten for the target, then, if it ended unsafe on a
      track cell, the opponents' unsafe pawns there are captured. */
  method MoveAndCapture(players: seq<Player>, cur: int, j: int, newPosition: int)
    requires DistinctSeats(players)
    requires 0 <= cur < |players| && 0 <= j < players[cur].pawns.Length
    modifies set p | p in players :: p.pawns
    ensures var moved := Advance(old(players[cur].pawns[j]), newPosition);
      PlayersView(players)
        == CaptureStep(SetPawn(old(PlayersView(players)), cur, j, moved), players[cur].id, moved, newPosition)
  {
    ghost var before := PlayersView(players);
    var pawn := players[cur].pawns[j];
    var moved := pawn.(position := newPosition, isSafe := IsSafePosition(newPosition) || newPosition >= 52);
    if newPosition >= 52 && newPosition <= 57 {
      if newPosition == 57 {
        moved := moved.(isInHome := true);
      }
    }
    assert moved == Advance(pawn, newPosition);
    WritePawn(players, cur, j, moved);
    assert PlayersView(players) == SetPawn(before, cur, j, moved);
    if !moved.isSafe && newPosition < 52 {
      CaptureOpponentPawns(players, players[cur].id, newPosition);
    }
  }

  /** No two seats share a player object or a pawn array. */
  ghost predicate DistinctSeats(players: seq<Player>) {
    forall i, k :: 0 <= i < k < |players| ==> players[i] != players[k] && players[i].pawns != players[k].pawns
  }

  /** The field writes on one pawn, `pawn.position = ...` and the like,
      taken together: pawn k of seat i becomes `pawn`. */
  method WritePawn(players: seq<Player>, i: int, k: int, pawn: Pawn)
    requires DistinctSeats(players)
    requires 0 <= i < |players| && 0 <= k < players[i].pawns.Length
    modifies players[i].pawns
    ensures PlayersView(players)
         == old(PlayersView(players))[i := old(players[i].View()).(pawns := old(players[i].pawns[..])[k := pawn])]
  {
    players[i].pawns[k] := pawn;
    assert forall m :: 0 <= m < |players| && m != i ==> players[m].pawns != players[i].pawns;
  }

  /** `currentPlayer.isWinner = true`. */
  method CrownWinner(players: seq<Player>, i: int)
    requires DistinctSeats(players)
    requires 0 <= i < |players|
    modifies players[i]
    ensures PlayersView(players) == old(PlayersView(players))[i := old(players[i].View()).(isWinner := true)]
  {
    players[i].isWinner := true;
  }

  /** `pawns.find(p => p.id === id)`, as an index: the first pawn with that
      id, or the length when there is none. */
  method Find(pawns: array<Pawn>, id: PawnId) returns (j: int)
    ensures j == FindPawn(pawns[..], id)
  {
    j := 0;
    while j < pawns.Length && pawns[j].id != id
      invariant 0 <= j <= pawns.Length
      invariant forall k :: 0 <= k < j ==> pawns[k].id != id
    {
      j := j + 1;
    }
  }

  /** `pawns.every(p => p.isInHome)`. */
  method EveryPawnHome(pawns: array<Pawn>) returns (allHome: bool)
    ensures allHome == AllInHome(pawns[..])
  {
    allHome := true;
    var k := 0;
    while k < pawns.Length
      invariant 0 <= k <= pawns.Length
      invariant allHome <==> forall q :: 0 <= q < k ==> pawns[q].isInHome
    {
      allHome := allHome && pawns[k].isInHome;
      k := k + 1;
    }
  }

  /** The capture sweep (lines 136-148): every pawn of a player whose id is
      not `moverId`, standing unsafe on `cell`, is sent back to base, in
      place. */
  method CaptureOpponentPawns(players: seq<Player>, moverId: string, cell: int)
    requires DistinctSeats(players)
    modifies set p | p in players :: p.pawns
    ensures PlayersView(players) == CaptureOpponents(old(PlayersView(players)), moverId, cell)
  {
    ghost var before := PlayersView(players);
    var i := 0;
    while i < |players|
      invariant 0 <= i <= |players|
      invariant forall m :: 0 <= m < |players| ==> (players[m].View() ==
        if m < i && before[m].id != moverId
        then before[m].(pawns := CapturePawns(before[m].pawns, cell))
        else before[m])
    {
      var player := players[i];
      if player.id != moverId {
        CapturePawnsOn(player.pawns, cell);
      }
      i := i + 1;
    }
  }

  /** The inner sweep over one player's pawns. */
  method CapturePawnsOn(pawns: array<Pawn>, cell: int)
    modifies pawns
    ensures pawns[..] == CapturePawns(old(pawns[..]), cell)
  {
    var k := 0;
    while k < pawns.Length
      invariant 0 <= k <= pawns.Length
      invariant forall q :: 0 <= q < pawns.Length ==> (pawns[q] ==
        if q < k then CaptureAt(old(pawns[q]), cell) else old(pawns[q]))
    {
      var otherPawn := pawns[k];
      if otherPawn.position == cell && !otherPawn.isSafe {
        pawns[k] := pawns[k].(position := -1);
        pawns[k] := pawns[k].(isInBase := true);
        pawns[k] := pawns[k].(isSafe := false);
        pawns[k] := pawns[k].(isInHome := false);
      }
      k := k + 1;
    }
  }
}
