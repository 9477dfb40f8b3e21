/** The records of src/types/game.ts, as values.  The heap-allocated versions
    that movePawn edits in place live in module Engine; these are their
    snapshots, and the pure rules are stated over them. */
module LudoTypes {

  datatype Option<+T> = None | Some(value: T)

  /** The four fixed colours; each has its own start cell on the shared track. */
  datatype Color = Red | Blue | Green | Yellow

  /** A pawn id.  The source builds it as the string `<player id>-pawn-<i>`;
      the model keeps the two parts, which makes distinct (owner, index)
      pairs distinct ids. */
  datatype PawnId = PawnId(owner: string, index: int)

  /** position: -1 in base, 0..51 a cell of the shared track, 52..57 the
      owner's private home stretch (57 is fully home). */
  datatype Pawn = Pawn(
    id: PawnId,
    playerId: string,
    position: int,
    isInBase: bool,
    isInHome: bool,
    isSafe: bool)

  datatype PlayerView = PlayerView(
    id: string,
    name: string,
    color: Color,
    pawns: seq<Pawn>,
    isAI: bool,
    isWinner: bool)

  datatype GamePhase = Waiting | Rolling | Moving | Finished

  datatype GameMode = Offline | AI | Online

  datatype AIDifficulty = Easy | Medium | Hard

  datatype GameView = GameView(
    players: seq<PlayerView>,
    currentPlayerIndex: int,
    diceValue: int,
    gamePhase: GamePhase,
    possibleMoves: seq<PawnId>,
    selectedPawn: Option<PawnId>,
    winner: Option<string>,
    gameMode: GameMode,
    aiDifficulty: AIDifficulty)

  /** What makeAIMove returns when it finds a move. */
  datatype AIMove = AIMove(pawnId: PawnId, position: int)
}
