# Ludo rules engine in Dafny

This project models the rules engine of a four-player Ludo game, the file
`src/utils/gameLogic.ts`. It covers these parts:

- the board constants: the start cell of each colour (red 0, blue 13,
  green 26, yellow 39), the safe cells {0, 8, 13, 21, 26, 34, 39, 47}, and
  the home-entrance table, which the position calculator looks up but
  never uses;
- `createPlayer`, which builds a player whose four pawns are in base;
- `canMovePawnOutOfBase` and `getValidMoves`, which list the pawns that can
  move for a die value, in pawn order;
- `calculateNewPosition`. It measures the move from the colour's start cell
  on the 52-cell ring. After 51 steps the pawn enters the home stretch
  (cells 52..57), and a move past cell 57 is rejected with -1;
- `movePawn`. It covers leaving base, an ordinary move, the safe and home
  flags, capturing the unsafe opposing pawns on the landing cell, and the
  win check;
- `getNextPlayer`, the turn rotation;
- `makeAIMove`, the computer player's move choice.

A pawn's position is -1 in base, 0..51 on the shared track and 52..57 in
the home stretch. The model follows the code as written. A comment in the
code calls the home stretch 52-56, but the code produces 52..57. A pawn
already in the home stretch goes through the same step arithmetic as a
pawn on the track, so red on 52 with a 1 lands on 54 and blue on 52 with a
1 returns to track cell 1 (`Position.HomeStretchExamples`).

A new player who rolls a 6 can move any of its four pawns, and on any
other value it has no move (`Engine.OpeningMoves`).

The modules are:

- `LudoTypes` (`types.dfy`): the records of `src/types/game.ts` as values.
- `Board` (`board.dfy`): the constants.
- `Position` (`position.dfy`): the position calculator, plus a reference
  definition `TrackTarget` written with the modulus.
- `Moves` (`moves.dfy`): the move enumerator and the pawn lookup `find`.
- `Turn` (`turn.dfy`): the turn rotation.
- `Apply` (`apply.dfy`): `movePawn` stated on values as `MovedState`, and
  what it does.
- `Engine` (`engine.dfy`): the heap objects. `movePawn` is not
  value-semantic: `{ ...gameState }` is a shallow copy, so it edits the
  pawns and the winner flag of the player objects that the input state
  shares. `Player` holds its pawns in an array, and
  `GameState.MovePawn` edits them in place. The returned state is proved
  to be the caller's own state exactly when the id is unknown, and its
  snapshot is proved to be `MovedState`. The caller's state is proved to
  hold the same players as the returned one, with the same edits, while
  keeping its own winner and phase, because the source writes those only
  to the copy.
- `Strategy` (`strategy.dfy`): the computer player.

## Model

| member | source | states |
|---|---|---|
| Board.StartingPosition | src/utils/gameLogic.ts:4-9 | a start cell is a track cell and a multiple of 13 |
| Board.HomeEntrance | src/utils/gameLogic.ts:15-20 | each colour's entrance cell is 51 steps past its start cell, modulo 52 |
| Board.StartingPositionsAreSafe | src/utils/gameLogic.ts:4-12 | every start cell is in the safe set |
| Board.StartingPositionsDistinct | src/utils/gameLogic.ts:4-9 | two colours never share a start cell |
| Position.CalculateNewPosition | src/utils/gameLogic.ts:66-106 | for a position in -1..57 and a die of 1..6 the result is -1 or a cell in 0..57; a pawn in base gets a track cell |
| Position.BaseAndHomeCases | src/utils/gameLogic.ts:66-73 | a pawn in base gets its colour's start cell whatever the die (red 0, blue 13, green 26, yellow 39); a pawn already home gets -1 |
| Position.TrackMove | src/utils/gameLogic.ts:75-105 | for a track pawn and a die of 1..6 the result is `(position + d) mod 52` below 51 steps, then `52 + excess` up to an excess of 5, and -1 beyond |
| Position.TrackMoveAccepted | src/utils/gameLogic.ts:83-98 | a track pawn can move exactly when its steps from the start plus the die are at most 56 |
| Position.HomeEntryExamples | src/utils/gameLogic.ts:83-105 | red 50 + 1 gives 52; red 50 + 6 gives 57; red 51 + 6 gives -1; blue 11 + 2 gives 53; blue 51 + 3 wraps to 2 |
| Position.HomeStretchExamples | src/utils/gameLogic.ts:83-105 | a home-stretch pawn uses the track arithmetic: red 52 + 1 gives 54, blue 52 + 1 gives 1, red 56 + 1 gives -1 |
| Moves.CanMovePawnOutOfBase | src/utils/gameLogic.ts:45-47 | of the die's values only 6 lets a pawn leave base |
| Moves.GetValidMoves | src/utils/gameLogic.ts:49-64 | the loop's pushes produce exactly the listed ids `ValidMoves`, in pawn order |
| Moves.ValidMoveRules | src/utils/gameLogic.ts:52-60 | a pawn in base is listed iff the die is 6; a pawn home is never listed; any other pawn is listed iff its target is not -1 |
| Moves.ValidMovesIsFilter | src/utils/gameLogic.ts:49-64 | the listed ids are those of a strictly increasing selection of pawns, each of them movable, and every movable pawn is selected |
| Moves.ValidMovesMembership | src/utils/gameLogic.ts:49-64 | an id is listed iff some movable pawn carries it |
| Moves.FindPawn | src/utils/gameLogic.ts:111 | `find` gives the first pawn with the id, or reports that there is none |
| Moves.ValidMoveIsFound | src/utils/gameLogic.ts:187 | a listed id always names one of the player's pawns, so the non-null assertions on `find` hold |
| Turn.JsRemainder | src/utils/gameLogic.ts:168 | JavaScript's truncating `%`: the dividend is a multiple of the divisor plus the result, the result has the sign of the dividend and is smaller than the divisor in size, and a dividend equal to the divisor gives 0 |
| Turn.GetNextPlayer | src/utils/gameLogic.ts:162-169 | a 6 keeps the turn; otherwise the next seat, wrapping from the last to the first; a valid seat gives a valid seat |
| Turn.RotationIsRoundRobin | src/utils/gameLogic.ts:162-169 | without sixes the turn visits the seats in order, and after n rolls it is back at the starting seat |
| Apply.MovedState | src/utils/gameLogic.ts:108-160 | only the players, the winner and the phase can change; the turn, die, selection, mode and difficulty are kept |
| Apply.MovedStateKeepsRoster | src/utils/gameLogic.ts:108-160 | every seat keeps its player (id, name, colour, AI flag) and the same pawns by id and owner, in order |
| Apply.MovePawnUnknownId | src/utils/gameLogic.ts:110-113 | an id that is not one of the current player's pawns returns the state unchanged |
| Apply.MovePawnLeaveBase | src/utils/gameLogic.ts:115-121 | leaving base puts the pawn on the start cell, out of base and safe; no other pawn, flag, winner or phase changes |
| Apply.MovePawnOrdinary | src/utils/gameLogic.ts:123-149 | the pawn takes the target; it is safe iff the target is a safe cell or at least 52; it is home iff it was home or the target is 57. The mover's other pawns are untouched. An opposing pawn is sent to base iff the target is an unsafe track cell, its owner's id differs from the mover's, and it stands unsafe on the target |
| Apply.WinCheckOutcome | src/utils/gameLogic.ts:151-157 | the win check crowns the mover and sets the winner and the finished phase iff all its pawns are home; nothing else changes |
| Apply.MovePawnWinCheck | src/utils/gameLogic.ts:151-157 | after an ordinary move the mover wins iff all its pawns are home: its flag, the winner and the finished phase are set; otherwise the winner and phase stay; no other player's flag changes |
| Apply.SafePawnsAreImmune | src/utils/gameLogic.ts:134-149 | a safe pawn, other than the one being moved, is never changed by any move |
| Apply.MovePawnKeepsWellFormed | src/utils/gameLogic.ts:108-160 | a listed move to the calculator's target keeps every pawn's base, home and safe flags consistent with its position |
| Apply.LeaveBaseKeepsWellFormed | src/utils/gameLogic.ts:115-121 | leaving base keeps every pawn's flags consistent with its position |
| Apply.OrdinaryMoveKeepsWellFormed | src/utils/gameLogic.ts:123-157 | an ordinary move of an unhomed track pawn to a cell in 0..57 keeps every pawn's flags consistent, captured pawns included |
| Engine.Player.constructor | src/utils/gameLogic.ts:22-43 | a new player has the given id, name, colour and AI flag, is not a winner, and has four fresh pawns in base at -1, numbered 0..3 |
| Engine.InitialPawnsWellFormed | src/utils/gameLogic.ts:23-33 | the four initial pawns have consistent flags |
| Engine.OpeningMoves | src/utils/gameLogic.ts:22-64 | a new player can move all four pawns on a 6 and none on any other value |
| Engine.GameState.constructor | src/utils/gameLogic.ts:109 | the object literal and the shallow copy `{ ...gameState }`: every field is the given one, the players are shared, not copied, and no seat shares objects with another |
| Engine.GameState.MovePawn | src/utils/gameLogic.ts:108-160 | the result is this very state exactly when the id is not one of the current player's pawns, and otherwise a fresh copy sharing the players. Its snapshot is `MovedState` of the old snapshot. This state keeps its own fields but sees the shared pawn and winner-flag edits; no seat shares objects with another |
| Engine.GameState.LeaveBaseMove | src/utils/gameLogic.ts:115-121 | the pawn is rewritten as leaving base, in place; the copy keeps every other field |
| Engine.GameState.BoardMove | src/utils/gameLogic.ts:123-159 | move, captures and win check, in place; the copy carries the winner and phase of the win check |
| Engine.MoveAndCapture | src/utils/gameLogic.ts:123-149 | the pawn is rewritten for its target and then the capture sweep runs when the pawn ends unsafe on a track cell |
| Engine.CheckWinner | src/utils/gameLogic.ts:151-157 | reports whether all the mover's pawns are home and, if so, crowns it; nothing else changes |
| Engine.WritePawn | src/utils/gameLogic.ts:117-119 | the field writes on one pawn change only that pawn of that player |
| Engine.CrownWinner | src/utils/gameLogic.ts:154 | only that player's winner flag is set |
| Engine.Find | src/utils/gameLogic.ts:111 | the scan stops at the first pawn with the id, as `FindPawn` does |
| Engine.EveryPawnHome | src/utils/gameLogic.ts:152 | true iff every pawn of the array is home |
| Engine.CaptureOpponentPawns | src/utils/gameLogic.ts:136-148 | every player whose id differs from the mover's has its unsafe pawns on the cell sent to base, in place; no other pawn changes |
| Engine.CapturePawnsOn | src/utils/gameLogic.ts:138-146 | the inner sweep sends exactly the unsafe pawns on the cell to base |
| Strategy.CapturableOnZero | src/utils/gameLogic.ts:206-210 | a player's count of capturable pawns is zero iff none of its pawns stands unsafe on the cell |
| Strategy.OpponentCapturableZero | src/utils/gameLogic.ts:204-212 | the opponents' count is zero iff no pawn of another player stands unsafe on the cell |
| Strategy.ScoresAreNonNegative | src/utils/gameLogic.ts:193-215 | every score is at least 0, so the initial best score of -1 is always beaten |
| Strategy.CaptureBonus | src/utils/gameLogic.ts:203-212 | a move earns the capture bonus of at least 15 iff some opponent pawn stands unsafe on its target |
| Strategy.CaptureBonusIsReal | src/utils/gameLogic.ts:204-212 | when the flags are consistent, the bonus is only counted for a target where `movePawn` captures (an unsafe track cell) |
| Strategy.ScoresAt | src/utils/gameLogic.ts:195-215 | the i-th score is that of the i-th listed move |
| Strategy.FirstMaxIsFirstLargest | src/utils/gameLogic.ts:217-219 | the kept index holds a largest score, and every score before it is smaller |
| Strategy.FirstMaxUnique | src/utils/gameLogic.ts:217-219 | the first index of the largest score is the only index with those two properties |
| Strategy.FirstMaxScanStep | src/utils/gameLogic.ts:217-219 | with a strict `>`, a new score replaces the best iff it is higher, so ties keep the earlier move |
| Strategy.ScoreMove | src/utils/gameLogic.ts:196-215 | the nested sweeps compute +10 for leaving base, +15 per unsafe opposing pawn on the target, +5 for a home-stretch target |
| Strategy.ScoreListed | src/utils/gameLogic.ts:196-215 | a listed move's score is looked up, computed and non-negative |
| Strategy.BestMove | src/utils/gameLogic.ts:193-220 | the scan keeps the first listed move with the largest score |
| Strategy.MakeAIMove | src/utils/gameLogic.ts:175-226 | returns no move iff `getValidMoves` lists none. A returned pawn is listed, and its position is the calculator's target. Above the easy level it is the first listed move with the largest score |

## Left out

- `rollDice` (src/utils/gameLogic.ts:171-173) draws from `Math.random`. The die is a parameter of every operation instead.
- Strategy.MakeAIMove: the easy level's `Math.random` index is modelled as an arbitrary choice among the listed moves. The contract therefore states only that the choice is listed and that its position is the calculator's target.
- Turn.GetNextPlayer: requires at least one player when the die is not 6; with no players the source's remainder by zero is NaN, which is not an integer.
- Engine.GameState.MovePawn: the copy `{ ...gameState }` is made at the end of the move, not at line 109. Between those points the source reads the copy's `players` and `currentPlayerIndex` (lines 110 and 136). These equal the original's fields, so the model reads them from the original. The copy is then built with the same players and fields, and with the winner and phase that the source writes into it.
- Engine.GameState.MovePawn, Apply.MovedState and Strategy.MakeAIMove require `0 <= currentPlayerIndex < |players|`. With any other index the source throws a TypeError on `currentPlayer.pawns` (lines 111 and 52); the game's callers always pass a valid index.
- Engine.Player.constructor: `createPlayer`'s default `isAI = false` (line 22) is a required parameter; a caller that omits it corresponds to passing `false`.
- Pawn ids `${id}-pawn-${i}` are the pair `PawnId(owner, index)`. Player ids stay strings, and no uniqueness of ids is assumed.
- JavaScript numbers are doubles. The model uses unbounded integers, which agree with them for the small values involved. The one place where the two differ is the remainder in `getNextPlayer`, which truncates toward zero and is written out as such.
- Strategy.ScoreOf gives -1 for an id that is not one of the current player's pawns. The source dereferences `undefined` there, but a listed id always names a pawn (`Moves.ValidMoveIsFound`), so the case never arises.
- `movePawn` carries the fields `possibleMoves`, `selectedPawn` and `gameMode` through unchanged, and nothing in the core reads them.
- The React components, the board geometry (`src/utils/boardPositions.ts`) and the game setup in `src/App.tsx` are rendering and wiring only; they are not part of this model.
