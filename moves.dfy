/** The move enumerator: canMovePawnOutOfBase and getValidMoves
    (src/utils/gameLogic.ts:45-64), and the pawn lookup `pawns.find` that
    movePawn and makeAIMove use. */
module Moves {
  import opened LudoTypes
  import opened Board
  import opened Position

  /** Whether the die lets a pawn leave base: of the die's faces, only 6. */
  predicate CanMovePawnOutOfBase(diceValue: int): (r: bool)
    ensures r <==> diceValue == 6
  {
    diceValue == 6
  }

  /** Whether getValidMoves lists pawn p: a pawn in base needs a 6; a pawn
      neither in base nor home needs a target other than -1. */
  predicate IsValidMove(p: Pawn, color: Color, diceValue: int) {
    || (p.isInBase && CanMovePawnOutOfBase(diceValue))
    || (!p.isInBase && !p.isInHome && CalculateNewPosition(p, diceValue, color) != -1)
  }

  /** The ids getValidMoves pushes, pawn by pawn. */
  function ValidMoves(pawns: seq<Pawn>, color: Color, diceValue: int): seq<PawnId>
  {
    if |pawns| == 0 then []
    else
      var last := pawns[|pawns| - 1];
      ValidMoves(pawns[..|pawns| - 1], color, diceValue)
        + (if IsValidMove(last, color, diceValue) then [last.id] else [])
  }

  method GetValidMoves(player: PlayerView, diceValue: int) returns (validMoves: seq<PawnId>)
    ensures validMoves == ValidMoves(player.pawns, player.color, diceValue)
  {
    validMoves := [];
    var i := 0;
    while i < |player.pawns|
      invariant 0 <= i <= |player.pawns|
      invariant validMoves == ValidMoves(player.pawns[..i], player.color, diceValue)
    {
      var pawn := player.pawns[i];
      if pawn.isInBase && CanMovePawnOutOfBase(diceValue) {
        validMoves := validMoves + [pawn.id];
      } else if !pawn.isInBase && !pawn.isInHome {
        var newPosition := CalculateNewPosition(pawn, diceValue, player.color);
        if newPosition != -1 {
          validMoves := validMoves + [pawn.id];
        }
      }
      assert player.pawns[..i + 1][..i] == player.pawns[..i];
      i := i + 1;
    }
    assert player.pawns[..i] == player.pawns;
  }

  /** The three rules of the enumerator, one per kind of pawn. */
  lemma ValidMoveRules(p: Pawn, color: Color, diceValue: int)
    ensures p.isInBase ==> (IsValidMove(p, color, diceValue) <==> diceValue == 6)
    ensures !p.isInBase && p.isInHome ==> !IsValidMove(p, color, diceValue)
    ensures !p.isInBase && !p.isInHome ==>
      (IsValidMove(p, color, diceValue) <==> CalculateNewPosition(p, diceValue, color) != -1)
  {
  }

  /** getValidMoves is an order-preserving filter: its result lists, in pawn
      order, the ids of exactly the pawns that have a legal move.  `idx`
      gives the position in `pawns` of each listed id. */
  lemma {:induction false} ValidMovesIsFilter(pawns: seq<Pawn>, color: Color, diceValue: int)
    returns (idx: seq<int>)
    ensures |idx| == |ValidMoves(pawns, color, diceValue)|
    ensures forall k :: 0 <= k < |idx| ==>
      0 <= idx[k] < |pawns| && IsValidMove(pawns[idx[k]], color, diceValue) &&
      ValidMoves(pawns, color, diceValue)[k] == pawns[idx[k]].id
    ensures forall k, l :: 0 <= k < l < |idx| ==> idx[k] < idx[l]
    ensures forall j :: 0 <= j < |pawns| && IsValidMove(pawns[j], color, diceValue) ==> j in idx
  {
    if |pawns| == 0 {
      idx := [];
    } else {
      var n := |pawns| - 1;
      var front := pawns[..n];
      var rest := ValidMovesIsFilter(front, color, diceValue);
      assert forall j :: 0 <= j < n ==> front[j] == pawns[j];
      if IsValidMove(pawns[n], color, diceValue) {
        idx := rest + [n];
      } else {
        idx := rest;
      }
    }
  }

  /** An id is listed exactly when some pawn with that id has a legal move. */
  lemma ValidMovesMembership(pawns: seq<Pawn>, color: Color, diceValue: int, id: PawnId)
    ensures id in ValidMoves(pawns, color, diceValue) <==>
      exists j :: 0 <= j < |pawns| && pawns[j].id == id && IsValidMove(pawns[j], color, diceValue)
  {
    var idx := ValidMovesIsFilter(pawns, color, diceValue);
    var moves := ValidMoves(pawns, color, diceValue);
    if id in moves {
      var k :| 0 <= k < |moves| && moves[k] == id;
      assert pawns[idx[k]].id == id;
    }
    if exists j :: 0 <= j < |pawns| && pawns[j].id == id && IsValidMove(pawns[j], color, diceValue) {
      var j :| 0 <= j < |pawns| && pawns[j].id == id && IsValidMove(pawns[j], color, diceValue);
      var k :| 0 <= k < |idx| && idx[k] == j;
      assert moves[k] == id;
    }
  }

  /** `pawns.find(p => p.id === id)`: the index of the first pawn with that
      id, or |pawns| when there is none. */
  function FindPawn(pawns: seq<Pawn>, id: PawnId): (j: nat)
    ensures j <= |pawns|
    ensures j < |pawns| ==> pawns[j].id == id
    ensures forall k :: 0 <= k < j ==> pawns[k].id != id
  {
    if |pawns| == 0 then 0
    else if pawns[0].id == id then 0
    else 1 + FindPawn(pawns[1..], id)
  }

  /** Every listed id is found among the pawns (the `!` after `find` in
      makeAIMove never fails). */
  lemma ValidMoveIsFound(pawns: seq<Pawn>, color: Color, diceValue: int, id: PawnId)
    requires id in ValidMoves(pawns, color, diceValue)
    ensures FindPawn(pawns, id) < |pawns|
  {
    ValidMovesMembership(pawns, color, diceValue, id);
  }
}
