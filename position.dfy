/** The position calculator, calculateNewPosition
    (src/utils/gameLogic.ts:66-106). */
module Position {
  import opened LudoTypes
  import opened Board

  /** How far a pawn at `position` has gone from the start cell `start`,
      counting a wrap past cell 51 as one lap.  The source applies this to
      any position, home-stretch cells included. */
  function StepsFromStart(position: int, start: int): int {
    if position >= start then position - start else (TrackLength - start) + position
  }

  /** The cell a pawn of colour `color` reaches with `diceValue`, or -1 when
      it cannot move.  The home-entrance table is looked up by the source
      but plays no part in the result. */
  function CalculateNewPosition(pawn: Pawn, diceValue: int, color: Color): (r: int)
    ensures 1 <= diceValue <= 6 && -1 <= pawn.position <= 57 ==> -1 <= r <= 57
    ensures pawn.isInBase ==> 0 <= r < TrackLength
  {
    if pawn.isInBase then StartingPosition(color)
    else if pawn.isInHome then -1
    else
      var startPos := StartingPosition(color);
      var stepsFromStart := StepsFromStart(pawn.position, startPos);
      if stepsFromStart + diceValue >= 51 then
        var stepsIntoHome := stepsFromStart + diceValue - 51;
        if stepsIntoHome <= 5 then 52 + stepsIntoHome else -1
      else
        var newPos := pawn.position + diceValue;
        if newPos >= TrackLength then newPos - TrackLength else newPos
  }

  /** An independent statement of a move from the shared track: the distance
      from the start is taken modulo the lap, a move that stays short of 51
      steps goes round the ring, one that reaches 51..56 steps lands on the
      home stretch, and one that goes further is rejected. */
  function TrackTarget(position: int, start: int, diceValue: int): int {
    var steps := (position - start) % TrackLength;
    if steps + diceValue < 51 then (position + diceValue) % TrackLength
    else if steps + diceValue - 51 <= 5 then 52 + (steps + diceValue - 51)
    else -1
  }

  /** A pawn in base always goes to its colour's start cell, whatever the
      die; a pawn already home is always rejected. */
  lemma BaseAndHomeCases(pawn: Pawn, diceValue: int, color: Color)
    ensures pawn.isInBase ==>
      CalculateNewPosition(pawn, diceValue, color) == StartingPosition(color) &&
      CalculateNewPosition(pawn, diceValue, color) == (match color
        case Red => 0 case Blue => 13 case Green => 26 case Yellow => 39)
    ensures !pawn.isInBase && pawn.isInHome ==> CalculateNewPosition(pawn, diceValue, color) == -1
  {
  }

  /** On the shared track the calculator agrees with TrackTarget. */
  lemma TrackMove(pawn: Pawn, diceValue: int, color: Color)
    requires !pawn.isInBase && !pawn.isInHome
    requires 0 <= pawn.position < TrackLength && 1 <= diceValue <= 6
    ensures CalculateNewPosition(pawn, diceValue, color)
         == TrackTarget(pawn.position, StartingPosition(color), diceValue)
  {
    var start := StartingPosition(color);
    if pawn.position >= start {
      assert (pawn.position - start) % TrackLength == pawn.position - start;
    } else {
      assert (pawn.position - start) % TrackLength == TrackLength - start + pawn.position;
    }
    if pawn.position + diceValue >= TrackLength {
      assert (pawn.position + diceValue) % TrackLength == pawn.position + diceValue - TrackLength;
    } else {
      assert (pawn.position + diceValue) % TrackLength == pawn.position + diceValue;
    }
  }

  /** A track pawn can move exactly when the die does not carry it past the
      last home-stretch cell: its steps from the start plus the die are at
      most 56. */
  lemma TrackMoveAccepted(pawn: Pawn, diceValue: int, color: Color)
    requires !pawn.isInBase && !pawn.isInHome
    requires 0 <= pawn.position < TrackLength && 1 <= diceValue <= 6
    ensures CalculateNewPosition(pawn, diceValue, color) != -1
        <==> (pawn.position - StartingPosition(color)) % TrackLength + diceValue <= 56
  {
    TrackMove(pawn, diceValue, color);
  }

  /** Worked examples at the entrance of the home stretch. */
  lemma HomeEntryExamples()
    ensures CalculateNewPosition(Pawn(PawnId("p", 0), "p", 50, false, false, false), 1, Red) == 52
    ensures CalculateNewPosition(Pawn(PawnId("p", 0), "p", 50, false, false, false), 6, Red) == 57
    ensures CalculateNewPosition(Pawn(PawnId("p", 0), "p", 51, false, false, false), 6, Red) == -1
    ensures CalculateNewPosition(Pawn(PawnId("p", 0), "p", 11, false, false, false), 2, Blue) == 53
    ensures CalculateNewPosition(Pawn(PawnId("p", 0), "p", 51, false, false, false), 3, Blue) == 2
  {
  }

  /** A pawn on the home stretch but not yet home goes through the same
      arithmetic as a track pawn: red at 52 with a 1 skips to 54, and blue
      at 52 with a 1 wraps back to track cell 1. */
  lemma HomeStretchExamples()
    ensures CalculateNewPosition(Pawn(PawnId("p", 0), "p", 52, false, false, true), 1, Red) == 54
    ensures CalculateNewPosition(Pawn(PawnId("p", 0), "p", 52, false, false, true), 1, Blue) == 1
    ensures CalculateNewPosition(Pawn(PawnId("p", 0), "p", 56, false, false, true), 1, Red) == -1
  {
  }
}
