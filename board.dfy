/** Board topology: the per-colour start cells, the safe cells and the
    per-colour home entrances (src/utils/gameLogic.ts:3-20). */
module Board {
  import opened LudoTypes

  /** Number of cells on the shared circular track. */
  const TrackLength: int := 52

  /** The track cell where a pawn of colour c enters play. */
  function StartingPosition(c: Color): (r: int)
    ensures 0 <= r < TrackLength && r % 13 == 0
  {
    match c
    case Red => 0
    case Blue => 13
    case Green => 26
    case Yellow => 39
  }

  /** The cells where a pawn cannot be captured. */
  const SafePositions: seq<int> := [0, 8, 13, 21, 26, 34, 39, 47]

  predicate IsSafePosition(x: int) {
    x in SafePositions
  }

  /** The track cell just before the home stretch of colour c.  The position
      calculator looks this table up but never uses the value; it counts
      steps from the start cell instead, and the entrance is the cell 51
      steps past the start. */
  function HomeEntrance(c: Color): (r: int)
    ensures r == (StartingPosition(c) + 51) % TrackLength
  {
    match c
    case Red => 51
    case Blue => 12
    case Green => 25
    case Yellow => 38
  }

  /** Every start cell is safe, so a pawn that has just left base is safe. */
  lemma StartingPositionsAreSafe(c: Color)
    ensures IsSafePosition(StartingPosition(c))
  {
  }

  /** Two different colours never share a start cell. */
  lemma StartingPositionsDistinct(c: Color, d: Color)
    requires c != d
    ensures StartingPosition(c) != StartingPosition(d)
  {
  }
}
