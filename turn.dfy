/** The turn controller, getNextPlayer (src/utils/gameLogic.ts:162-169). */
module Turn {
  import opened LudoTypes

  /** JavaScript's `%`, which truncates toward zero: the remainder takes the
      sign of the dividend. */
  function JsRemainder(a: int, n: int): (r: int)
    requires n > 0
    ensures a >= 0 ==> 0 <= r < n
    ensures a < 0 ==> -n < r <= 0
    ensures a == n ==> r == 0
    ensures exists q :: a == q * n + r
  {
    if a >= 0 then
      assert a == (a / n) * n + a % n;
      a % n
    else
      assert -a == ((-a) / n) * n + (-a) % n;
      assert a == (-((-a) / n)) * n + -((-a) % n);
      -((-a) % n)
  }

  /** Unlike Dafny's `%`, the truncating remainder is odd in the dividend:
      negating the dividend negates the remainder. */
  lemma JsRemainderIsOdd(a: int, n: int)
    requires n > 0
    ensures JsRemainder(-a, n) == -JsRemainder(a, n)
  {
  }

  /** A 6 keeps the turn; any other value passes it to the next seat,
      wrapping from the last seat to the first.  A 6 returns before the
      remainder is taken, so it keeps the turn even with no players; on any
      other value with no players the remainder by zero is NaN, which is not
      a seat, so that case is excluded. */
  function GetNextPlayer(gameState: GameView, diceValue: int): (r: int)
    requires diceValue != 6 ==> |gameState.players| > 0
    ensures diceValue == 6 ==> r == gameState.currentPlayerIndex
    ensures diceValue != 6 && 0 <= gameState.currentPlayerIndex < |gameState.players| ==>
      r == if gameState.currentPlayerIndex + 1 == |gameState.players| then 0
           else gameState.currentPlayerIndex + 1
    ensures 0 <= gameState.currentPlayerIndex < |gameState.players| ==> 0 <= r < |gameState.players|
  {
    if diceValue == 6 then gameState.currentPlayerIndex
    else JsRemainder(gameState.currentPlayerIndex + 1, |gameState.players|)
  }

  /** The seat whose turn it is after `turns` rolls that are not 6. */
  function SeatAfter(gameState: GameView, turns: nat): int
    requires |gameState.players| > 0
    decreases turns
  {
    if turns == 0 then gameState.currentPlayerIndex
    else
      var previous := SeatAfter(gameState, turns - 1);
      GetNextPlayer(gameState.(currentPlayerIndex := previous), 1)
  }

  /** Without sixes the turn goes round the table in seat order: the k-th
      roll after seat i (k at most the number of players n) hands the turn
      to seat i + k, counted modulo n, so in n rolls every seat plays once
      and the turn comes back to seat i. */
  lemma {:induction false} RotationIsRoundRobin(gameState: GameView, turns: nat)
    requires 0 <= gameState.currentPlayerIndex < |gameState.players|
    requires turns <= |gameState.players|
    ensures var i, n := gameState.currentPlayerIndex, |gameState.players|;
      SeatAfter(gameState, turns) == if i + turns < n then i + turns else i + turns - n
    decreases turns
  {
    if turns > 0 {
      RotationIsRoundRobin(gameState, turns - 1);
    }
  }
}
