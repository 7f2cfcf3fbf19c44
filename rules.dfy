/**
 * The game's fixed rules: the number range of each difficulty, the score of a
 * won round, the time left in a round and the winner of a two-player match.
 * All of them are pure functions of their arguments.
 */
module Rules {
  import opened Wrappers

  // The three difficulty labels the game offers: easy, normal, hard.
  const Easy: string := "쉬움"
  const Normal: string := "보통"
  const Hard: string := "어려움"

  predicate IsDifficulty(name: string) {
    name == Easy || name == Normal || name == Hard
  }

  /** `x` lies in the inclusive range `r` = (lowest, highest). */
  predicate InRange(x: int, r: (int, int)) {
    r.0 <= x <= r.1
  }

  /**
   * The inclusive range of the hidden number for a difficulty label. A label
   * outside the table is not an error here: it gets the normal range.
   */
  function NumberRange(difficulty: string): (r: (int, int))
    ensures r.0 == 1 <= r.1
  {
    if difficulty == Easy then (1, 50)
    else if difficulty == Normal then (1, 100)
    else if difficulty == Hard then (1, 200)
    else (1, 100)
  }

  /** The table: each range belongs to exactly one difficulty, and every other label gets the normal range. */
  lemma NumberRangeTable(difficulty: string)
    ensures NumberRange(difficulty) == (1, 50) <==> difficulty == Easy
    ensures NumberRange(difficulty) == (1, 100) <==> !(difficulty == Easy || difficulty == Hard)
    ensures NumberRange(difficulty) == (1, 200) <==> difficulty == Hard
  {
  }

  /** The score lookup fails on a label it does not know (a missing key). */
  datatype ScoreError = UnknownDifficulty(name: string)

  /** Score multiplier of a difficulty as the fraction (numerator, denominator): 1, 1.5 and 2. */
  function Multiplier(difficulty: string): (m: (nat, nat))
    requires IsDifficulty(difficulty)
  {
    if difficulty == Easy then (1, 1)
    else if difficulty == Normal then (3, 2)
    else (2, 1)
  }

  /**
   * Division that truncates toward zero, as converting a float to an integer
   * does; Dafny's own `/` rounds down instead, which differs for negative `a`.
   */
  function TruncDiv(a: int, b: int): (q: int)
    requires b > 0
    ensures 0 <= a ==> 0 <= q * b <= a < q * b + b
    ensures a < 0 ==> q * b - b < a <= q * b <= 0
  {
    if a >= 0 then
      DivBounds(a, b);
      a / b
    else
      DivBounds(-a, b);
      -((-a) / b)
  }

  /** Rounding-down division of a non-negative number leaves a remainder below the divisor. */
  lemma DivBounds(a: nat, b: int)
    requires b > 0
    ensures 0 <= a / b
    ensures 0 <= (a / b) * b <= a < (a / b) * b + b
    ensures -(a / b) * b == -((a / b) * b)
  {
    var q, r := a / b, a % b;
    assert a == q * b + r && 0 <= r < b;
  }

  /** The score before the difficulty multiplier: 1000, less 50 per attempt and 2 per second. */
  function RawScore(attempts: nat, elapsed: nat): int {
    1000 - attempts * 50 - elapsed * 2
  }

  /**
   * The score of a won round: the raw score times the difficulty multiplier,
   * truncated toward zero, and never below zero. A label outside the table
   * is an error, not a default.
   */
  function CalculateScore(attempts: nat, elapsed: nat, difficulty: string): (r: Result<nat, ScoreError>)
    ensures r.Failure? <==> !IsDifficulty(difficulty)
    ensures r.Failure? ==> r.error == UnknownDifficulty(difficulty)
    ensures r.Success? ==>
      var raw, m := RawScore(attempts, elapsed), Multiplier(difficulty);
      r.value == if raw <= 0 then 0 else raw * m.0 / m.1
  {
    if !IsDifficulty(difficulty) then
      Failure(UnknownDifficulty(difficulty))
    else
      var m := Multiplier(difficulty);
      var scaled := TruncDiv(RawScore(attempts, elapsed) * m.0, m.1);
      Success(if scaled > 0 then scaled else 0)
  }

  lemma ScoreExamples()
    ensures CalculateScore(0, 0, Normal) == Success(1500)
    ensures CalculateScore(10, 30, Easy) == Success(440)
    ensures CalculateScore(0, 0, Hard) == Success(2000)
    ensures CalculateScore(100, 0, Hard) == Success(0)
    ensures CalculateScore(0, 0, "") == Failure(UnknownDifficulty(""))
  {
  }

  /** No score exceeds the multiplied base score of 1000, and twenty attempts always score zero. */
  lemma ScoreBounds(attempts: nat, elapsed: nat, difficulty: string)
    requires IsDifficulty(difficulty)
    ensures CalculateScore(attempts, elapsed, difficulty).value <= 1000 * Multiplier(difficulty).0 / Multiplier(difficulty).1
    ensures attempts >= 20 ==> CalculateScore(attempts, elapsed, difficulty).value == 0
  {
    var raw := RawScore(attempts, elapsed);
    if raw > 0 {
      ScaledMonotonic(raw, 1000, difficulty);
    }
  }

  /** Scaling by a difficulty's multiplier and rounding down keeps the order of non-negative raw scores. */
  lemma ScaledMonotonic(low: int, high: int, difficulty: string)
    requires 0 <= low <= high && IsDifficulty(difficulty)
    ensures low * Multiplier(difficulty).0 / Multiplier(difficulty).1 <= high * Multiplier(difficulty).0 / Multiplier(difficulty).1
  {
    if difficulty == Normal {
      assert low * 3 / 2 <= high * 3 / 2;
    }
  }

  /** More attempts never give a higher score. */
  lemma ScoreNonIncreasingInAttempts(fewer: nat, more: nat, elapsed: nat, difficulty: string)
    requires IsDifficulty(difficulty) && fewer <= more
    ensures CalculateScore(more, elapsed, difficulty).value <= CalculateScore(fewer, elapsed, difficulty).value
  {
    var low, high := RawScore(more, elapsed), RawScore(fewer, elapsed);
    if low > 0 {
      ScaledMonotonic(low, high, difficulty);
    }
  }

  /** More elapsed seconds never give a higher score. */
  lemma ScoreNonIncreasingInElapsed(attempts: nat, sooner: nat, later: nat, difficulty: string)
    requires IsDifficulty(difficulty) && sooner <= later
    ensures CalculateScore(attempts, later, difficulty).value <= CalculateScore(attempts, sooner, difficulty).value
  {
    var low, high := RawScore(attempts, later), RawScore(attempts, sooner);
    if low > 0 {
      ScaledMonotonic(low, high, difficulty);
    }
  }

  /** Seconds left in a round with limit `timeLimit` after `elapsed` seconds, never negative. */
  function RemainingTime(timeLimit: int, elapsed: nat): (r: nat)
    requires timeLimit > 0
    ensures r <= timeLimit
    ensures r == 0 <==> elapsed >= timeLimit
    ensures r > 0 ==> r + elapsed == timeLimit
  {
    if timeLimit - elapsed > 0 then timeLimit - elapsed else 0
  }

  /** Result of a finished two-player match. */
  datatype MatchResult = PlayerOneWins | PlayerTwoWins | Draw

  /** The winner is the player with the strictly greater total; equal totals are a draw. */
  function Winner(playerOne: int, playerTwo: int): (r: MatchResult)
    ensures r == PlayerOneWins <==> playerOne > playerTwo
    ensures r == PlayerTwoWins <==> playerOne < playerTwo
    ensures r == Draw <==> playerOne == playerTwo
  {
    if playerOne > playerTwo then PlayerOneWins
    else if playerOne < playerTwo then PlayerTwoWins
    else Draw
  }

  /** Swapping the two totals swaps the winner and keeps a draw. */
  lemma WinnerSymmetric(playerOne: int, playerTwo: int)
    ensures Winner(playerOne, playerTwo) == PlayerOneWins <==> Winner(playerTwo, playerOne) == PlayerTwoWins
    ensures Winner(playerOne, playerTwo) == Draw <==> Winner(playerTwo, playerOne) == Draw
  {
  }
}
