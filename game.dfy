/**
 * The game session: the live round (hidden number, attempt count, whether
 * the round is over), the leaderboard, and the two-player turn state. The
 * page's widgets become the parameters of the two user actions, NewGame and
 * Play; the random draw, the clock and the date label are parameters too.
 */
module Game {
  import opened Wrappers
  import opened Rules
  import Leaderboard

  datatype Player = PlayerOne | PlayerTwo

  datatype Mode = Single | Multi

  /** What one pass over the page reports for the round. */
  datatype Outcome =
    | NotStarted                 // no round has been started yet
    | Waiting                    // nothing submitted, or the round is over with time left
    | GoHigher                   // the guess is below the hidden number
    | GoLower                    // the guess is above the hidden number
    | Correct(attempts: nat, score: nat, matchResult: Option<MatchResult>)
    | TimeUp                     // no time left: the round is over

  /** Every field of a session, as one value. */
  datatype State = State(
    randomNumber: int,
    attempts: nat,
    gameOver: bool,
    gameInitialized: bool,
    highScores: seq<Leaderboard.Entry>,
    currentPlayer: Player,
    players: map<Player, int>,
    currentRound: int,
    currentDifficulty: string,
    gameMode: Mode)

  /** The number of two-player rounds in a match. */
  const TotalRounds: int := 3

  /**
   * The session after a won round worth `score`, from the state `s` in which
   * the winning attempt is already counted. In single-player mode the entry
   * goes to the leaderboard; in two-player mode the score goes to the player
   * on turn and the turn passes. Either way the round ends.
   */
  ghost function AfterWin(s: State, score: nat, date: string, nextTarget: int): State
    requires PlayerOne in s.players && PlayerTwo in s.players
  {
    if s.gameMode == Single then
      var entry := Leaderboard.Entry(score, s.attempts, date, s.currentDifficulty);
      s.(gameOver := true, highScores := Leaderboard.Save(s.highScores, entry))
    else if s.currentPlayer == PlayerOne then
      s.(players := s.players[PlayerOne := s.players[PlayerOne] + score],
         currentPlayer := PlayerTwo, randomNumber := nextTarget, attempts := 0,
         gameOver := true, gameInitialized := true)
    else
      s.(players := s.players[PlayerTwo := s.players[PlayerTwo] + score],
         currentPlayer := PlayerOne, currentRound := s.currentRound + 1, gameOver := true)
  }

  /** The match result reported by a won round: only after the last round of the second player. */
  ghost function MatchAfterWin(s: State, score: nat): Option<MatchResult>
    requires PlayerOne in s.players && PlayerTwo in s.players
  {
    if s.gameMode == Multi && s.currentPlayer == PlayerTwo && s.currentRound + 1 > TotalRounds
    then Some(Winner(s.players[PlayerOne], s.players[PlayerTwo] + score))
    else None
  }

  /** A won round from `s` to `t`, reported as `outcome`. */
  ghost predicate WinRecorded(s: State, t: State, elapsed: nat, date: string, nextTarget: int, outcome: Outcome)
  {
    && PlayerOne in s.players && PlayerTwo in s.players
    && outcome.Correct?
    && outcome.attempts == s.attempts
    && Success(outcome.score) == CalculateScore(s.attempts, elapsed, s.currentDifficulty)
    && t == AfterWin(s, outcome.score, date, nextTarget)
    && outcome.matchResult == MatchAfterWin(s, outcome.score)
  }

  class Session {
    var randomNumber: int
    var attempts: nat
    var gameOver: bool
    var gameInitialized: bool
    var highScores: seq<Leaderboard.Entry>
    var currentPlayer: Player
    var players: map<Player, int>
    var currentRound: int
    const totalRounds: int
    var currentDifficulty: string
    var gameMode: Mode

    ghost function Snapshot(): State
      reads this
    {
      State(randomNumber, attempts, gameOver, gameInitialized, highScores,
            currentPlayer, players, currentRound, currentDifficulty, gameMode)
    }

    /** The session invariant, apart from where the hidden number lies. */
    ghost predicate Consistent()
      reads this
    {
      && PlayerOne in players && PlayerTwo in players
      && IsDifficulty(currentDifficulty)
      && totalRounds == TotalRounds
      && Leaderboard.Sorted(highScores) && |highScores| <= Leaderboard.Capacity
    }

    /** The session invariant: once a round has started, its hidden number lies in the difficulty's range. */
    ghost predicate Valid()
      reads this
    {
      && Consistent()
      && (gameInitialized ==> InRange(randomNumber, NumberRange(currentDifficulty)))
    }

    /**
     * The turn never passes to the second player: in two-player mode a round
     * that takes guesses always belongs to the first player, the second
     * player's total stays zero and the round counter stays at one.
     */
    ghost predicate TurnNeverPasses()
      reads this
    {
      && (gameMode == Multi && !gameOver ==> currentPlayer == PlayerOne)
      && PlayerTwo in players && players[PlayerTwo] == 0
      && currentRound == 1
    }

    /** The round takes guesses: it has started, is not over and has time left. */
    ghost predicate Accepting(elapsed: nat, timeLimit: int)
      reads this
      requires timeLimit > 0
    {
      gameInitialized && !gameOver && RemainingTime(timeLimit, elapsed) > 0
    }

    /** The state of a fresh session: no round yet, normal difficulty, single-player mode. */
    constructor ()
      ensures Valid() && TurnNeverPasses()
      ensures !gameInitialized && randomNumber == 0 && attempts == 0 && !gameOver
      ensures highScores == []
      ensures currentPlayer == PlayerOne && players == map[PlayerOne := 0, PlayerTwo := 0]
      ensures currentRound == 1 && totalRounds == 3
      ensures currentDifficulty == Normal && gameMode == Single
    {
      gameInitialized := false;
      randomNumber := 0;
      attempts := 0;
      gameOver := false;
      highScores := [];
      currentPlayer := PlayerOne;
      players := map[PlayerOne := 0, PlayerTwo := 0];
      currentRound := 1;
      totalRounds := TotalRounds;
      currentDifficulty := Normal;
      gameMode := Single;
    }

    /**
     * Starts a new round of the current difficulty with hidden number
     * `target`, the value drawn uniformly from the difficulty's range.
     */
    method ResetGame(target: int)
      requires Consistent()
      requires InRange(target, NumberRange(currentDifficulty))
      modifies this
      ensures Valid()
      ensures Snapshot() == old(Snapshot()).(randomNumber := target, attempts := 0,
                                             gameOver := false, gameInitialized := true)
    {
      randomNumber := target;
      attempts := 0;
      gameOver := false;
      gameInitialized := true;
    }

    /**
     * Records `score` with the current attempt count, the date label `date`
     * and the current difficulty: the entry is appended, the list is sorted
     * by descending score and cut to its first ten entries.
     */
    method SaveScore(score: int, date: string)
      requires Valid()
      modifies this
      ensures Valid()
      ensures Snapshot() == old(Snapshot()).(highScores := Leaderboard.Save(old(highScores),
                                               Leaderboard.Entry(score, attempts, date, currentDifficulty)))
    {
      var entry := Leaderboard.Entry(score, attempts, date, currentDifficulty);
      highScores := highScores + [entry];
      highScores := Leaderboard.SortDesc(highScores);
      highScores := Leaderboard.Top(highScores, Leaderboard.Capacity);
    }

    /**
     * Passes the turn after a won round in two-player mode. After the first
     * player the second one gets a new round with hidden number `nextTarget`;
     * after the second player the round counter advances, and once it passes
     * the number of rounds the match result is returned.
     */
    method HandleMultiplayerRound(nextTarget: int) returns (result: Option<MatchResult>)
      requires Valid()
      requires InRange(nextTarget, NumberRange(currentDifficulty))
      modifies this
      ensures Valid()
      ensures old(currentPlayer) == PlayerOne ==>
        && Snapshot() == old(Snapshot()).(currentPlayer := PlayerTwo, randomNumber := nextTarget,
                                          attempts := 0, gameOver := false, gameInitialized := true)
        && result == None
      ensures old(currentPlayer) == PlayerTwo ==>
        && Snapshot() == old(Snapshot()).(currentPlayer := PlayerOne, currentRound := old(currentRound) + 1)
        && result == if currentRound > totalRounds then Some(Winner(players[PlayerOne], players[PlayerTwo])) else None
    {
      if currentPlayer == PlayerOne {
        currentPlayer := PlayerTwo;
        ResetGame(nextTarget);
        result := None;
      } else {
        currentPlayer := PlayerOne;
        currentRound := currentRound + 1;
        result := None;
        if currentRound > totalRounds {
          result := Some(Winner(players[PlayerOne], players[PlayerTwo]));
        }
      }
    }

    /**
     * The "new game" action with the difficulty and mode chosen on the page.
     * Two-player mode puts the first player on turn and zeroes both totals;
     * the round counter and the leaderboard are left alone.
     */
    method NewGame(difficulty: string, mode: Mode, target: int)
      requires Valid()
      requires IsDifficulty(difficulty)
      requires InRange(target, NumberRange(difficulty))
      modifies this
      ensures Valid()
      ensures mode == Multi ==>
        Snapshot() == old(Snapshot()).(currentDifficulty := difficulty, gameMode := mode,
                                       currentPlayer := PlayerOne, players := map[PlayerOne := 0, PlayerTwo := 0],
                                       randomNumber := target, attempts := 0, gameOver := false, gameInitialized := true)
      ensures mode == Single ==>
        Snapshot() == old(Snapshot()).(currentDifficulty := difficulty, gameMode := mode,
                                       randomNumber := target, attempts := 0, gameOver := false, gameInitialized := true)
      ensures old(TurnNeverPasses()) ==> TurnNeverPasses()
    {
      currentDifficulty := difficulty;
      gameMode := mode;
      if gameMode == Multi {
        currentPlayer := PlayerOne;
        players := map[PlayerOne := 0, PlayerTwo := 0];
      }
      ResetGame(target);
    }

    /**
     * Adds `score` to the total of the player on turn, then passes the turn.
     */
    method CreditTurn(score: int, nextTarget: int) returns (matchResult: Option<MatchResult>)
      requires Valid()
      requires InRange(nextTarget, NumberRange(currentDifficulty))
      modifies this
      ensures Valid()
      ensures old(currentPlayer) == PlayerOne ==>
        && Snapshot() == old(Snapshot()).(players := old(players)[PlayerOne := old(players)[PlayerOne] + score],
                                          currentPlayer := PlayerTwo, randomNumber := nextTarget,
                                          attempts := 0, gameOver := false, gameInitialized := true)
        && matchResult == None
      ensures old(currentPlayer) == PlayerTwo ==>
        && Snapshot() == old(Snapshot()).(players := old(players)[PlayerTwo := old(players)[PlayerTwo] + score],
                                          currentPlayer := PlayerOne, currentRound := old(currentRound) + 1)
        && matchResult == if currentRound > TotalRounds
                          then Some(Winner(old(players)[PlayerOne], old(players)[PlayerTwo] + score))
                          else None
    {
      assert currentPlayer == PlayerOne || currentPlayer == PlayerTwo;
      players := players[currentPlayer := players[currentPlayer] + score];
      matchResult := HandleMultiplayerRound(nextTarget);
    }

    /**
     * The winning guess, already counted: scores the round from the
     * attempts and `elapsed`, routes the score to the leaderboard or to the
     * player on turn, and ends the round.
     */
    method RecordWin(elapsed: nat, date: string, nextTarget: int) returns (outcome: Outcome)
      requires Valid()
      requires InRange(nextTarget, NumberRange(currentDifficulty))
      modifies this
      ensures Valid()
      ensures WinRecorded(old(Snapshot()), Snapshot(), elapsed, date, nextTarget, outcome)
    {
      var won := attempts;
      var score := CalculateScore(attempts, elapsed, currentDifficulty).value;
      var matchResult := None;
      if gameMode == Multi {
        matchResult := CreditTurn(score, nextTarget);
      } else {
        SaveScore(score, date);
      }
      gameOver := true;
      outcome := Correct(won, score, matchResult);
    }

    /**
     * The confirm button with `guess` in a round that takes guesses: the
     * attempt is counted, then a right guess wins the round and a wrong one
     * gets a hint towards the hidden number.
     */
    method SubmitGuess(guess: int, elapsed: nat, date: string, nextTarget: int) returns (outcome: Outcome)
      requires Valid()
      requires InRange(nextTarget, NumberRange(currentDifficulty))
      modifies this
      ensures Valid()
      ensures guess == old(randomNumber) ==>
        WinRecorded(old(Snapshot()).(attempts := old(attempts) + 1), Snapshot(), elapsed, date, nextTarget, outcome)
      ensures guess != old(randomNumber) ==>
        && outcome == (if guess < old(randomNumber) then GoHigher else GoLower)
        && Snapshot() == old(Snapshot()).(attempts := old(attempts) + 1)
    {
      attempts := attempts + 1;
      if guess == randomNumber {
        outcome := RecordWin(elapsed, date, nextTarget);
      } else if guess < randomNumber {
        outcome := GoHigher;
      } else {
        outcome := GoLower;
      }
    }

    /**
     * One pass over the page with `elapsed` seconds since the round started,
     * the chosen time limit, and the guess submitted with the confirm button
     * (None when it was not pressed). `date` labels a leaderboard entry and
     * `nextTarget` is the number drawn should the turn pass to the second player.
     */
    method Play(elapsed: nat, timeLimit: int, guess: Option<int>, date: string, nextTarget: int)
      returns (outcome: Outcome)
      requires Valid()
      requires timeLimit > 0
      requires InRange(nextTarget, NumberRange(currentDifficulty))
      modifies this
      ensures Valid()
      ensures old(TurnNeverPasses()) ==> TurnNeverPasses()
      // before the first round nothing happens
      ensures !old(gameInitialized) ==> outcome == NotStarted && Snapshot() == old(Snapshot())
      // a round with time left that is over, or that got no guess, stays as it is
      ensures old(gameInitialized) && RemainingTime(timeLimit, elapsed) > 0 && (old(gameOver) || guess.None?) ==>
        outcome == Waiting && Snapshot() == old(Snapshot())
      // with no time left the round is over, and nothing is scored
      ensures old(gameInitialized) && RemainingTime(timeLimit, elapsed) == 0 ==>
        outcome == TimeUp && Snapshot() == old(Snapshot()).(gameOver := true)
      // a wrong guess counts as an attempt and gets a hint; nothing else changes
      ensures old(Accepting(elapsed, timeLimit)) && guess.Some? && guess.value != old(randomNumber) ==>
        && outcome == (if guess.value < old(randomNumber) then GoHigher else GoLower)
        && Snapshot() == old(Snapshot()).(attempts := old(attempts) + 1)
      // a right guess counts as an attempt and wins the round
      ensures old(Accepting(elapsed, timeLimit)) && guess == Some(old(randomNumber)) ==>
        WinRecorded(old(Snapshot()).(attempts := old(attempts) + 1), Snapshot(), elapsed, date, nextTarget, outcome)
    {
      var remaining := RemainingTime(timeLimit, elapsed);
      if !gameInitialized {
        return NotStarted;
      }
      if !gameOver && remaining > 0 {
        match guess
        case None =>
          outcome := Waiting;
        case Some(g) =>
          outcome := SubmitGuess(g, elapsed, date, nextTarget);
      } else if remaining <= 0 {
        gameOver := true;
        outcome := TimeUp;
      } else {
        outcome := Waiting;
      }
    }
  }

  /** Every won round ends the round, and only the mode's own bookkeeping changes. */
  lemma WinEndsRound(s: State, score: nat, date: string, nextTarget: int)
    requires PlayerOne in s.players && PlayerTwo in s.players
    ensures AfterWin(s, score, date, nextTarget).gameOver
    ensures s.gameMode == Single ==>
      && AfterWin(s, score, date, nextTarget).players == s.players
      && AfterWin(s, score, date, nextTarget).currentPlayer == s.currentPlayer
    ensures s.gameMode == Multi ==> AfterWin(s, score, date, nextTarget).highScores == s.highScores
    ensures AfterWin(s, score, date, nextTarget).currentDifficulty == s.currentDifficulty
  {
  }

  /** In two-player mode the score goes to the player on turn only, and the turn passes to the other one. */
  lemma WinCreditsPlayerOnTurn(s: State, score: nat, date: string, nextTarget: int, p: Player)
    requires PlayerOne in s.players && PlayerTwo in s.players
    requires s.gameMode == Multi
    ensures p in AfterWin(s, score, date, nextTarget).players
    ensures AfterWin(s, score, date, nextTarget).players[p] ==
      if p == s.currentPlayer then s.players[p] + score else s.players[p]
    ensures AfterWin(s, score, date, nextTarget).currentPlayer != s.currentPlayer
    ensures AfterWin(s, score, date, nextTarget).currentRound ==
      if s.currentPlayer == PlayerTwo then s.currentRound + 1 else s.currentRound
  {
  }

  /**
   * A win by the first player hands the second player a fresh hidden number
   * and a zero attempt count, yet leaves the round marked as over, so the
   * second player's round takes no guess until a new game is started.
   */
  lemma FirstPlayerWinLeavesRoundOver(s: State, score: nat, date: string, nextTarget: int)
    requires PlayerOne in s.players && PlayerTwo in s.players
    requires s.gameMode == Multi && s.currentPlayer == PlayerOne
    ensures var t := AfterWin(s, score, date, nextTarget);
      t.currentPlayer == PlayerTwo && t.randomNumber == nextTarget && t.attempts == 0 && t.gameOver
  {
  }

  /** A match result is reported exactly when the second player wins the last round. */
  lemma MatchDecidedAfterLastRound(s: State, score: nat)
    requires PlayerOne in s.players && PlayerTwo in s.players
    ensures MatchAfterWin(s, score).Some? <==>
      s.gameMode == Multi && s.currentPlayer == PlayerTwo && s.currentRound >= TotalRounds
  {
  }
}
