# Number guessing game — a Dafny model

`game.py` is a number-guessing game. Its page keeps one session per
browser tab: a hidden number drawn from the range of the chosen difficulty
(쉬움 1–50, 보통 1–100, 어려움 1–200), a count of attempts, a time limit,
a leaderboard of the ten best single-player wins, and a two-player mode. The
two-player mode is meant to add each player's score to their total round by
round, and to let the higher total win the match after three rounds. As
written, the second player never gets a guess, so neither happens (see
`TurnNeverPasses` below).

This project models the game's rules and its session state:

- `wrappers.dfy` — `Option` and `Result`, so that a failing lookup is a
  value rather than an exception.
- `rules.dfy` (module `Rules`) — the pure rules:
  - the number range of a difficulty;
  - the score of a won round, with Python's float multiplier and
    `int()` truncation written as an exact fraction and a truncating
    division;
  - the seconds left in a round;
  - the winner of a match.
- `leaderboard.dfy` (module `Leaderboard`) — saving a score:
  - append, stable sort by descending score, keep the first ten;
  - specified by an insertion sort, with its permutation and stability
    proved;
  - a proof that saving one entry after another always leaves exactly the
    ten best of everything saved, with the newest entry losing ties.
- `game.dfy` (module `Game`) — the session as a class whose fields are the
  page's session variables.
  - Its methods are the operations that update them: `ResetGame`,
    `SaveScore`, `HandleMultiplayerRound`, the "new game" button (`NewGame`)
    and one pass over the page with a guess (`Play`).
  - `Play` hands a submitted guess to `SubmitGuess`, which counts the attempt
    and gives the hint. A right guess goes on to `RecordWin`, which scores the
    round and either saves it or, in two-player mode, credits the player on
    turn through `CreditTurn`.
  - Each method's postcondition gives the whole new state as an update of the
    old one.
  - `Valid` is the session invariant, kept by every method:
    - both players have a total;
    - the difficulty is one of the three labels;
    - the leaderboard is sorted and holds at most ten entries;
    - a started round's hidden number lies in its range.

The random draw, the clock and the date label are not computed by the model.
Each is a parameter of the operation that uses it:

- the drawn number must lie in the difficulty's range;
- elapsed time is a whole number of seconds;
- the date is an opaque string.

A consequence of the code's ordering in two-player mode is proved as the
`TurnNeverPasses` invariant, which `NewGame` and `Play` preserve:

- When the first player guesses right, the score is credited and the turn
  passes. `reset_game` then starts the second player's round
  (`game.py:93`), but the round is immediately marked over
  (`game.py:177`).
- So the second player never gets a guess until "new game" is pressed, and
  that button gives the turn back to the first player.
- From a fresh session, the second player's total therefore stays zero and
  the round counter stays at one. The match result that `determine_winner`
  announces (`game.py:98`) is never reached.

## Model

| member | source | states |
|---|---|---|
| `Rules.NumberRange` | game.py:52-58 | every label, known or not, gets a range starting at 1 with lowest ≤ highest |
| `Rules.NumberRangeTable` | game.py:52-58 | the table in both directions: (1,50) exactly for 쉬움, (1,200) exactly for 어려움, (1,100) for 보통 and for any unknown label |
| `Rules.CalculateScore` | game.py:68-77 | an unknown label fails with that label as error (the missing-key lookup); otherwise the score is 1000 − 50·attempts − 2·seconds times 1, 3/2 or 2, truncated, and never below zero |
| `Rules.TruncDiv` | game.py:77 | the quotient is truncated toward zero, as `int()` of a float is, for negative dividends too |
| `Rules.ScoreExamples` | game.py:68-77 | (0 attempts, 0 s, 보통) scores 1500, (10, 30, 쉬움) 440, (0, 0, 어려움) 2000, (100, 0, 어려움) 0, and an unknown label is an error |
| `Rules.ScoreBounds` | game.py:68-77 | no score exceeds 1000 times the multiplier, and twenty or more attempts always score 0 |
| `Rules.ScaledMonotonic` | game.py:76-77 | multiplying by a difficulty's multiplier and truncating keeps the order of non-negative raw scores |
| `Rules.ScoreNonIncreasingInAttempts` | game.py:75-77 | more attempts never give a higher score |
| `Rules.ScoreNonIncreasingInElapsed` | game.py:75-77 | more elapsed seconds never give a higher score |
| `Rules.RemainingTime` | game.py:146-147 | the seconds left lie in [0, limit], are 0 exactly when the elapsed seconds reach the limit, and otherwise are limit − elapsed |
| `Rules.Winner` | game.py:100-106 | player 1 wins iff its total is strictly greater, player 2 iff strictly smaller, a draw iff equal |
| `Rules.WinnerSymmetric` | game.py:100-106 | swapping the totals swaps the winner and keeps a draw |
| `Leaderboard.Rank` | game.py:87 | the position a stable descending sort gives a new score: every entry before it scores at least as much, the entry at it scores less |
| `Leaderboard.InsertAtRank` | game.py:87 | inserting puts the entry at its rank, between the entries scoring at least as much and those scoring less |
| `Leaderboard.InsertSorted` | game.py:87 | inserting into a sorted list keeps it sorted |
| `Leaderboard.InsertStable` | game.py:87 | inserting into a sorted list adds the entry after every older entry of the same score |
| `Leaderboard.SortDesc` | game.py:87 | the sort result is ordered by descending score and as long as its input |
| `Leaderboard.SortDescPermutes` | game.py:87 | the sort is a permutation of its input |
| `Leaderboard.SortDescStable` | game.py:87 | the sort is stable: the entries of each score keep their order |
| `Leaderboard.SortDescOfSorted` | game.py:87 | sorting an already sorted list changes nothing |
| `Leaderboard.Save` | game.py:79-88 | after a save the board is sorted and holds min(old length + 1, 10) entries |
| `Leaderboard.SaveKeepsOnlyGivenEntries` | game.py:86-88 | every entry on the board after a save was on it before, unchanged, or is the new entry |
| `Leaderboard.SaveOnSorted` | game.py:86-88 | on a sorted board the new entry goes after all entries scoring at least as much (it loses ties) and before all scoring less, then the board is cut to ten |
| `Leaderboard.SaveLowScoreOnFullBoard` | game.py:86-88 | on a full board a score that beats no entry leaves the board unchanged |
| `Leaderboard.SaveTopScoreOnFullBoard` | game.py:86-88 | on a full board a score above the best goes first and the last entry drops out |
| `Leaderboard.TopInsertTop` | game.py:88 | cutting to ten before an insertion does not change the first ten after it |
| `Leaderboard.Replay` | game.py:79-88 | the board after any sequence of saves from empty is sorted and holds min(number saved, 10) entries |
| `Leaderboard.ReplayKeepsTenHighest` | game.py:79-88 | after any sequence of saves the board is exactly the first ten of the stable descending sort of everything saved |
| `Game.Session.constructor` | game.py:38-50 | a fresh session has no round, 0 attempts, an empty board, player 1 on turn with both totals 0, round 1 of 3, difficulty 보통, single-player mode, and satisfies the invariant |
| `Game.Session.ResetGame` | game.py:60-66 | the round restarts with the drawn number and 0 attempts, not over and started; players, round counter, leaderboard and all else unchanged |
| `Game.Session.SaveScore` | game.py:79-88 | the board becomes `Save` of the old board and an entry of the score, the current attempts, the date and the difficulty; nothing else changes |
| `Game.Session.HandleMultiplayerRound` | game.py:90-98 | after player 1 the turn passes to player 2 with a fresh round; after player 2 the turn passes back, the round counter goes up by one, and the match result is reported exactly when it passes the number of rounds |
| `Game.Session.NewGame` | game.py:132-138 | sets the difficulty and mode and starts a fresh round; in two-player mode also puts player 1 on turn and zeroes both totals, leaving the round counter and the leaderboard alone |
| `Game.Session.CreditTurn` | game.py:171-173 | the score is added to the total of the player on turn only, then the turn passes as `HandleMultiplayerRound` states |
| `Game.Session.RecordWin` | game.py:166-177 | a win is scored from the attempts and seconds and recorded as `AfterWin` and `MatchAfterWin` state; the round ends in every mode |
| `Game.Session.SubmitGuess` | game.py:163-182 | each guess adds exactly one attempt; a right guess wins the round, a low one answers "higher", a high one "lower", and nothing else changes on a miss |
| `Game.Session.Play` | game.py:146-186 | before the first round nothing happens; with no time left the round is over and nothing is scored; with time left a finished round or a missing guess changes nothing; otherwise the guess is submitted; the invariant and `TurnNeverPasses` are kept |
| `Game.WinEndsRound` | game.py:166-177 | every win ends the round; a single-player win leaves the players alone, a two-player win leaves the leaderboard alone |
| `Game.WinCreditsPlayerOnTurn` | game.py:171-173 | in two-player mode only the player on turn gets the score, the turn passes to the other player, and the round counter goes up only after player 2 |
| `Game.FirstPlayerWinLeavesRoundOver` | game.py:90-93 | player 1's win hands player 2 a fresh number and 0 attempts, yet the round stays over |
| `Game.MatchDecidedAfterLastRound` | game.py:94-98 | a match result is reported exactly when player 2 wins a round that takes the counter past the number of rounds |

## Left out

- The page itself is not modelled: layout, styling, titles, messages, balloons, the progress bar, the status column and the sidebar leaderboard (`show_leaderboard`). `determine_winner` shows a message; here it returns a `MatchResult`.
- `random.randint` is not modelled. The drawn number is the `target` or `nextTarget` parameter, required to lie in the difficulty's range.
- `datetime` is not modelled. The start time is not stored, and the elapsed whole seconds are a parameter. How `timedelta.seconds` drops days and fractions is not modelled.
- The date label on a leaderboard entry is a parameter string.
- Widget bounds are not imposed:
  - The guess may be any integer; the number input's minimum and maximum are not required.
  - The time limit may be any positive number, not only the slider's 30 to 180.
- Game.Session.SaveScore: the session does not keep a history of saved entries. That the board holds the ten best of everything saved is proved about `Leaderboard.Replay`, which folds `Save`, rather than as a class invariant.
- Game.Session.RecordWin: the missing-key error of the score lookup cannot arise in the session, because its invariant keeps the difficulty one of the three labels. The error path is modelled only in `Rules.CalculateScore`.
- Floating-point arithmetic is replaced by exact arithmetic. The multiplier 1.5 is the fraction 3/2. This agrees with the float result while scores stay below 2^53.
- Streamlit runs the script again on every interaction. That loop is not modelled: each `Play` call is one pass with at most one guess, and `NewGame` is the new-game button.
- The unused imports (`time`, `json`) and `main` are not modelled.
