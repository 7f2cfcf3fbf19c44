/**
 * The session's leaderboard of won single-player rounds: a list of entries
 * ordered by descending score and cut to the ten best. Saving an entry
 * appends it, sorts the whole list by score (a stable sort, so an entry that
 * ties with older ones comes after them) and keeps the first ten.
 */
module Leaderboard {

  /** One record: the score, the attempts it took, the date label and the difficulty label. */
  datatype Entry = Entry(score: int, attempts: int, date: string, difficulty: string)

  /** The leaderboard never holds more entries than this. */
  const Capacity: nat := 10

  /** Scores never increase from the head of the list to its tail. */
  predicate Sorted(s: seq<Entry>) {
    forall i, j :: 0 <= i < j < |s| ==> s[i].score >= s[j].score
  }

  /** Every entry of `s` scores at least `score`. */
  predicate AllAtLeast(s: seq<Entry>, score: int) {
    forall i :: 0 <= i < |s| ==> s[i].score >= score
  }

  /** The first `n` entries of `s`, or all of them when there are fewer. */
  function Top(s: seq<Entry>, n: nat): seq<Entry> {
    if |s| <= n then s else s[..n]
  }

  /** The entries of `s` with score `score`, in their order in `s`. */
  function WithScore(s: seq<Entry>, score: int): seq<Entry> {
    if s == [] then []
    else (if s[0].score == score then [s[0]] else []) + WithScore(s[1..], score)
  }

  /**
   * The number of leading entries of `s` that score at least `score`: the
   * place where a stable sort puts a new entry with that score.
   */
  function Rank(s: seq<Entry>, score: int): (k: nat)
    ensures k <= |s|
    ensures AllAtLeast(s[..k], score)
    ensures k < |s| ==> s[k].score < score
  {
    if s == [] || s[0].score < score then 0 else 1 + Rank(s[1..], score)
  }

  /** Puts `e` after the leading entries that score at least as much as it. */
  function Insert(s: seq<Entry>, e: Entry): (r: seq<Entry>)
    ensures |r| == |s| + 1
  {
    if s == [] then [e]
    else if s[0].score >= e.score then [s[0]] + Insert(s[1..], e)
    else [e] + s
  }

  /** Insertion adds `e` and loses or duplicates nothing. */
  lemma {:induction false} InsertPermutes(s: seq<Entry>, e: Entry)
    ensures multiset(Insert(s, e)) == multiset(s) + multiset{e}
  {
    if s != [] && s[0].score >= e.score {
      InsertPermutes(s[1..], e);
      assert s == [s[0]] + s[1..];
    }
  }

  /** Insertion places `e` at its rank. */
  lemma {:induction false} InsertAtRank(s: seq<Entry>, e: Entry)
    ensures Insert(s, e) == s[..Rank(s, e.score)] + [e] + s[Rank(s, e.score)..]
  {
    if s != [] && s[0].score >= e.score {
      var tail := s[1..];
      var k := Rank(tail, e.score);
      InsertAtRank(tail, e);
      assert s[..k + 1] == [s[0]] + tail[..k];
      assert s[k + 1..] == tail[k..];
    }
  }

  /** In a sorted list, every entry from the rank of `score` on scores less than `score`. */
  lemma BelowRank(s: seq<Entry>, score: int)
    requires Sorted(s)
    ensures forall i :: Rank(s, score) <= i < |s| ==> s[i].score < score
  {
  }

  /** Inserting into a sorted list keeps it sorted. */
  lemma InsertSorted(s: seq<Entry>, e: Entry)
    requires Sorted(s)
    ensures Sorted(Insert(s, e))
  {
    InsertAtRank(s, e);
    BelowRank(s, e.score);
    var k := Rank(s, e.score);
    var r := Insert(s, e);
    forall i, j | 0 <= i < j < |r|
      ensures r[i].score >= r[j].score
    {
      if i < k {
        assert r[i] == s[i];
        assert s[..k][i] == s[i];
      }
    }
  }

  /** An entry that scores no more than everything in the list goes to its end. */
  lemma {:induction false} InsertLowest(s: seq<Entry>, e: Entry)
    requires AllAtLeast(s, e.score)
    ensures Insert(s, e) == s + [e]
  {
    if s != [] {
      InsertLowest(s[1..], e);
      assert s == [s[0]] + s[1..];
    }
  }

  /** Picking the entries of one score distributes over concatenation. */
  lemma {:induction false} WithScoreConcat(a: seq<Entry>, b: seq<Entry>, score: int)
    ensures WithScore(a + b, score) == WithScore(a, score) + WithScore(b, score)
  {
    if a == [] {
      assert a + b == b;
    } else {
      var head := if a[0].score == score then [a[0]] else [];
      WithScoreConcat(a[1..], b, score);
      assert (a + b)[0] == a[0] && (a + b)[1..] == a[1..] + b;
      calc {
        WithScore(a + b, score);
        head + WithScore(a[1..] + b, score);
        head + (WithScore(a[1..], score) + WithScore(b, score));
        (head + WithScore(a[1..], score)) + WithScore(b, score);
      }
    }
  }

  /** Picking the entries of one score from a list cut in three pieces. */
  lemma WithScoreSplit(before: seq<Entry>, e: Entry, after: seq<Entry>, score: int)
    ensures WithScore(before + [e] + after, score)
         == WithScore(before, score) + WithScore([e], score) + WithScore(after, score)
  {
    WithScoreConcat(before, [e], score);
    WithScoreConcat(before + [e], after, score);
  }

  /** Inserting into a sorted list adds `e` after all older entries with its score. */
  lemma {:induction false} InsertStable(s: seq<Entry>, e: Entry, score: int)
    requires Sorted(s)
    ensures WithScore(Insert(s, e), score) == WithScore(s, score) + WithScore([e], score)
  {
    WithScoreSingle(e, score);
    if s == [] {
      assert Insert(s, e) == [e];
    } else if s[0].score >= e.score {
      var tail := s[1..];
      InsertStable(tail, e, score);
      WithScoreCons(s[0], Insert(tail, e), score);
      assert s == [s[0]] + tail;
      WithScoreCons(s[0], tail, score);
    } else {
      WithScoreCons(e, s, score);
      if score == e.score {
        NoneWithScore(s, score);
      }
    }
  }

  /** Picking the entries of one score from a list with head `x`. */
  lemma WithScoreCons(x: Entry, s: seq<Entry>, score: int)
    ensures WithScore([x] + s, score) == WithScore([x], score) + WithScore(s, score)
  {
    WithScoreSingle(x, score);
    assert ([x] + s)[1..] == s;
  }

  /** A single entry is picked exactly when it has the score. */
  lemma WithScoreSingle(e: Entry, score: int)
    ensures WithScore([e], score) == if e.score == score then [e] else []
  {
    assert [e][1..] == [];
  }

  /** A list whose entries all score less than `score` has none with that score. */
  lemma {:induction false} NoneWithScore(s: seq<Entry>, score: int)
    requires forall i :: 0 <= i < |s| ==> s[i].score < score
    ensures WithScore(s, score) == []
  {
    if s != [] {
      NoneWithScore(s[1..], score);
    }
  }

  /**
   * Stable sort by descending score: each entry in turn is inserted after
   * the earlier entries that score at least as much.
   */
  function SortDesc(s: seq<Entry>): (r: seq<Entry>)
    ensures Sorted(r)
    ensures |r| == |s|
  {
    if s == [] then []
    else
      var init, last := s[..|s| - 1], s[|s| - 1];
      assert s == init + [last];
      InsertSorted(SortDesc(init), last);
      Insert(SortDesc(init), last)
  }

  /** The sort is a permutation: it loses or duplicates no entry. */
  lemma {:induction false} SortDescPermutes(s: seq<Entry>)
    ensures multiset(SortDesc(s)) == multiset(s)
  {
    if s != [] {
      var init, last := s[..|s| - 1], s[|s| - 1];
      assert s == init + [last];
      SortDescPermutes(init);
      InsertPermutes(SortDesc(init), last);
    }
  }

  /** Sorting a list with one more entry at its end inserts that entry into the sorted rest. */
  lemma SortDescSnoc(s: seq<Entry>, e: Entry)
    ensures SortDesc(s + [e]) == Insert(SortDesc(s), e)
  {
    assert (s + [e])[..|s|] == s;
  }

  /** The sort is stable: the entries of any one score keep their order. */
  lemma {:induction false} SortDescStable(s: seq<Entry>, score: int)
    ensures WithScore(SortDesc(s), score) == WithScore(s, score)
  {
    if s != [] {
      var init, last := s[..|s| - 1], s[|s| - 1];
      assert s == init + [last];
      SortDescStable(init, score);
      InsertStable(SortDesc(init), last, score);
      WithScoreConcat(init, [last], score);
    }
  }

  /** Sorting a list that is already sorted leaves it as it is. */
  lemma {:induction false} SortDescOfSorted(s: seq<Entry>)
    requires Sorted(s)
    ensures SortDesc(s) == s
  {
    if s != [] {
      var init, last := s[..|s| - 1], s[|s| - 1];
      assert s == init + [last];
      SortDescOfSorted(init);
      InsertLowest(init, last);
    }
  }

  /** The leaderboard after saving `e`: append it, stable-sort by descending score, keep the first ten. */
  function Save(board: seq<Entry>, e: Entry): (r: seq<Entry>)
    ensures |r| == if |board| + 1 <= Capacity then |board| + 1 else Capacity
    ensures Sorted(r)
  {
    Top(SortDesc(board + [e]), Capacity)
  }

  /** Every entry on the board after a save was on it before or is the new one, unchanged. */
  lemma SaveKeepsOnlyGivenEntries(board: seq<Entry>, e: Entry)
    ensures multiset(Save(board, e)) <= multiset(board) + multiset{e}
  {
    var all := SortDesc(board + [e]);
    SortDescPermutes(board + [e]);
    assert all == Top(all, Capacity) + all[|Top(all, Capacity)|..];
  }

  /**
   * On a sorted board, saving puts the new entry after every entry scoring
   * at least as much (so it loses ties) and before every entry scoring less,
   * then keeps the first ten.
   */
  lemma SaveOnSorted(board: seq<Entry>, e: Entry)
    requires Sorted(board)
    ensures Save(board, e) == Top(board[..Rank(board, e.score)] + [e] + board[Rank(board, e.score)..], Capacity)
  {
    assert (board + [e])[..|board|] == board;
    SortDescOfSorted(board);
    InsertAtRank(board, e);
  }

  /** On a full sorted board, an entry that beats no one leaves the board unchanged. */
  lemma SaveLowScoreOnFullBoard(board: seq<Entry>, e: Entry)
    requires Sorted(board) && |board| == Capacity
    requires AllAtLeast(board, e.score)
    ensures Save(board, e) == board
  {
    assert (board + [e])[..|board|] == board;
    SortDescOfSorted(board);
    InsertLowest(board, e);
  }

  /** On a full sorted board, an entry that beats everyone goes first and the lowest entry drops out. */
  lemma SaveTopScoreOnFullBoard(board: seq<Entry>, e: Entry)
    requires Sorted(board) && |board| == Capacity
    requires e.score > board[0].score
    ensures Save(board, e) == [e] + board[..Capacity - 1]
  {
    assert (board + [e])[..|board|] == board;
    SortDescOfSorted(board);
  }

  /** Taking the first `n` entries of a list that starts with `x`. */
  lemma TopCons(x: Entry, s: seq<Entry>, n: nat)
    requires n > 0
    ensures Top([x] + s, n) == [x] + Top(s, n - 1)
  {
    if |s| > n - 1 {
      assert ([x] + s)[..n] == [x] + s[..n - 1];
    }
  }

  /** Cutting a list to its first `n` entries before an insertion does not change the first `n` after it. */
  lemma {:induction false} TopInsertTop(t: seq<Entry>, e: Entry, n: nat)
    ensures Top(Insert(Top(t, n), e), n) == Top(Insert(t, e), n)
  {
    if t != [] && n > 0 {
      var head, tail := t[0], t[1..];
      assert t == [head] + tail;
      TopCons(head, tail, n);
      var cut := Top(tail, n - 1);
      assert Top(t, n) == [head] + cut;
      assert ([head] + cut)[1..] == cut;
      if head.score >= e.score {
        TopInsertTop(tail, e, n - 1);
        assert Insert(Top(t, n), e) == [head] + Insert(cut, e);
        assert Insert(t, e) == [head] + Insert(tail, e);
        TopCons(head, Insert(cut, e), n);
        TopCons(head, Insert(tail, e), n);
      } else {
        assert Insert(Top(t, n), e) == [e] + Top(t, n);
        assert Insert(t, e) == [e] + t;
        TopCons(e, Top(t, n), n);
        TopCons(e, t, n);
        assert Top(Top(t, n), n - 1) == Top(t, n - 1);
      }
    }
  }

  /** The board after saving each of `entries` in turn, starting from an empty board. */
  function Replay(entries: seq<Entry>): (board: seq<Entry>)
    ensures Sorted(board)
    ensures |board| == if |entries| <= Capacity then |entries| else Capacity
  {
    if entries == [] then []
    else Save(Replay(entries[..|entries| - 1]), entries[|entries| - 1])
  }

  /**
   * Whatever was saved and in whatever order, the board holds exactly the
   * first ten entries of the stable descending sort of everything saved.
   */
  lemma {:induction false} ReplayKeepsTenHighest(entries: seq<Entry>)
    ensures Replay(entries) == Top(SortDesc(entries), Capacity)
  {
    if entries != [] {
      var init, last := entries[..|entries| - 1], entries[|entries| - 1];
      assert entries == init + [last];
      var board := Replay(init);
      ReplayKeepsTenHighest(init);
      SortDescSnoc(board, last);
      SortDescOfSorted(board);
      TopInsertTop(SortDesc(init), last, Capacity);
      SortDescSnoc(init, last);
    }
  }
}
