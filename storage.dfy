/**
 * The game-result store: the `games` table held in memory. `createGame`
 * inserts a row under the next serial id; `getLeaderboard` selects the rows of
 * one playlist, orders them by score, highest first, and keeps at most ten.
 */
module Storage {
  import opened Common
  import opened Seqs
  import opened Schema

  /** `.limit(10)` of the leaderboard query. */
  const LeaderboardSize: nat := 10

  predicate ByScoreDescending(s: seq<Game>) {
    forall i, j :: 0 <= i < j < |s| ==> s[i].score >= s[j].score
  }

  /** `eq(games.playlistId, playlistId)`, in table order. */
  function Matching(rows: seq<Game>, playlistId: string): (r: seq<Game>)
    ensures forall g :: g in r ==> g.playlistId == playlistId
    ensures forall g :: g in rows && g.playlistId == playlistId ==> g in r
    ensures multiset(r) <= multiset(rows)
  {
    Filter(rows, (g: Game) => g.playlistId == playlistId)
  }

  /**
   * Inserts `x` before the first element with a lower score. SQL leaves the
   * order of equal scores open; this model keeps them in table order.
   */
  function InsertByScore(x: Game, s: seq<Game>): (r: seq<Game>)
    ensures |r| == |s| + 1
    ensures multiset(r) == multiset(s) + multiset{x}
    ensures forall y :: y in r ==> y == x || y in s
  {
    if s == [] || x.score >= s[0].score then [x] + s
    else
      assert s == [s[0]] + s[1..];
      [s[0]] + InsertByScore(x, s[1..])
  }

  lemma {:induction false} InsertByScoreSorted(x: Game, s: seq<Game>)
    requires ByScoreDescending(s)
    ensures ByScoreDescending(InsertByScore(x, s))
  {
    var r := InsertByScore(x, s);
    if s == [] || x.score >= s[0].score {
      assert r == [x] + s;
      forall i, j | 0 <= i < j < |r| ensures r[i].score >= r[j].score {
        assert r[j] == s[j - 1];
        if i > 0 { assert r[i] == s[i - 1]; }
      }
    } else {
      var t := InsertByScore(x, s[1..]);
      InsertByScoreSorted(x, s[1..]);
      assert r == [s[0]] + t;
      forall i, j | 0 <= i < j < |r| ensures r[i].score >= r[j].score {
        assert r[j] == t[j - 1];
        if i > 0 {
          assert r[i] == t[i - 1];
        } else {
          assert t[j - 1] in t;
          if t[j - 1] != x {
            var k :| 0 <= k < |s[1..]| && s[1..][k] == t[j - 1];
            assert s[1..][k] == s[k + 1];
          }
        }
      }
    }
  }

  /** `.orderBy(desc(games.score))`. */
  function SortByScore(s: seq<Game>): (r: seq<Game>)
    ensures |r| == |s|
    ensures multiset(r) == multiset(s)
    ensures ByScoreDescending(r)
  {
    if s == [] then []
    else
      assert s == [s[0]] + s[1..];
      InsertByScoreSorted(s[0], SortByScore(s[1..]));
      InsertByScore(s[0], SortByScore(s[1..]))
  }

  lemma {:induction false} InsertByScoreCount(x: Game, s: seq<Game>, p: Game -> bool)
    ensures Count(InsertByScore(x, s), p) == (if p(x) then 1 else 0) + Count(s, p)
  {
    if s != [] && x.score < s[0].score {
      InsertByScoreCount(x, s[1..], p);
    }
  }

  /** Ordering does not change how many rows satisfy a condition. */
  lemma {:induction false} SortByScoreCount(s: seq<Game>, p: Game -> bool)
    ensures Count(SortByScore(s), p) == Count(s, p)
  {
    if s != [] {
      SortByScoreCount(s[1..], p);
      InsertByScoreCount(s[0], SortByScore(s[1..]), p);
    }
  }

  lemma PrefixMultiset<T>(s: seq<T>, k: nat)
    requires k <= |s|
    ensures multiset(s[..k]) <= multiset(s)
  {
    assert s == s[..k] + s[k..];
  }

  /**
   * `getLeaderboard(playlistId)`: rows of that playlist only, scores
   * non-increasing, as many as there are up to ten, and no left-out row of the
   * playlist scores above a returned one.
   */
  function Leaderboard(rows: seq<Game>, playlistId: string): (r: seq<Game>)
    ensures forall g :: g in r ==> g.playlistId == playlistId
    ensures ByScoreDescending(r)
    ensures |r| == Min(LeaderboardSize, |Matching(rows, playlistId)|)
    ensures multiset(r) <= multiset(rows)
    ensures forall g, h :: g in rows && g.playlistId == playlistId && g !in r && h in r ==> g.score <= h.score
  {
    var m := Matching(rows, playlistId);
    var s := SortByScore(m);
    var n := Min(LeaderboardSize, |m|);
    LeaderboardFacts(rows, playlistId, m, s, n);
    s[..n]
  }

  lemma LeaderboardFacts(rows: seq<Game>, playlistId: string, m: seq<Game>, s: seq<Game>, n: nat)
    requires m == Matching(rows, playlistId) && s == SortByScore(m) && n == Min(LeaderboardSize, |m|)
    ensures n <= |s|
    ensures forall g :: g in s[..n] ==> g.playlistId == playlistId
    ensures ByScoreDescending(s[..n])
    ensures multiset(s[..n]) <= multiset(rows)
    ensures forall g, h :: g in rows && g.playlistId == playlistId && g !in s[..n] && h in s[..n] ==> g.score <= h.score
  {
    PrefixMultiset(s, n);
    PrefixSorted(s, n);
    forall g | g in s[..n] ensures g.playlistId == playlistId {
      assert g in multiset(s[..n]);
      assert g in multiset(m);
      assert g in m;
    }
    forall g | g in rows && g.playlistId == playlistId ensures g in s {
      assert g in multiset(m);
    }
    PrefixIsTop(s, n);
  }

  lemma PrefixSorted(s: seq<Game>, n: nat)
    requires n <= |s| && ByScoreDescending(s)
    ensures ByScoreDescending(s[..n])
  {
    forall i, j | 0 <= i < j < n ensures s[..n][i].score >= s[..n][j].score {
      assert s[..n][i] == s[i] && s[..n][j] == s[j];
    }
  }

  /** In a sorted sequence, whatever lies outside a prefix scores no higher than what is in it. */
  lemma PrefixIsTop(s: seq<Game>, n: nat)
    requires n <= |s| && ByScoreDescending(s)
    ensures forall g, h :: g in s && g !in s[..n] && h in s[..n] ==> g.score <= h.score
  {
    forall g, h | g in s && g !in s[..n] && h in s[..n] ensures g.score <= h.score {
      var i :| 0 <= i < |s| && s[i] == g;
      var k :| 0 <= k < n && s[..n][k] == h;
      assert s[k] == h;
    }
  }

  /** Rows other than `row` whose score is at least `row`'s. */
  function AtLeastAsHighAs(row: Game): Game -> bool {
    (x: Game) => x != row && x.score >= row.score
  }

  /** Rows other than `row` whose score is above `row`'s. */
  function HigherThan(row: Game): Game -> bool {
    (x: Game) => x != row && x.score > row.score
  }

  /** A stored row is on its playlist's leaderboard when fewer than ten other rows of it score as high. */
  lemma OnLeaderboardUnlessOutnumbered(rows: seq<Game>, row: Game)
    requires row in rows
    requires Count(Matching(rows, row.playlistId), AtLeastAsHighAs(row)) < LeaderboardSize
    ensures row in Leaderboard(rows, row.playlistId)
  {
    var p := row.playlistId;
    var m := Matching(rows, p);
    var s := SortByScore(m);
    var r := Leaderboard(rows, p);
    var q := AtLeastAsHighAs(row);
    if row !in r {
      assert row in multiset(m);
      assert r == s[..|r|];
      forall k | 0 <= k < |r| ensures q(r[k]) {
        assert r[k] in r;
      }
      CountAll(r, q);
      CountPrefix(s, |r|, q);
      SortByScoreCount(m, q);
      assert false;
    }
  }

  /** A row outscored by at least ten other rows of its playlist is not on the leaderboard. */
  lemma OffLeaderboardWhenOutscored(rows: seq<Game>, row: Game)
    requires Count(Matching(rows, row.playlistId), HigherThan(row)) >= LeaderboardSize
    ensures row !in Leaderboard(rows, row.playlistId)
  {
    var p := row.playlistId;
    var m := Matching(rows, p);
    var s := SortByScore(m);
    var r := Leaderboard(rows, p);
    if row in r {
      assert r == s[..|r|];
      var i :| 0 <= i < |r| && r[i] == row;
      assert s[i] == row;
      SortedCountHigher(s, i);
      SortByScoreCount(m, HigherThan(row));
      assert false;
    }
  }

  /** In a sorted sequence, only the rows before position `i` can score above the row at `i`. */
  lemma SortedCountHigher(s: seq<Game>, i: nat)
    requires ByScoreDescending(s) && i < |s|
    ensures Count(s, HigherThan(s[i])) <= i
  {
    var q := HigherThan(s[i]);
    forall k | 0 <= k < |s| - i ensures !q(s[i..][k]) {
      assert s[i..][k] == s[i + k];
    }
    CountNone(s[i..], q);
    assert s == s[..i] + s[i..];
    CountAppend(s[..i], s[i..], q);
  }

  /** The `games` table: its rows in insertion order and the next value of the `id` serial. */
  class GameTable {
    var rows: seq<Game>
    var nextId: nat

    /** Serial ids start at 1 and grow with each insert, so no two rows share one. */
    ghost predicate Valid()
      reads this
    {
      && nextId >= 1
      && (forall i :: 0 <= i < |rows| ==> 1 <= rows[i].id < nextId)
      && (forall i, j :: 0 <= i < j < |rows| ==> rows[i].id < rows[j].id)
    }

    constructor ()
      ensures Valid() && rows == [] && nextId == 1
    {
      rows := [];
      nextId := 1;
    }

    /** `createGame(game)`: one new row under a fresh id, returned; the other rows stay as they were. */
    method CreateGame(game: InsertGame, now: Timestamp) returns (row: Game)
      requires Valid()
      modifies this
      ensures Valid()
      ensures rows == old(rows) + [row]
      ensures nextId == old(nextId) + 1
      ensures row.id == old(nextId) && forall g :: g in old(rows) ==> g.id != row.id
      ensures && row.playerName == game.playerName
              && row.playlistId == game.playlistId
              && row.totalQuestions == game.totalQuestions
              && row.score == (if game.score.Some? then game.score.value else 0)
              && row.createdAt == Some(now)
    ensures row in Matching(rows, game.playlistId)
    {
      row := NewRow(nextId, game, now);
      rows := rows + [row];
      nextId := nextId + 1;
    }

    /** `getLeaderboard(playlistId)` over the current rows. */
    method GetLeaderboard(playlistId: string) returns (r: seq<Game>)
      ensures r == Leaderboard(rows, playlistId)
    {
      r := Leaderboard(rows, playlistId);
    }
  }
}
