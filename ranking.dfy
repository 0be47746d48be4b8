/**
 * Post-processing of the leaderboards `/api/rank/month` and
 * `/api/rank/total`. Both handlers run the same code on the rows of their
 * aggregate query; only the query differs (this month's sign rows or all
 * sign rows, grouped by user, ordered by count descending), and its rows
 * are an input here.
 */
module Ranking {
  import opened Basics
  import opened Store

  /** A row of the aggregate query as scanned: nickname, sign count, user id. */
  datatype QueryRow = QueryRow(nickname: string, count: int, userId: UserId)

  /** A leaderboard entry: the row with its 1-based rank and whether it is the viewer's. */
  datatype RankEntry = RankEntry(nickname: string, count: int, userId: UserId, isSelf: bool, rank: int)

  /** Length of the board before the viewer's own entry is appended. */
  const BoardSize: nat := 10

  function Entry(row: QueryRow, rank: int, isSelf: bool): RankEntry {
    RankEntry(row.nickname, row.count, row.userId, isSelf, rank)
  }

  /** Index of the first row of user `uid`. */
  function FirstIndexOf(rows: seq<QueryRow>, uid: UserId): (r: Option<nat>)
    ensures r.Some? ==> r.value < |rows| && rows[r.value].userId == uid
    ensures r.Some? ==> forall j :: 0 <= j < r.value ==> rows[j].userId != uid
    ensures r.None? ==> forall j :: 0 <= j < |rows| ==> rows[j].userId != uid
    decreases |rows|
  {
    if rows == [] then None
    else if rows[0].userId == uid then Some(0)
    else match FirstIndexOf(rows[1..], uid)
      case None => None
      case Some(k) => Some(k + 1)
  }

  /**
   * The index of the viewer's first row, if the viewer is named, is a known
   * user and has a row; otherwise nothing is flagged.
   */
  function SelfIndex(users: map<string, User>, openid: string, rows: seq<QueryRow>): Option<nat> {
    if openid == "" || openid !in users then None else FirstIndexOf(rows, users[openid].id)
  }

  /**
   * Ranks 1..n in query order, the first min(10, n) entries, and the
   * viewer's entry flagged in place when its index is below 10, or else a
   * flagged copy of it, with its own rank, appended as an eleventh entry.
   */
  method RankBoard(users: map<string, User>, openid: string, rows: seq<QueryRow>) returns (board: seq<RankEntry>)
    ensures var k := if |rows| > BoardSize then BoardSize else |rows|;
      var self := SelfIndex(users, openid, rows);
      && |board| == (if self.Some? && self.value >= BoardSize then k + 1 else k)
      && (forall i :: 0 <= i < k ==> board[i] == Entry(rows[i], i + 1, self == Some(i)))
      && (self.Some? && self.value >= BoardSize ==> board[k] == Entry(rows[self.value], self.value + 1, true))
  {
    var results := seq(|rows|, i requires 0 <= i < |rows| => Entry(rows[i], 0, false));
    for i := 0 to |results|
      invariant |results| == |rows|
      invariant forall j :: 0 <= j < i ==> results[j] == Entry(rows[j], j + 1, false)
      invariant forall j :: i <= j < |rows| ==> results[j] == Entry(rows[j], 0, false)
    {
      results := results[i := results[i].(rank := i + 1)];
    }

    var top := if |results| > BoardSize then results[..BoardSize] else results;

    var selfIdx := -1;
    if openid != "" {
      var user := FindUser(users, openid);
      if user.Some? {
        var i := 0;
        while i < |results|
          invariant 0 <= i <= |results|
          invariant forall j :: 0 <= j < i ==> results[j].userId != user.value.id
        {
          if results[i].userId == user.value.id {
            selfIdx := i;
            break;
          }
          i := i + 1;
        }
        assert selfIdx >= 0 ==> FirstIndexOf(rows, user.value.id) == Some(selfIdx);
        assert selfIdx < 0 ==> FirstIndexOf(rows, user.value.id) == None;
        if selfIdx >= 0 {
          if selfIdx < BoardSize {
            top := top[selfIdx := top[selfIdx].(isSelf := true)];
          } else {
            var self := results[selfIdx].(isSelf := true);
            top := top + [self];
          }
        }
      }
    }
    board := top;
  }
}
