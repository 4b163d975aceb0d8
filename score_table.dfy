/** The SpacetimeDB leaderboard module: a public `score` table that the
    `submit_score` reducer inserts into. The table has no primary key; like
    every SpacetimeDB table it holds a set of rows, so inserting a row equal
    to one already stored adds nothing. The other reducers do nothing. */
module ScoreTable {
  newtype i32 = x: int | -0x8000_0000 <= x < 0x8000_0000
  newtype u64 = x: int | 0 <= x < 0x1_0000_0000_0000_0000

  /** A row of the `score` table. */
  datatype ScoreRow = ScoreRow(playerName: string, scoreValue: i32, rounds: i32, averageDistance: i32, tsMs: u64)

  /** The row `submit_score` inserts: the arguments verbatim, with no
      validation, and a timestamp that is always 0. */
  function RowOf(playerName: string, scoreValue: i32, rounds: i32, averageDistance: i32): (r: ScoreRow)
    ensures r.tsMs == 0
    ensures r.playerName == playerName && r.scoreValue == scoreValue
    ensures r.rounds == rounds && r.averageDistance == averageDistance
  {
    ScoreRow(playerName, scoreValue, rounds, averageDistance, 0)
  }

  /** No row occurs twice. */
  predicate NoDuplicates(rows: seq<ScoreRow>) {
    forall i, j :: 0 <= i < j < |rows| ==> rows[i] != rows[j]
  }

  /** Set insertion on a duplicate-free list of rows: the row is present
      afterwards, nothing else is added or lost, the list stays free of
      duplicates, and a row already present leaves the list as it was. */
  function InsertRow(rows: seq<ScoreRow>, row: ScoreRow): (r: seq<ScoreRow>)
    requires NoDuplicates(rows)
    ensures row in r && NoDuplicates(r)
    ensures forall x :: x in r <==> x in rows || x == row
    ensures row in rows ==> r == rows
    ensures row !in rows ==> |r| == |rows| + 1
  {
    if row in rows then rows else rows + [row]
  }

  /** Inserting the same row twice is inserting it once. */
  lemma InsertRowIdempotent(rows: seq<ScoreRow>, row: ScoreRow)
    requires NoDuplicates(rows)
    ensures InsertRow(InsertRow(rows, row), row) == InsertRow(rows, row)
  {
  }

  /** The table's rows, each stored once, in insertion order. */
  class Table {
    var rows: seq<ScoreRow>

    /** Every row was inserted by `submit_score`, and none is stored twice. */
    ghost predicate Valid()
      reads this
    {
      NoDuplicates(rows) && forall j :: 0 <= j < |rows| ==> rows[j].tsMs == 0
    }

    /** The module is published with an empty table. */
    constructor ()
      ensures rows == [] && Valid()
    {
      rows := [];
    }

    /** The `init` reducer. */
    method Init()
      ensures rows == old(rows)
    {
    }

    /** The `client_connected` reducer. */
    method IdentityConnected()
      ensures rows == old(rows)
    {
    }

    /** The `client_disconnected` reducer. */
    method IdentityDisconnected()
      ensures rows == old(rows)
    {
    }

    /** `submit_score`: the row is inserted into the table's set of rows. */
    method SubmitScore(playerName: string, scoreValue: i32, rounds: i32, averageDistance: i32)
      requires Valid()
      modifies this
      ensures Valid()
      ensures rows == InsertRow(old(rows), RowOf(playerName, scoreValue, rounds, averageDistance))
    {
      var row := ScoreRow(playerName, scoreValue, rounds, averageDistance, 0);
      if row !in rows {
        rows := rows + [row];
      }
    }
  }

  /** Because every row's timestamp is 0, the same submission made twice on
      a fresh table, with clients connecting and leaving in between, is
      stored once: two games with equal name, score, rounds and distance
      leave a single row, whatever the values (negative ones included). */
  method SubmitTwice(playerName: string, scoreValue: i32, rounds: i32, averageDistance: i32)
    returns (rows: seq<ScoreRow>)
    ensures rows == [ScoreRow(playerName, scoreValue, rounds, averageDistance, 0)]
  {
    var t := new Table();
    t.Init();
    t.IdentityConnected();
    t.SubmitScore(playerName, scoreValue, rounds, averageDistance);
    t.IdentityDisconnected();
    t.IdentityConnected();
    t.SubmitScore(playerName, scoreValue, rounds, averageDistance);
    rows := t.rows;
  }
}
