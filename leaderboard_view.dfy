/** The leaderboard component: how table rows become entries, which ten are
    shown and in what order, their rank icons, and which are highlighted.
    The subscription that delivers the rows is left out; its snapshots are
    inputs here. */
module LeaderboardView {
  import opened Basics
  import opened GameTypes
  import opened ScoreOrder
  import ScoreTable

  const ShownEntries: nat := 10

  /** A row as the client cache holds it; any field may be missing. */
  datatype ClientRow = ClientRow(
    playerName: string,
    scoreValue: Option<int>,
    rounds: Option<int>,
    tsMs: Option<nat>,
    averageDistance: Option<int>)

  /** The client's copy of a table row. */
  function FromTable(r: ScoreTable.ScoreRow): ClientRow {
    ClientRow(r.playerName, Some(r.scoreValue as int), Some(r.rounds as int), Some(r.tsMs as nat), Some(r.averageDistance as int))
  }

  /** The entry id: `<playerName>-<tsMs>-<idx>`. */
  function RowId(r: ClientRow, idx: nat): string {
    r.playerName + "-" + NatToString(r.tsMs.GetOr(0)) + "-" + NatToString(idx)
  }

  /** The `rows.map` callback: missing numbers become 0. */
  function RowEntry(r: ClientRow, idx: nat): (e: Entry)
    ensures e.id == RowId(r, idx) && e.playerName == r.playerName
    ensures e.score == r.scoreValue.GetOr(0) && e.rounds == r.rounds.GetOr(0)
    ensures e.timestamp == r.tsMs.GetOr(0) && e.averageDistance == r.averageDistance.GetOr(0)
  {
    Entry(RowId(r, idx), r.playerName, r.scoreValue.GetOr(0), r.rounds.GetOr(0), r.tsMs.GetOr(0), r.averageDistance.GetOr(0))
  }

  /** `snapshot`: every row mapped with its position. */
  function Snapshot(rows: seq<ClientRow>): (es: seq<Entry>)
    ensures |es| == |rows|
    ensures forall i :: 0 <= i < |rows| ==> es[i] == RowEntry(rows[i], i)
  {
    if rows == [] then []
    else Snapshot(rows[..|rows| - 1]) + [RowEntry(rows[|rows| - 1], |rows| - 1)]
  }

  /** The position is the id's last dash-separated segment, so two rows of
      one snapshot never share an id, whatever their names and times. */
  lemma RowIdsDistinct(r1: ClientRow, i: nat, r2: ClientRow, j: nat)
    requires i != j
    ensures RowId(r1, i) != RowId(r2, j)
  {
    if RowId(r1, i) == RowId(r2, j) {
      var a := r1.playerName + "-" + NatToString(r1.tsMs.GetOr(0));
      var b := r2.playerName + "-" + NatToString(r2.tsMs.GetOr(0));
      assert RowId(r1, i) == a + ['-'] + NatToString(i);
      assert RowId(r2, j) == b + ['-'] + NatToString(j);
      NatToStringHasNoDash(i);
      NatToStringHasNoDash(j);
      LastSegmentDetermined(a, NatToString(i), b, NatToString(j), '-');
      NatToStringInjective(i, j);
    }
  }

  lemma SnapshotIdsDistinct(rows: seq<ClientRow>)
    ensures forall i, j :: 0 <= i < j < |rows| ==> Snapshot(rows)[i].id != Snapshot(rows)[j].id
  {
    forall i, j | 0 <= i < j < |rows|
      ensures Snapshot(rows)[i].id != Snapshot(rows)[j].id
    {
      RowIdsDistinct(rows[i], i, rows[j], j);
    }
  }

  /** Rows from the table carry every field, so their entries copy the
      table's values; and since the table's timestamp is always 0, the id
      is `<playerName>-0-<idx>` and every entry has timestamp 0. */
  lemma TableSnapshotCopiesRows(t: seq<ScoreTable.ScoreRow>, i: nat)
    requires i < |t| && t[i].tsMs == 0
    ensures var es := Snapshot(seq(|t|, k requires 0 <= k < |t| => FromTable(t[k])));
      es[i].score == t[i].scoreValue as int && es[i].rounds == t[i].rounds as int &&
      es[i].averageDistance == t[i].averageDistance as int && es[i].timestamp == 0 &&
      es[i].id == t[i].playerName + "-0-" + NatToString(i)
  {
    var rows := seq(|t|, k requires 0 <= k < |t| => FromTable(t[k]));
    assert rows[i] == FromTable(t[i]);
    assert NatToString(0) == "0";
  }

  /** `sortedEntries`: a sorted copy of the remote list (missing means
      empty), cut to its first ten. */
  function TopTen(remote: Option<seq<Entry>>): (shown: seq<Entry>)
    ensures var list := remote.GetOr([]);
      |shown| == if |list| < ShownEntries then |list| else ShownEntries
    ensures SortedDesc(shown)
    ensures multiset(shown) <= multiset(remote.GetOr([]))
  {
    var sorted := SortByScore(remote.GetOr([]));
    var k := if |sorted| < ShownEntries then |sorted| else ShownEntries;
    assert sorted == sorted[..k] + sorted[k..];
    assert multiset(sorted) == multiset(sorted[..k]) + multiset(sorted[k..]);
    sorted[..k]
  }

  /** No entry left off the list outscores one on it. */
  lemma TopTenKeepsBest(remote: Option<seq<Entry>>)
    ensures forall a, b :: a in TopTen(remote) && b in multiset(remote.GetOr([])) - multiset(TopTen(remote)) ==>
      b.score <= a.score
  {
    var sorted := SortByScore(remote.GetOr([]));
    var k := |TopTen(remote)|;
    assert sorted == sorted[..k] + sorted[k..];
    assert multiset(sorted) == multiset(sorted[..k]) + multiset(sorted[k..]);
    assert multiset(remote.GetOr([])) - multiset(TopTen(remote)) == multiset(sorted[k..]);
    forall a, b | a in TopTen(remote) && b in multiset(remote.GetOr([])) - multiset(TopTen(remote))
      ensures b.score <= a.score
    {
      PrefixDominatesSuffix(sorted, k, a, b);
    }
  }

  /** A short list is shown whole, only reordered. */
  lemma ShortListShownWhole(remote: Option<seq<Entry>>)
    requires |remote.GetOr([])| <= ShownEntries
    ensures multiset(TopTen(remote)) == multiset(remote.GetOr([]))
  {
    var list := remote.GetOr([]);
    assert |TopTen(remote)| == |list|;
    assert multiset(list) - multiset(TopTen(remote)) == multiset{} by {
      assert |multiset(list) - multiset(TopTen(remote))| == |multiset(list)| - |multiset(TopTen(remote))|;
    }
  }

  datatype Icon = Trophy | Medal | Award | RankNumber(rank: int)

  /** `getMedalIcon`. */
  function MedalIcon(rank: int): (i: Icon)
    ensures rank == 1 <==> i == Trophy
    ensures rank == 2 <==> i == Medal
    ensures rank == 3 <==> i == Award
    ensures i.RankNumber? ==> i.rank == rank
  {
    if rank == 1 then Trophy
    else if rank == 2 then Medal
    else if rank == 3 then Award
    else RankNumber(rank)
  }

  /** The icon of the row at `index`: its rank is `index + 1`. */
  function RowIcon(index: nat): (i: Icon)
    ensures index < 3 <==> !i.RankNumber?
    ensures index >= 3 ==> i == RankNumber(index + 1)
  {
    MedalIcon(index + 1)
  }

  /** `isCurrentScore`: the current score is truthy and equals the entry's. */
  predicate IsCurrentScore(currentScore: Option<int>, e: Entry) {
    currentScore.Some? && currentScore.value != 0 && e.score == currentScore.value
  }

  /** A current score of 0 (or none) never highlights a row, even a row
      that scored 0. */
  lemma ZeroScoreHighlightsNothing(e: Entry)
    ensures !IsCurrentScore(Some(0), e) && !IsCurrentScore(None, e)
  {
  }

  /** The highlighted rows are the shown rows that scored the current score. */
  function Highlighted(shown: seq<Entry>, currentScore: Option<int>): (hs: seq<nat>)
    ensures forall k :: 0 <= k < |hs| ==> hs[k] < |shown| && IsCurrentScore(currentScore, shown[hs[k]])
    ensures forall i :: 0 <= i < |shown| && IsCurrentScore(currentScore, shown[i]) ==> i in hs
    ensures currentScore.None? || currentScore.value == 0 ==> hs == []
  {
    if shown == [] then []
    else
      var rest := Highlighted(shown[..|shown| - 1], currentScore);
      if IsCurrentScore(currentScore, shown[|shown| - 1]) then rest + [|shown| - 1] else rest
  }
}
