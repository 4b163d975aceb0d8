/** Ordering leaderboard entries by score, highest first, as both the submit
    route and the leaderboard panel do with `sort((a, b) => b.score - a.score)`.
    JavaScript's sort is stable; the insertion sort below is stable too, so
    entries with equal scores keep their input order. */
module ScoreOrder {
  import opened GameTypes

  /** Non-increasing by score. */
  predicate SortedDesc(s: seq<Entry>) {
    forall i, j :: 0 <= i < j < |s| ==> s[i].score >= s[j].score
  }

  /** No entry of `s` scores more than `x`. */
  predicate AllAtMost(s: seq<Entry>, x: int) {
    forall i :: 0 <= i < |s| ==> s[i].score <= x
  }

  /** Places `x` before the first entry that does not score strictly more. */
  function Insert(x: Entry, s: seq<Entry>): (r: seq<Entry>)
    ensures |r| == |s| + 1
  {
    if s == [] then [x]
    else if s[0].score > x.score then [s[0]] + Insert(x, s[1..])
    else [x] + s
  }

  lemma {:induction false} InsertPermutes(x: Entry, s: seq<Entry>)
    ensures multiset(Insert(x, s)) == multiset(s) + multiset{x}
  {
    if s != [] && s[0].score > x.score {
      InsertPermutes(x, s[1..]);
      assert s == [s[0]] + s[1..];
    }
  }

  lemma {:induction false} InsertAtMost(x: Entry, s: seq<Entry>, k: int)
    requires AllAtMost(s, k) && x.score <= k
    ensures AllAtMost(Insert(x, s), k)
  {
    if s != [] && s[0].score > x.score {
      InsertAtMost(x, s[1..], k);
    }
  }

  lemma {:induction false} InsertSorted(x: Entry, s: seq<Entry>)
    requires SortedDesc(s)
    ensures SortedDesc(Insert(x, s))
  {
    if s != [] && s[0].score > x.score {
      InsertSorted(x, s[1..]);
      InsertAtMost(x, s[1..], s[0].score);
    }
  }

  /** The entries of `s` in non-increasing score order: sorted, and a
      permutation of the input. */
  function SortByScore(s: seq<Entry>): (r: seq<Entry>)
    ensures SortedDesc(r)
    ensures multiset(r) == multiset(s)
    ensures |r| == |s|
  {
    if s == [] then []
    else
      var rest := SortByScore(s[1..]);
      InsertSorted(s[0], rest);
      InsertPermutes(s[0], rest);
      assert s == [s[0]] + s[1..];
      Insert(s[0], rest)
  }

  /** In a sorted list, nothing after position `k` outscores anything up to `k`. */
  lemma PrefixDominatesSuffix(s: seq<Entry>, k: nat, a: Entry, b: Entry)
    requires SortedDesc(s) && k <= |s|
    requires a in s[..k] && b in s[k..]
    ensures b.score <= a.score
  {
    var i :| 0 <= i < k && s[..k][i] == a;
    var j :| 0 <= j < |s| - k && s[k..][j] == b;
    assert s[i] == a && s[k + j] == b;
  }
}
