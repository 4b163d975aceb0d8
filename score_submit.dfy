/** The score submission endpoint: it sanitises the submission, recomputes
    the score from the round's coordinates when they are given (and then
    applies the three anti-cheat rules) or else trusts the client's total,
    and records the entry in an in-memory leaderboard with push, sort and
    splice. The distance and scoring functions, the clock and the random id
    suffix are parameters. */
module ScoreSubmit {
  import opened Basics
  import opened GameTypes
  import opened ScoreOrder

  const MaxNameLength: nat := 32
  /** The number of entries the `splice` call and `GET` work with. */
  const BoardLimit: nat := 100

  /** The JSON body of a submission; every field may be missing. */
  datatype Body = Body(
    playerName: Option<string>,
    mode: Option<GameMode>,
    rounds: Option<real>,
    totalScoreClient: Option<real>,
    actual: Option<Coord>,
    guess: Option<Coord>,
    timeSpentSec: Option<real>,
    movementCount: Option<real>,
    pathMeters: Option<real>)

  datatype PostResponse = PostResponse(ok: bool, entry: Entry, flagged: bool)

  function Min(a: int, b: int): int {
    if a <= b then a else b
  }

  function Max(a: int, b: int): int {
    if a >= b then a else b
  }

  /** `(playerName || 'Player').slice(0, 32)`. */
  function PlayerName(name: Option<string>): (r: string)
    ensures |r| <= MaxNameLength
    ensures !Truthy(name) ==> r == "Player"
    ensures Truthy(name) ==> r == name.value[..Min(MaxNameLength, |name.value|)]
    ensures Truthy(name) && |name.value| <= MaxNameLength ==> r == name.value
  {
    var s := if Truthy(name) then name.value else "Player";
    s[..Min(MaxNameLength, |s|)]
  }

  /** `x || d` on an optional number: missing and zero are falsy. */
  function NumberOr(x: Option<real>, d: real): real {
    if x.Some? && x.value != 0.0 then x.value else d
  }

  /** `Math.max(0, Math.floor(x ?? 0))`: the count the anti-cheat rules see. */
  function Sanitised(x: Option<real>): (n: int)
    ensures n >= 0
    ensures x.Some? && x.value >= 0.0 ==> n == x.value.Floor
    ensures x.None? || x.value < 1.0 ==> n == 0
  {
    Max(0, x.GetOr(0.0).Floor)
  }

  /** `Math.max(1, Math.floor(rounds || 1))`. */
  function RoundsOf(rounds: Option<real>): (n: int)
    ensures n >= 1
    ensures rounds.Some? && rounds.value >= 1.0 ==> n == rounds.value.Floor
    ensures rounds.None? || rounds.value < 2.0 ==> n == 1
  {
    Max(1, NumberOr(rounds, 1.0).Floor)
  }

  /** The low-trust score: `Math.max(0, Math.floor(totalScoreClient || 0))`. */
  function FallbackScore(total: Option<real>): (n: int)
    ensures n >= 0
    ensures total.Some? && total.value >= 0.0 ==> n == total.value.Floor
    ensures total.None? || total.value < 0.0 ==> n == 0
  {
    Max(0, NumberOr(total, 0.0).Floor)
  }

  /** Whatever non-negative whole total the client declares is recorded. */
  lemma FallbackTrustsClient(k: nat)
    ensures FallbackScore(Some(k as real)) == k
  {
  }

  /** `Math.round`: the nearest integer, halves rounded up. */
  function RoundHalfUp(x: real): (n: int)
    ensures (n as real) - 0.5 <= x < (n as real) + 0.5
  {
    (x + 0.5).Floor
  }

  /** Rule 1: more than 3000 points in under two seconds. */
  predicate TooFastForScore(t: int, score: int) {
    t < 2 && score > 3000
  }

  /** Rule 2: any movement in no-move mode. */
  predicate MovedInNoMove(mode: GameMode, moves: int, path: int) {
    mode == NoMove && (moves > 0 || path > 0)
  }

  /** Rule 3: at least 4800 points in under four seconds. */
  predicate NearPerfectTooFast(t: int, score: int) {
    score >= 4800 && t < 4
  }

  /** A submission with its round's coordinates is recomputed and checked. */
  predicate HasRound(body: Body) {
    body.actual.Some? && body.guess.Some?
  }

  /** The recomputation: `serverScore`, `avgDist` and `flagged` as the route
      assigns them. With a round, the score and distance come from the
      given functions and `flagged` holds exactly when one of the three
      rules fires on the sanitised counts; without one, the client's total
      is trusted and nothing is flagged. */
  method Evaluate(body: Body, mode: GameMode, distance: (real, real, real, real) -> real, points: real -> int)
    returns (serverScore: int, avgDist: real, flagged: bool)
    ensures HasRound(body) ==>
      var d := distance(body.actual.value.lat, body.actual.value.lng, body.guess.value.lat, body.guess.value.lng);
      var t, moves, path := Sanitised(body.timeSpentSec), Sanitised(body.movementCount), Sanitised(body.pathMeters);
      serverScore == points(d) && avgDist == d &&
      (flagged <==> TooFastForScore(t, points(d)) || MovedInNoMove(mode, moves, path) || NearPerfectTooFast(t, points(d)))
    ensures !HasRound(body) ==> serverScore == FallbackScore(body.totalScoreClient) && avgDist == 0.0 && !flagged
  {
    serverScore := 0;
    avgDist := 0.0;
    flagged := false;
    if body.actual.Some? && body.guess.Some? {
      var dist := distance(body.actual.value.lat, body.actual.value.lng, body.guess.value.lat, body.guess.value.lng);
      avgDist := dist;
      serverScore := points(dist);
      var t := Sanitised(body.timeSpentSec);
      var moves := Sanitised(body.movementCount);
      var path := Sanitised(body.pathMeters);
      if t < 2 && serverScore > 3000 {
        flagged := true;
      }
      if mode == NoMove && (moves > 0 || path > 0) {
        flagged := true;
      }
      if serverScore >= 4800 && t < 4 {
        flagged := true;
      }
    } else {
      serverScore := FallbackScore(body.totalScoreClient);
      avgDist := 0.0;
    }
  }

  /** Rule 3 is not implied by rule 1: 4900 points after three seconds. */
  lemma NearPerfectRuleIsIndependent()
    ensures NearPerfectTooFast(3, 4900) && !TooFastForScore(3, 4900)
  {
  }

  /** Rule 1 is not implied by rule 3: 3500 points after one second. */
  lemma FastRuleIsIndependent()
    ensures TooFastForScore(1, 3500) && !NearPerfectTooFast(1, 3500)
  {
  }

  /** Any movement in no-move mode is flagged, even with no path length. */
  lemma MovementAloneFlags(moves: int)
    requires moves > 0
    ensures MovedInNoMove(NoMove, moves, 0)
  {
  }

  /** The stored entry: id `<now>-<suffix>`, the sanitised name and rounds,
      the computed score and the rounded average distance. The clock is read
      separately for the id and for the timestamp. */
  function MakeEntry(body: Body, serverScore: int, avgDist: real, nowForId: nat, suffix: string, nowForTimestamp: nat): (e: Entry)
    ensures e.score == serverScore && e.rounds >= 1 && |e.playerName| <= MaxNameLength
    ensures e.timestamp == nowForTimestamp
  {
    Entry(NatToString(nowForId) + "-" + suffix, PlayerName(body.playerName), serverScore,
          RoundsOf(body.rounds), nowForTimestamp, RoundHalfUp(avgDist))
  }

  /** `splice(0, 100)` as written: it removes the FIRST hundred entries (the
      highest scores, once sorted) and keeps the rest. */
  function DropFirstHundred(s: seq<Entry>): (r: seq<Entry>)
    ensures |s| <= BoardLimit ==> r == []
    ensures |s| > BoardLimit ==> |r| == |s| - BoardLimit && r == s[BoardLimit..]
  {
    s[Min(BoardLimit, |s|)..]
  }

  /** The intended "keep top 100", which `GET`'s `slice(0, 100)` is. */
  function TopHundred(s: seq<Entry>): (r: seq<Entry>)
    ensures |r| == Min(BoardLimit, |s|)
    ensures r == s[..|r|]
  {
    s[..Min(BoardLimit, |s|)]
  }

  /** On a sorted board, the top hundred keeps every entry of the board
      up to the limit, and no dropped entry outscores a kept one. */
  lemma TopHundredKeepsBest(s: seq<Entry>)
    requires SortedDesc(s)
    ensures multiset(TopHundred(s)) <= multiset(s)
    ensures |s| <= BoardLimit ==> TopHundred(s) == s
    ensures forall a, b :: a in TopHundred(s) && b in multiset(s) - multiset(TopHundred(s)) ==> b.score <= a.score
  {
    var k := Min(BoardLimit, |s|);
    assert s == s[..k] + s[k..];
    assert multiset(s) == multiset(s[..k]) + multiset(s[k..]);
    assert multiset(s) - multiset(TopHundred(s)) == multiset(s[k..]);
    forall a, b | a in TopHundred(s) && b in multiset(s) - multiset(TopHundred(s))
      ensures b.score <= a.score
    {
      PrefixDominatesSuffix(s, k, a, b);
    }
  }

  /** The in-memory leaderboard of the route module. */
  class Board {
    var entries: seq<Entry>

    /** As written, the board is empty between requests: every `POST` adds
        one entry and then splices away up to a hundred. */
    ghost predicate Valid()
      reads this
    {
      entries == []
    }

    constructor ()
      ensures Valid()
    {
      entries := [];
    }

    /** `POST`: the entry is always built and pushed (flagging never
        blocks) and the answer is always `ok`; then the board is sorted by
        score and spliced. */
    method Post(body: Body, distance: (real, real, real, real) -> real, points: real -> int,
                nowForId: nat, suffix: string, nowForTimestamp: nat)
      returns (resp: PostResponse)
      requires Valid()
      modifies this
      ensures Valid()
      ensures resp.ok
      ensures resp.entry.id == NatToString(nowForId) + "-" + suffix && resp.entry.timestamp == nowForTimestamp
      ensures resp.entry.playerName == PlayerName(body.playerName) && resp.entry.rounds == RoundsOf(body.rounds)
      ensures entries == DropFirstHundred(SortByScore(old(entries) + [resp.entry]))
      ensures HasRound(body) ==>
        var d := distance(body.actual.value.lat, body.actual.value.lng, body.guess.value.lat, body.guess.value.lng);
        var t, moves, path := Sanitised(body.timeSpentSec), Sanitised(body.movementCount), Sanitised(body.pathMeters);
        resp.entry.score == points(d) && resp.entry.averageDistance == RoundHalfUp(d) &&
        (resp.flagged <==> TooFastForScore(t, points(d)) || MovedInNoMove(body.mode.GetOr(Classic), moves, path) || NearPerfectTooFast(t, points(d)))
      ensures !HasRound(body) ==>
        resp.entry.score == FallbackScore(body.totalScoreClient) && resp.entry.averageDistance == 0 && !resp.flagged
    {
      var mode := body.mode.GetOr(Classic);
      var serverScore, avgDist, flagged := Evaluate(body, mode, distance, points);
      var entry := MakeEntry(body, serverScore, avgDist, nowForId, suffix, nowForTimestamp);
      entries := entries + [entry];
      entries := SortByScore(entries);
      entries := DropFirstHundred(entries);
      resp := PostResponse(true, entry, flagged);
    }

    /** `GET`: the first hundred entries of the board. */
    function Get(): (r: seq<Entry>)
      reads this
      ensures |r| <= BoardLimit
      ensures Valid() ==> r == []
    {
      TopHundred(entries)
    }
  }

  /** What the splice does to a fresh server: the first submission is
      accepted and reported, and yet `GET` lists nothing afterwards. */
  method SubmitOnceThenList(body: Body, distance: (real, real, real, real) -> real, points: real -> int,
                            now: nat, suffix: string)
    returns (resp: PostResponse, listed: seq<Entry>)
    ensures resp.ok && resp.entry.rounds >= 1
    ensures listed == []
  {
    var board := new Board();
    resp := board.Post(body, distance, points, now, suffix, now);
    listed := board.Get();
  }

  /** On a sorted board longer than a hundred, the splice as written keeps
      exactly the entries the corrected one drops: every survivor scores
      at most what every removed entry scores. */
  lemma SpliceKeepsTheWorst(s: seq<Entry>)
    requires SortedDesc(s) && |s| > BoardLimit
    ensures TopHundred(s) + DropFirstHundred(s) == s
    ensures forall a, b :: a in DropFirstHundred(s) && b in TopHundred(s) ==> a.score <= b.score
  {
    forall a, b | a in DropFirstHundred(s) && b in TopHundred(s)
      ensures a.score <= b.score
    {
      PrefixDominatesSuffix(s, BoardLimit, b, a);
    }
  }
}
