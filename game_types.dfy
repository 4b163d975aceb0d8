/** The game's shared records (the `GameMode`, `Location`, `RoundResult` and
    `LeaderboardEntry` types that the pages and routes exchange). */
module GameTypes {
  import opened Basics

  datatype GameMode = Classic | NoMove | TimeAttack

  datatype Provider = Mapillary | Kartaview

  datatype Coord = Coord(lat: real, lng: real)

  /** A playable location: either a curated one from the fallback list or
      one built from a fetched street-level shot. */
  datatype Location = Location(
    id: string,
    name: string,
    country: string,
    continent: string,
    lat: real,
    lng: real,
    provider: Option<Provider>,
    imageId: Option<string>,
    imageUrl: Option<string>,
    panoramaUrl: Option<string>,
    difficulty: string,
    hints: seq<string>)

  /** The outcome of one round: where the player was, where they guessed,
      how far apart the two are and the points awarded. */
  datatype RoundResult = RoundResult(
    location: Location,
    guess: Coord,
    distance: real,
    score: int,
    round: int)

  /** One row of a leaderboard, as the submit route stores it and as the
      leaderboard panel displays it. */
  datatype Entry = Entry(
    id: string,
    playerName: string,
    score: int,
    rounds: int,
    timestamp: int,
    averageDistance: int)

  /** The sum of the scores of a list of round results. */
  function SumScores(rs: seq<RoundResult>): int {
    if rs == [] then 0 else rs[0].score + SumScores(rs[1..])
  }

  /** Adding one result at the end adds exactly its score to the sum: the
      step every handler that records a round relies on. */
  lemma {:induction false} SumScoresAppend(rs: seq<RoundResult>, r: RoundResult)
    ensures SumScores(rs + [r]) == SumScores(rs) + r.score
  {
    if rs == [] {
      assert [] + [r] == [r];
    } else {
      assert (rs + [r])[1..] == rs[1..] + [r];
      SumScoresAppend(rs[1..], r);
    }
  }
}
