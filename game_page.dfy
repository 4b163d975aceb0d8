/** The game page: the session state that moves through the screens
    home -> playing -> results -> (playing | final) -> home, the round
    handlers, the time-attack countdown and how the round locations are
    assembled from fetched street-level shots and curated fallbacks. */
module GamePage {
  import opened Basics
  import opened GameTypes
  import RandomLocation
  import PanoramaViewer
  import GameHeader
  import FinalResults

  const TotalRounds: nat := 5
  /** Seconds per round in time-attack mode when no duration is chosen. */
  const TimeAttackLimit: real := 60.0
  /** The distance and guess recorded for a round whose time ran out. */
  const ExpiredDistance: real := 20000.0

  datatype Screen = Home | Playing | Results | Final

  /** A street-level shot as the random-location endpoint describes it. */
  datatype Shot = Shot(provider: Provider, imageId: Option<string>, imageUrl: Option<string>, lat: real, lon: real)

  /** What one request to the random-location endpoint gave back: it threw
      (network failure, unreadable body) or it answered. */
  datatype FetchOutcome = Threw | Replied(ok: bool, body: RandomLocation.Response)

  /** `fetchRandomShot`: a non-ok reply or one that did not find anything
      gives no shot; a found reply is taken as the shot. */
  function ShotOf(ok: bool, body: RandomLocation.Response): (s: Option<Shot>)
    ensures s.Some? <==> ok && body.Found?
    ensures s.Some? ==> s.value == Shot(body.provider, body.imageId, body.imageUrl, body.lat, body.lon)
  {
    if ok && body.Found? then
      Some(Shot(body.provider, body.imageId, body.imageUrl, body.lat, body.lon))
    else None
  }

  /** `Promise.all` over the fetches: one throwing fetch rejects the whole
      batch (None); otherwise each reply becomes an optional shot. */
  function Shots(fetches: seq<FetchOutcome>): (r: Option<seq<Option<Shot>>>)
    ensures r.None? <==> exists i :: 0 <= i < |fetches| && fetches[i].Threw?
    ensures r.Some? ==> (|r.value| == |fetches| &&
      forall i :: 0 <= i < |fetches| ==> r.value[i] == ShotOf(fetches[i].ok, fetches[i].body))
  {
    if fetches == [] then Some([])
    else
      var rest := Shots(fetches[1..]);
      assert forall i :: 1 <= i < |fetches| ==> fetches[i] == fetches[1..][i - 1];
      if fetches[0].Threw? || rest.None? then None
      else Some([ShotOf(fetches[0].ok, fetches[0].body)] + rest.value)
  }

  /** The identifier of a location built from the shot of round slot `i`:
      the image id when it is a non-empty string, otherwise `kv-<i>`. */
  function ShotLocationId(s: Shot, i: nat): string {
    if Truthy(s.imageId) then s.imageId.value else "kv-" + NatToString(i)
  }

  /** The location built from a fetched shot for slot `i`: note that the
      shot's `lon` becomes the location's `lng`. */
  function LocationFromShot(s: Shot, i: nat): (loc: Location)
    ensures loc.lat == s.lat && loc.lng == s.lon
    ensures loc.provider == Some(s.provider) && loc.imageId == s.imageId && loc.imageUrl == s.imageUrl
    ensures loc.panoramaUrl.None?
    ensures Truthy(s.imageId) ==> loc.id == s.imageId.value
    ensures !Truthy(s.imageId) ==> loc.id == "kv-" + NatToString(i)
    ensures loc.name == "Mystery Location" && loc.difficulty == "medium" && loc.hints == []
  {
    Location(ShotLocationId(s, i), "Mystery Location", "", "", s.lat, s.lon,
             Some(s.provider), s.imageId, s.imageUrl, None, "medium", [])
  }

  /** The location of slot `i`: the curated fallback when the shot is
      missing (undefined when the fallback list is too short), otherwise the
      location built from the shot. */
  function SlotLocation(shot: Option<Shot>, fallback: seq<Location>, i: nat): Option<Location> {
    match shot
    case None => if i < |fallback| then Some(fallback[i]) else None
    case Some(s) => Some(LocationFromShot(s, i))
  }

  /** `shots.map((s, i) => ...)` in `startGame`. */
  function AssembleLocations(shots: seq<Option<Shot>>, fallback: seq<Location>): (locs: seq<Option<Location>>)
    ensures |locs| == |shots|
    ensures forall i :: 0 <= i < |shots| ==> locs[i] == SlotLocation(shots[i], fallback, i)
  {
    if shots == [] then []
    else
      var n := |shots| - 1;
      var front := AssembleLocations(shots[..n], fallback);
      assert forall i :: 0 <= i < n ==> shots[..n][i] == shots[i];
      front + [SlotLocation(shots[n], fallback, n)]
  }

  /** Two rounds whose shots carry no image id get distinct identifiers. */
  lemma ShotIdsDistinct(s: Shot, i: nat, t: Shot, j: nat)
    requires !Truthy(s.imageId) && !Truthy(t.imageId) && i != j
    ensures LocationFromShot(s, i).id != LocationFromShot(t, j).id
  {
    if NatToString(i) == NatToString(j) {
      NatToStringInjective(i, j);
    } else {
      var a, b := NatToString(i), NatToString(j);
      assert ("kv-" + a)[3..] == a;
      assert ("kv-" + b)[3..] == b;
    }
  }

  /** The time limit of a new game: the chosen duration (60 s by default) in
      time-attack mode, none otherwise. */
  function TimeLimitFor(mode: GameMode, durationSec: Option<real>): (t: Option<real>)
    ensures t.Some? <==> mode == TimeAttack
    ensures mode == TimeAttack && durationSec.None? ==> t == Some(TimeAttackLimit)
    ensures mode == TimeAttack && durationSec.Some? ==> t == durationSec
  {
    if mode == TimeAttack then Some(durationSec.GetOr(TimeAttackLimit)) else None
  }

  /** The `shot` prop handed to the panorama viewer for a location: present
      exactly when the location names a provider. */
  function ViewerShot(loc: Location): (s: Option<PanoramaViewer.Shot>)
    ensures s.Some? <==> loc.provider.Some?
  {
    if loc.provider.Some? then Some(PanoramaViewer.Shot(loc.provider.value, loc.imageId, loc.imageUrl))
    else None
  }

  /** A location built from a Mapillary shot with an image id is shown in
      the Mapillary viewer on that image. */
  lemma MapillaryShotShownInMapillaryViewer(s: Shot, i: nat)
    requires s.provider == Mapillary && Truthy(s.imageId)
    ensures var loc := LocationFromShot(s, i);
      PanoramaViewer.SelectViewer(ViewerShot(loc), loc.panoramaUrl) == PanoramaViewer.MapillaryView(s.imageId.value)
  {
  }

  /** A curated fallback without a provider but with a panorama is shown in
      the draggable legacy viewer, with its drag handlers attached. */
  lemma CuratedPanoramaIsLegacy(loc: Location)
    requires loc.provider.None? && Truthy(loc.panoramaUrl)
    ensures PanoramaViewer.IsLegacy(ViewerShot(loc), loc.panoramaUrl)
    ensures PanoramaViewer.SelectViewer(ViewerShot(loc), loc.panoramaUrl) == PanoramaViewer.LegacyView
  {
  }

  /** The page's `gameState` object. */
  datatype GameState = GameState(
    currentRound: int,
    totalRounds: int,
    score: int,
    locations: seq<Option<Location>>,
    currentLocation: Option<Location>,
    guess: Option<Coord>,
    roundScores: seq<RoundResult>,
    gameStarted: bool,
    gameEnded: bool,
    mode: Option<GameMode>,
    timeLimitSec: Option<real>,
    timeLeftSec: Option<real>)

  /** The state of a freshly opened page, which `playAgain` restores. */
  const InitialState := GameState(0, TotalRounds, 0, [], None, None, [], false, false, None, None, None)

  /** The session invariant: the running total is the sum of the recorded
      round scores, the round counter stays within the game, and every
      recorded result is tagged with a round already reached. */
  ghost predicate Consistent(g: GameState) {
    g.score == SumScores(g.roundScores) &&
    g.totalRounds == TotalRounds &&
    0 <= g.currentRound <= TotalRounds &&
    (g.currentLocation.Some? ==> g.currentRound >= 1) &&
    forall r :: r in g.roundScores ==> 1 <= r.round <= g.currentRound
  }

  /** The state `startGame` sets for mode `m` and the assembled locations. */
  function StartedState(m: GameMode, durationSec: Option<real>, locs: seq<Option<Location>>): (g: GameState)
    ensures Consistent(g)
  {
    GameState(1, TotalRounds, 0, locs, if |locs| > 0 then locs[0] else None, None, [], true, false,
              Some(m), TimeLimitFor(m, durationSec), TimeLimitFor(m, durationSec))
  }

  /** The state after `result` is recorded and its points added. */
  function Recorded(g: GameState, result: RoundResult): (h: GameState)
    requires Consistent(g)
    requires g.currentLocation.Some? && result.round == g.currentRound
    ensures Consistent(h)
    ensures h.score == g.score + result.score
  {
    SumScoresAppend(g.roundScores, result);
    g.(roundScores := g.roundScores + [result], score := g.score + result.score)
  }

  class GameSession {
    var state: GameState
    var screen: Screen
    var showMap: bool

    ghost predicate Valid()
      reads this
    {
      Consistent(state)
    }

    constructor ()
      ensures Valid()
      ensures state == InitialState && screen == Home && !showMap
    {
      state, screen, showMap := InitialState, Home, false;
    }

    /** The time-attack countdown is running: one tick of the interval
        happens only in this situation. */
    predicate CountdownActive()
      reads this
    {
      state.mode == Some(TimeAttack) && screen == Playing &&
      state.timeLeftSec.Some? && state.timeLeftSec.value > 0.0
    }

    /** The round's time is up while it is being played. */
    predicate TimeExpired()
      reads this
    {
      state.mode == Some(TimeAttack) && screen == Playing && state.timeLeftSec.GetOr(0.0) <= 0.0
    }

    /** The result shown on the results screen: the last one recorded. */
    function CurrentRoundResult(): (r: Option<RoundResult>)
      reads this
      ensures r.Some? <==> state.roundScores != []
      ensures r.Some? ==> r.value == state.roundScores[|state.roundScores| - 1]
    {
      if state.roundScores == [] then None else Some(state.roundScores[|state.roundScores| - 1])
    }

    /** The header's timer: only time-attack games pass their time on. */
    function HeaderTimer(): (t: Option<GameHeader.Timer>)
      reads this
      ensures t.Some? <==> state.mode == Some(TimeAttack) && state.timeLeftSec.Some?
    {
      GameHeader.TimerView(if state.mode == Some(TimeAttack) then state.timeLeftSec else None)
    }

    /** `isLastRound` of the results screen. */
    predicate IsLastRound()
      reads this
    {
      state.currentRound >= state.totalRounds
    }

    /** `startGame`: on a successful batch of fetches a new game begins on
        round 1 with the assembled locations; if any fetch threw, nothing
        changes. */
    method StartGame(m: GameMode, durationSec: Option<real>, fetches: seq<FetchOutcome>, fallback: seq<Location>)
      requires Valid()
      modifies this
      ensures Valid()
      ensures Shots(fetches).None? ==> state == old(state) && screen == old(screen) && showMap == old(showMap)
      ensures Shots(fetches).Some? ==>
        state == StartedState(m, durationSec, AssembleLocations(Shots(fetches).value, fallback)) &&
        screen == Playing && !showMap
    {
      var shots := Shots(fetches);
      if shots.None? {
        return;
      }
      var locs := AssembleLocations(shots.value, fallback);
      state := StartedState(m, durationSec, locs);
      screen := Playing;
      showMap := false;
    }

    /** One second of the time-attack countdown. */
    method Tick()
      requires Valid()
      modifies this`state
      ensures Valid()
      ensures old(CountdownActive()) ==> state == old(state).(timeLeftSec := Some(old(state.timeLeftSec.value) - 1.0))
      ensures !old(CountdownActive()) ==> state == old(state)
    {
      if CountdownActive() {
        state := state.(timeLeftSec := Some(state.timeLeftSec.GetOr(0.0) - 1.0));
      }
    }

    /** The auto-finish effect: when time is up on a round with a location,
        a zero-score result (guess at 0,0 and 20000 km away) is recorded and
        the results screen is shown; the total is unchanged. */
    method ExpireRound()
      requires Valid()
      modifies this
      ensures Valid()
      ensures state.score == old(state.score)
      ensures old(TimeExpired() && state.currentLocation.Some?) ==>
        state == old(state).(roundScores := old(state.roundScores) +
          [RoundResult(old(state.currentLocation.value), Coord(0.0, 0.0), ExpiredDistance, 0, old(state.currentRound))]) &&
        screen == Results && !showMap
      ensures !old(TimeExpired() && state.currentLocation.Some?) ==>
        state == old(state) && screen == old(screen) && showMap == old(showMap)
    {
      if TimeExpired() && state.currentLocation.Some? {
        var result := RoundResult(state.currentLocation.value, Coord(0.0, 0.0), ExpiredDistance, 0, state.currentRound);
        state := Recorded(state, result);
        screen := Results;
        showMap := false;
      }
    }

    /** `handleGuess`: scores the guess against the current location with
        the given distance and scoring functions, records one result tagged
        with the current round, adds its points to the total and shows the
        results screen. Without a current location nothing happens. */
    method HandleGuess(lat: real, lng: real, distance: (real, real, real, real) -> real, points: real -> int)
      requires Valid()
      modifies this
      ensures Valid()
      ensures old(state.currentLocation).None? ==>
        state == old(state) && screen == old(screen) && showMap == old(showMap)
      ensures old(state.currentLocation).Some? ==>
        var loc := old(state.currentLocation).value;
        var d := distance(loc.lat, loc.lng, lat, lng);
        state == old(state).(guess := Some(Coord(lat, lng)),
                             roundScores := old(state.roundScores) + [RoundResult(loc, Coord(lat, lng), d, points(d), old(state.currentRound))],
                             score := old(state.score) + points(d)) &&
        screen == Results && !showMap
    {
      if state.currentLocation.None? {
        return;
      }
      var loc := state.currentLocation.value;
      var d := distance(loc.lat, loc.lng, lat, lng);
      var result := RoundResult(loc, Coord(lat, lng), d, points(d), state.currentRound);
      state := Recorded(state, result).(guess := Some(Coord(lat, lng)));
      screen := Results;
      showMap := false;
    }

    /** `nextRound`: after the last round the game ends on the final screen
        with the round unchanged; otherwise the next round's location is
        loaded, the guess is cleared and, in time-attack mode, the clock is
        reset. */
    method NextRound()
      requires Valid()
      modifies this
      ensures Valid()
      ensures old(IsLastRound()) ==>
        state == old(state).(gameEnded := true) && screen == Final && showMap == old(showMap)
      ensures !old(IsLastRound()) ==>
        var g := old(state);
        var n := g.currentRound + 1;
        state == g.(currentRound := n,
                    currentLocation := if n - 1 < |g.locations| then g.locations[n - 1] else None,
                    guess := None,
                    timeLeftSec := if g.mode == Some(TimeAttack) then Some(g.timeLimitSec.GetOr(TimeAttackLimit)) else g.timeLeftSec) &&
        screen == Playing && !showMap
    {
      if state.currentRound >= state.totalRounds {
        state := state.(gameEnded := true);
        screen := Final;
        return;
      }
      var n := state.currentRound + 1;
      var next := if n - 1 < |state.locations| then state.locations[n - 1] else None;
      state := state.(currentRound := n, currentLocation := next, guess := None,
                      timeLeftSec := if state.mode == Some(TimeAttack) then Some(state.timeLimitSec.GetOr(TimeAttackLimit))
                                     else state.timeLeftSec);
      screen := Playing;
      showMap := false;
    }

    /** "Make a Guess": the map overlay is shown (on the next tick). */
    method ShowMap()
      modifies this`showMap
      ensures showMap
    {
      showMap := true;
    }

    method HideMap()
      modifies this`showMap
      ensures !showMap
    {
      showMap := false;
    }

    /** `playAgain`: back to the home screen with the initial state. */
    method PlayAgain()
      modifies this
      ensures Valid()
      ensures state == InitialState && screen == Home && !showMap
    {
      screen := Home;
      state := InitialState;
      showMap := false;
    }
  }

  /** One round as the player plays it: a guess, then "next" on the results
      screen. Exactly one result is recorded for the round's location and
      guess, and the game moves to the next round or, after the last one,
      to the final screen. */
  method GuessThenNext(s: GameSession, guess: Coord, distance: (real, real, real, real) -> real, points: real -> int)
    requires s.Valid() && s.state.currentLocation.Some?
    modifies s
    ensures s.Valid()
    ensures s.state.locations == old(s.state.locations) && s.state.totalRounds == old(s.state.totalRounds)
    ensures var loc := old(s.state.currentLocation.value);
      var d := distance(loc.lat, loc.lng, guess.lat, guess.lng);
      s.state.roundScores == old(s.state.roundScores) + [RoundResult(loc, guess, d, points(d), old(s.state.currentRound))]
    ensures old(s.state.currentRound) < TotalRounds ==>
      s.screen == Playing && s.state.currentRound == old(s.state.currentRound) + 1 &&
      s.state.currentLocation == (if old(s.state.currentRound) < |s.state.locations| then s.state.locations[old(s.state.currentRound)] else None)
    ensures old(s.state.currentRound) >= TotalRounds ==> s.screen == Final
  {
    s.HandleGuess(guess.lat, guess.lng, distance, points);
    s.NextRound();
  }

  /** `r` is the result of round `round`, played at `loc` with `guess`. */
  ghost predicate RoundPlayed(r: RoundResult, round: int, guess: Coord, loc: Option<Location>) {
    r.round == round && r.guess == guess && loc.Some? && r.location == loc.value
  }

  lemma DonePlayed(done: seq<RoundResult>, r: RoundResult, guesses: seq<Coord>, locs: seq<Option<Location>>, i: nat)
    requires |done| == i && i < |guesses| && i < |locs|
    requires forall j :: 0 <= j < i ==> RoundPlayed(done[j], j + 1, guesses[j], locs[j])
    requires RoundPlayed(r, i + 1, guesses[i], locs[i])
    ensures forall j :: 0 <= j < i + 1 ==> RoundPlayed((done + [r])[j], j + 1, guesses[j], locs[j])
  {
    forall j | 0 <= j < i + 1
      ensures RoundPlayed((done + [r])[j], j + 1, guesses[j], locs[j])
    {
      if j < i {
        assert (done + [r])[j] == done[j];
      }
    }
  }

  /** A whole game without time running out: five guesses, each followed by
      "next". It ends on the final screen with one result per round, in
      round order, each for that round's location and guess, and a total
      that is their sum, which is what the final screen grades. */
  method PlayFullGame(m: GameMode, durationSec: Option<real>, fetches: seq<FetchOutcome>, fallback: seq<Location>,
                      guesses: seq<Coord>, distance: (real, real, real, real) -> real, points: real -> int)
    returns (finalScreen: Screen, results: seq<RoundResult>, total: int)
    requires Shots(fetches).Some? && |fetches| == TotalRounds && |guesses| == TotalRounds
    requires forall i :: 0 <= i < TotalRounds ==> SlotLocation(Shots(fetches).value[i], fallback, i).Some?
    ensures finalScreen == Final
    ensures |results| == TotalRounds && total == SumScores(results)
    ensures forall i :: 0 <= i < TotalRounds ==>
      results[i].round == i + 1 && results[i].guess == guesses[i] &&
      results[i].location == SlotLocation(Shots(fetches).value[i], fallback, i).value
    ensures FinalResults.Summarise(results, total).Some?
  {
    var s := new GameSession();
    s.StartGame(m, durationSec, fetches, fallback);
    ghost var locs := AssembleLocations(Shots(fetches).value, fallback);
    var i := 0;
    ghost var done: seq<RoundResult> := [];
    while i < TotalRounds
      invariant 0 <= i <= TotalRounds
      invariant s.Valid() && s.state.locations == locs && s.state.totalRounds == TotalRounds
      invariant i < TotalRounds ==> s.state.currentRound == i + 1 && s.state.currentLocation == locs[i] && s.screen == Playing
      invariant i == TotalRounds ==> s.screen == Final
      invariant s.state.roundScores == done && |done| == i
      invariant forall j :: 0 <= j < i ==> RoundPlayed(done[j], j + 1, guesses[j], locs[j])
    {
      ghost var loc := s.state.currentLocation.value;
      ghost var d := distance(loc.lat, loc.lng, guesses[i].lat, guesses[i].lng);
      GuessThenNext(s, guesses[i], distance, points);
      ghost var r := RoundResult(loc, guesses[i], d, points(d), i + 1);
      assert RoundPlayed(r, i + 1, guesses[i], locs[i]);
      DonePlayed(done, r, guesses, locs, i);
      done := done + [r];
      i := i + 1;
    }
    finalScreen, results, total := s.screen, s.state.roundScores, s.state.score;
  }
}
