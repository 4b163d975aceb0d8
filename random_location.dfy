/** The random-location endpoint: up to eight random probes of the Mapillary
    imagery endpoint, the first acceptable one wins, and a curated location
    is the fallback. The random draws, the probe requests and the curated
    pick are parameters. */
module RandomLocation {
  import opened Basics
  import opened GameTypes
  import MapillaryImagery

  const Tries: nat := 8

  /** The endpoint's JSON answer. */
  datatype Response =
    | Found(provider: Provider, imageId: Option<string>, imageUrl: Option<string>, lat: real, lon: real)
    | NotFound

  /** The fields of a probe reply the acceptance test looks at; a
      coordinate is present when it is a number. */
  datatype ProbeBody = ProbeBody(found: bool, imageId: Option<string>, lat: Option<real>, lon: Option<real>)

  /** One probe request: it threw (caught and ignored) or it replied. */
  datatype ProbeOutcome = ProbeThrew | ProbeReplied(ok: bool, body: ProbeBody)

  /** `rand(min, max)` for the random draw `r`. */
  function Rand(min: real, max: real, r: real): real {
    r * (max - min) + min
  }

  /** Attempt `i` draws its latitude from `rng[2i]` and its longitude from
      `rng[2i + 1]`, in that order. */
  function ProbeLat(rng: seq<real>, i: nat): real
    requires 2 * i + 1 < |rng|
  {
    Rand(-55.0, 75.0, rng[2 * i])
  }

  function ProbeLon(rng: seq<real>, i: nat): real
    requires 2 * i + 1 < |rng|
  {
    Rand(-180.0, 180.0, rng[2 * i + 1])
  }

  /** Given draws in [0, 1), every probe lies in latitude [-55, 75) and
      longitude [-180, 180). */
  lemma ProbeCoordinatesInRange(rng: seq<real>, i: nat)
    requires 2 * i + 1 < |rng|
    requires 0.0 <= rng[2 * i] < 1.0 && 0.0 <= rng[2 * i + 1] < 1.0
    ensures -55.0 <= ProbeLat(rng, i) < 75.0
    ensures -180.0 <= ProbeLon(rng, i) < 180.0
  {
    assert ProbeLat(rng, i) == rng[2 * i] * 130.0 - 55.0;
    assert ProbeLon(rng, i) == rng[2 * i + 1] * 360.0 - 180.0;
  }

  /** The acceptance test: an ok reply that found an image with an id and
      numeric coordinates. */
  predicate Accepts(o: ProbeOutcome) {
    o.ProbeReplied? && o.ok && o.body.found && Truthy(o.body.imageId) && o.body.lat.Some? && o.body.lon.Some?
  }

  /** The answer built from an accepted probe. */
  function FromProbe(b: ProbeBody): Response
    requires b.imageId.Some? && b.lat.Some? && b.lon.Some?
  {
    Found(Mapillary, b.imageId, None, b.lat.value, b.lon.value)
  }

  /** The answer when every probe failed: the curated location as a
      KartaView panorama (its `lng` answered as `lon`), or nothing. */
  function Fallback(curated: Option<Location>): (r: Response)
    ensures curated.None? <==> r.NotFound?
    ensures curated.Some? ==> r == Found(Kartaview, None, curated.value.panoramaUrl, curated.value.lat, curated.value.lng)
  {
    match curated
    case None => NotFound
    case Some(loc) => Found(Kartaview, None, loc.panoramaUrl, loc.lat, loc.lng)
  }

  function ProbeAt(rng: seq<real>, probe: (real, real) -> ProbeOutcome, i: nat): ProbeOutcome
    requires 2 * i + 1 < |rng|
  {
    probe(ProbeLat(rng, i), ProbeLon(rng, i))
  }

  /** `GET`: `probes` is the number of probe requests made. The answer is
      the first accepted probe, after which no further probe runs; when all
      eight fail it is the fallback. */
  method Get(rng: seq<real>, probe: (real, real) -> ProbeOutcome, curated: Option<Location>)
    returns (resp: Response, probes: nat)
    requires |rng| == 2 * Tries
    ensures 1 <= probes <= Tries
    ensures forall j :: 0 <= j < probes - 1 ==> !Accepts(ProbeAt(rng, probe, j))
    ensures Accepts(ProbeAt(rng, probe, probes - 1)) ==> resp == FromProbe(ProbeAt(rng, probe, probes - 1).body)
    ensures !Accepts(ProbeAt(rng, probe, probes - 1)) ==> probes == Tries && resp == Fallback(curated)
  {
    var i := 0;
    while i < Tries
      invariant 0 <= i <= Tries
      invariant forall j :: 0 <= j < i ==> !Accepts(ProbeAt(rng, probe, j))
    {
      var lat := ProbeLat(rng, i);
      var lon := ProbeLon(rng, i);
      var outcome := probe(lat, lon);
      if Accepts(outcome) {
        return FromProbe(outcome.body), i + 1;
      }
      i := i + 1;
    }
    resp := Fallback(curated);
    probes := Tries;
  }

  /** What a probe sees of the Mapillary endpoint's answer: ok unless it
      answered with an error status. */
  function ProbeOf(r: MapillaryImagery.Response): ProbeOutcome {
    match r
    case Error(_) => ProbeReplied(false, ProbeBody(false, None, None, None))
    case NoImage => ProbeReplied(true, ProbeBody(false, None, None, None))
    case Image(id, lat, lon) => ProbeReplied(true, ProbeBody(true, Some(id), Some(lat), Some(lon)))
  }

  /** A probe is accepted exactly when the imagery endpoint found an image
      with a non-empty id. */
  lemma AcceptsImageryAnswer(r: MapillaryImagery.Response)
    ensures Accepts(ProbeOf(r)) <==> r.Image? && r.imageId != ""
  {
  }
}
