/** The Mapillary imagery endpoint: checks its query, finds the coverage
    tile column for the longitude, and picks the image nearest to the
    requested point in that tile. Number parsing of the query strings, the
    tile fetch and its decoding are parameters. */
module MapillaryImagery {
  import opened Basics

  /** Coverage tiles are read at zoom 14. */
  const Zoom: nat := 14
  const TileCount: int := 16384

  lemma TileCountIsTwoToTheZoom()
    ensures TileCount == Pow2(Zoom)
  {
  }

  function Pow2(n: nat): nat {
    if n == 0 then 1 else 2 * Pow2(n - 1)
  }

  /** The endpoint's answer. */
  datatype Response = Image(imageId: string, lat: real, lon: real) | NoImage | Error(status: int)

  /** One image feature of the decoded tile: its coordinates, its squared
      distance to the requested point (computed with a cosine, given here)
      and its `id` property. */
  datatype Feature = Feature(lon: real, lat: real, d2: real, id: Option<string>)

  /** The tile request: it answered not ok, it or the decoding of its body
      threw (caught by the handler), or it decoded to a tile whose `image`
      layer may be missing. */
  datatype TileOutcome = FetchFailed | DecodeFailed | Decoded(layer: Option<seq<Feature>>)

  /** `Number(searchParams.get(name))`: an absent parameter is `Number(null)`,
      which is 0; a present one is parsed by `toNumber` (None for NaN). */
  function QueryNumber(param: Option<string>, toNumber: string -> Option<real>): (n: Option<real>)
    ensures param.None? ==> n == Some(0.0)
    ensures param.Some? ==> n == toNumber(param.value)
  {
    match param
    case None => Some(0.0)
    case Some(s) => toNumber(s)
  }

  /** The `x` column of `lonLatToTile` at zoom 14: longitudes in
      [-180, 180) fall in a column of the tile grid, and a longitude further
      east never lands in a column further west. */
  function TileX(lon: real): (x: int)
    ensures -180.0 <= lon < 180.0 ==> 0 <= x < TileCount
  {
    var v := ((lon + 180.0) / 360.0) * TileCount as real;
    assert -180.0 <= lon < 180.0 ==> 0.0 <= v < TileCount as real;
    v.Floor
  }

  /** A longitude further east never lands in a column further west. */
  lemma TileXMonotone(a: real, b: real)
    requires a <= b
    ensures TileX(a) <= TileX(b)
  {
    assert ((a + 180.0) / 360.0) * TileCount as real <= ((b + 180.0) / 360.0) * TileCount as real;
  }

  /** Nothing wraps the longitude around: 180 lands one column past the grid. */
  lemma TileXAtAntimeridian()
    ensures TileX(180.0) == TileCount
  {
  }

  /** Position `k` holds the nearest feature, and the earliest one among
      equally near features. */
  ghost predicate IsNearest(fs: seq<Feature>, k: int) {
    0 <= k < |fs| &&
    (forall j :: 0 <= j < |fs| ==> fs[k].d2 <= fs[j].d2) &&
    (forall j :: 0 <= j < k ==> fs[j].d2 > fs[k].d2)
  }

  /** At most one position is the nearest in that sense. */
  lemma NearestIsUnique(fs: seq<Feature>, k: int, m: int)
    requires IsNearest(fs, k) && IsNearest(fs, m)
    ensures k == m
  {
    assert fs[k].d2 <= fs[m].d2 && fs[m].d2 <= fs[k].d2;
  }

  /** The `best` loop: only a strictly smaller distance replaces the
      current best. */
  method NearestFeature(fs: seq<Feature>) returns (k: nat)
    requires |fs| > 0
    ensures IsNearest(fs, k)
  {
    k := 0;
    var i := 1;
    while i < |fs|
      invariant 1 <= i <= |fs|
      invariant k < i
      invariant forall j :: 0 <= j < i ==> fs[k].d2 <= fs[j].d2
      invariant forall j :: 0 <= j < k ==> fs[j].d2 > fs[k].d2
    {
      if fs[i].d2 < fs[k].d2 {
        k := i;
      }
      i := i + 1;
    }
  }

  /** The answer built from the chosen feature: no image when it has no id. */
  function AnswerFor(f: Feature): (r: Response)
    ensures r.Image? <==> Truthy(f.id)
    ensures r.Image? ==> r == Image(f.id.value, f.lat, f.lon)
  {
    if Truthy(f.id) then Image(f.id.value, f.lat, f.lon) else NoImage
  }

  /** `GET`: 400 for a non-numeric coordinate, 500 without a token (the
      server token preferred over the public one), 502 when the tile answers
      not ok and 500 when the request or decoding throws; an absent or empty image layer
      finds nothing; otherwise the nearest feature answers. */
  method Get(latParam: Option<string>, lonParam: Option<string>, toNumber: string -> Option<real>,
             serverToken: Option<string>, publicToken: Option<string>,
             fetchTile: (int, real) -> TileOutcome)
    returns (resp: Response)
    ensures var lat, lon := QueryNumber(latParam, toNumber), QueryNumber(lonParam, toNumber);
      (lat.None? || lon.None? ==> resp == Error(400)) &&
      (lat.Some? && lon.Some? && !Truthy(OrElse(serverToken, publicToken)) ==> resp == Error(500)) &&
      (lat.Some? && lon.Some? && Truthy(OrElse(serverToken, publicToken)) ==>
        var t := fetchTile(TileX(lon.value), lat.value);
        (t.FetchFailed? ==> resp == Error(502)) &&
        (t.DecodeFailed? ==> resp == Error(500)) &&
        (t.Decoded? && (t.layer.None? || t.layer.value == []) ==> resp == NoImage) &&
        (t.Decoded? && t.layer.Some? && t.layer.value != [] ==>
          exists k :: IsNearest(t.layer.value, k) && resp == AnswerFor(t.layer.value[k])))
  {
    var lat := QueryNumber(latParam, toNumber);
    var lon := QueryNumber(lonParam, toNumber);
    if lat.None? || lon.None? {
      return Error(400);
    }
    var token := OrElse(serverToken, publicToken);
    if !Truthy(token) {
      return Error(500);
    }
    var x := TileX(lon.value);
    var tile := fetchTile(x, lat.value);
    match tile {
      case FetchFailed =>
        resp := Error(502);
      case DecodeFailed =>
        resp := Error(500);
      case Decoded(layer) =>
        if layer.None? || |layer.value| == 0 {
          resp := NoImage;
        } else {
          var k := NearestFeature(layer.value);
          resp := AnswerFor(layer.value[k]);
        }
    }
  }
}
