/** The reverse-geocoding endpoint: it checks its query, then either uses
    Upstash (a shared rate limit and cache) when that is configured, or else
    a per-process cache with a ten-minute lifetime. Whether Upstash is
    configured is decided once per process. The environment, the rate
    limiter, the Redis read, Nominatim and the clock are parameters. */
module ReverseGeocode {
  import opened Basics

  /** How long a per-process cache entry lives, in milliseconds. */
  const CacheTtlMs: int := 600000

  /** What `ensureUpstash` consults: the two environment variables, and
      whether loading the client libraries throws. */
  datatype UpstashEnv = UpstashEnv(restUrl: Option<string>, restToken: Option<string>, loadThrows: bool)

  /** A per-process cache entry. */
  datatype CacheEntry = CacheEntry(expires: int, body: string)

  /** Nominatim's answer: not ok, or ok with its body text. */
  datatype FetchResult = NotOk | Fetched(text: string)

  datatype Reply = BadRequest | RateLimited | GeocodingFailed | Json(body: string)

  /** The decision `ensureUpstash` takes the first time it runs. */
  predicate UpstashUsable(env: UpstashEnv) {
    Truthy(env.restUrl) && Truthy(env.restToken) && !env.loadThrows
  }

  /** `revgeo:<lat>:<lon>` from the raw query strings. */
  function CacheKey(lat: string, lon: string): (k: string)
    ensures |k| == |lat| + |lon| + 8 && k[..7] == "revgeo:"
    ensures k[7..7 + |lat|] == lat && k[7 + |lat|] == ':' && k[8 + |lat|..] == lon
  {
    "revgeo:" + lat + ":" + lon
  }

  /** Neither query string contains a colon. */
  predicate NoColon(s: string) {
    forall i :: 0 <= i < |s| ==> s[i] != ':'
  }

  /** Without colons in the query strings the key is faithful to the query:
      different strings, such as two spellings of one coordinate, are
      different keys. */
  lemma SpellingsAreDistinctKeys(lat: string, lon: string, lat': string, lon': string)
    requires NoColon(lat) && NoColon(lat')
    requires lat != lat' || lon != lon'
    ensures CacheKey(lat, lon) != CacheKey(lat', lon')
  {
    var k, k' := CacheKey(lat, lon), CacheKey(lat', lon');
    if |lat| < |lat'| {
      assert k[7 + |lat|] == ':';
      assert k'[7 + |lat|] == lat'[|lat|];
    } else if |lat'| < |lat| {
      assert k'[7 + |lat'|] == ':';
      assert k[7 + |lat'|] == lat[|lat'|];
    } else if lat != lat' {
      assert k[7..7 + |lat|] != k'[7..7 + |lat|];
    } else {
      assert k[8 + |lat|..] != k'[8 + |lat|..];
    }
  }

  /** The key does not determine the query: a colon inside `lat` or `lon`
      makes two different queries share one entry. */
  lemma KeysCanCollide()
    ensures CacheKey("1:2", "3") == CacheKey("1", "2:3")
  {
  }

  /** A per-process entry is served exactly while it has not expired. */
  predicate Fresh(cache: map<string, CacheEntry>, key: string, now: int) {
    key in cache && cache[key].expires > now
  }

  /** The route module's state. */
  class Geocoder {
    /** `upstashConfigured`: `None` until the first decision. */
    var upstashConfigured: Option<bool>
    /** `memCache`. */
    var memCache: map<string, CacheEntry>

    constructor ()
      ensures upstashConfigured.None? && memCache == map[]
    {
      upstashConfigured := None;
      memCache := map[];
    }

    /** `ensureUpstash`: the first call decides and remembers; every later
        call returns the remembered value whatever the environment is. */
    method EnsureUpstash(env: UpstashEnv) returns (configured: bool)
      modifies this`upstashConfigured
      ensures old(upstashConfigured).Some? ==> upstashConfigured == old(upstashConfigured)
      ensures old(upstashConfigured).None? ==> upstashConfigured == Some(UpstashUsable(env))
      ensures upstashConfigured == Some(configured)
    {
      if upstashConfigured.Some? {
        return upstashConfigured.value;
      }
      if Truthy(env.restUrl) && Truthy(env.restToken) {
        if env.loadThrows {
          upstashConfigured := Some(false);
        } else {
          upstashConfigured := Some(true);
        }
      } else {
        upstashConfigured := Some(false);
      }
      configured := upstashConfigured.value;
    }

    /** `GET`. `fetched` says whether Nominatim was asked. A missing or empty
        coordinate is refused before anything else is touched. With Upstash,
        a denied rate limit answers 429 before any cache read, a truthy
        Redis value is served, and otherwise Nominatim answers (502 when not
        ok); the per-process cache is not used. Without Upstash, a fresh
        entry is served without a fetch; otherwise Nominatim answers, and a
        successful answer is stored under its key for ten minutes, leaving
        every other key alone. A failed fetch stores nothing. */
    method Get(lat: Option<string>, lon: Option<string>, ip: Option<string>, env: UpstashEnv,
               allow: string -> bool, redisGet: string -> Option<string>,
               nominatim: (string, string) -> FetchResult, now: int)
      returns (reply: Reply, fetched: bool)
      modifies this
      ensures !Truthy(lat) || !Truthy(lon) ==>
        reply == BadRequest && !fetched &&
        upstashConfigured == old(upstashConfigured) && memCache == old(memCache)
      ensures Truthy(lat) && Truthy(lon) ==>
        var useUpstash := old(upstashConfigured).GetOr(UpstashUsable(env));
        var key := CacheKey(lat.value, lon.value);
        upstashConfigured == Some(useUpstash) &&
        (useUpstash ==>
          memCache == old(memCache) &&
          (!allow("geocode:" + ip.GetOr("anon")) ==> reply == RateLimited && !fetched) &&
          (allow("geocode:" + ip.GetOr("anon")) && Truthy(redisGet(key)) ==>
            reply == Json(redisGet(key).value) && !fetched) &&
          (allow("geocode:" + ip.GetOr("anon")) && !Truthy(redisGet(key)) ==>
            fetched &&
            (nominatim(lat.value, lon.value).NotOk? ==> reply == GeocodingFailed) &&
            (nominatim(lat.value, lon.value).Fetched? ==> reply == Json(nominatim(lat.value, lon.value).text)))) &&
        (!useUpstash ==>
          (Fresh(old(memCache), key, now) ==>
            reply == Json(old(memCache)[key].body) && !fetched && memCache == old(memCache)) &&
          (!Fresh(old(memCache), key, now) ==>
            fetched &&
            (nominatim(lat.value, lon.value).NotOk? ==> reply == GeocodingFailed && memCache == old(memCache)) &&
            (nominatim(lat.value, lon.value).Fetched? ==>
              var text := nominatim(lat.value, lon.value).text;
              reply == Json(text) && memCache == old(memCache)[key := CacheEntry(now + CacheTtlMs, text)])))
    {
      fetched := false;
      if !Truthy(lat) || !Truthy(lon) {
        return BadRequest, false;
      }
      var who := ip.GetOr("anon");
      var useUpstash := EnsureUpstash(env);
      if useUpstash {
        if !allow("geocode:" + who) {
          return RateLimited, false;
        }
        var key := CacheKey(lat.value, lon.value);
        var cached := redisGet(key);
        if Truthy(cached) {
          return Json(cached.value), false;
        }
        var res := nominatim(lat.value, lon.value);
        if res.NotOk? {
          return GeocodingFailed, true;
        }
        return Json(res.text), true;
      }
      var key := CacheKey(lat.value, lon.value);
      if key in memCache && memCache[key].expires > now {
        return Json(memCache[key].body), false;
      }
      var res := nominatim(lat.value, lon.value);
      if res.NotOk? {
        return GeocodingFailed, true;
      }
      memCache := memCache[key := CacheEntry(now + CacheTtlMs, res.text)];
      reply := Json(res.text);
      fetched := true;
    }
  }

  /** Without Upstash, the same query repeated within ten minutes of a
      successful one is answered from the cache with the same body and no
      second fetch; repeated ten minutes or more later, it is fetched again. */
  method RepeatQuery(lat: string, lon: string, env: UpstashEnv, allow: string -> bool,
                     redisGet: string -> Option<string>, nominatim: (string, string) -> FetchResult,
                     now: int, later: int)
    returns (first: Reply, second: Reply, fetchedAgain: bool)
    requires lat != "" && lon != "" && !UpstashUsable(env)
    requires nominatim(lat, lon).Fetched? && now <= later
    ensures first == Json(nominatim(lat, lon).text)
    ensures later < now + CacheTtlMs ==> second == first && !fetchedAgain
    ensures later >= now + CacheTtlMs ==> second == first && fetchedAgain
  {
    var g := new Geocoder();
    var fetched;
    first, fetched := g.Get(Some(lat), Some(lon), None, env, allow, redisGet, nominatim, now);
    second, fetchedAgain := g.Get(Some(lat), Some(lon), None, env, allow, redisGet, nominatim, later);
  }

  /** The configuration is decided by the first valid request: a process
      that started without Upstash keeps the per-process cache even after
      the environment gains both variables. */
  method DecisionIsRemembered(lat: string, lon: string, before: UpstashEnv, after: UpstashEnv,
                              allow: string -> bool, redisGet: string -> Option<string>,
                              nominatim: (string, string) -> FetchResult, now: int)
    returns (configured: bool)
    requires lat != "" && lon != "" && !UpstashUsable(before)
    ensures !configured
  {
    var g := new Geocoder();
    var reply, fetched := g.Get(Some(lat), Some(lon), None, before, allow, redisGet, nominatim, now);
    configured := g.EnsureUpstash(after);
  }
}
