/** WeatherApiClient: the two public operations with their cache policy.
    The cache store is threaded through explicitly and the upstream
    endpoint is an oracle; each call reports the requests it sent. */
module Client {
  import opened Wrappers
  import opened Text
  import opened Json
  import opened Exceptions
  import opened Transport
  import opened Locations
  import opened WeatherData
  import opened Cache

  datatype WeatherApiClient = WeatherApiClient(apiKey: string, useCache: bool)

  /** What one call of an operation did: its outcome, the cache after it,
      and the upstream requests it sent. */
  datatype Call<+E> = Call(outcome: Result<CacheValue, E>, store: Store, sent: seq<Request>)

  /** Exceptions get_current_weather lets through: one of the taxonomy, or
      the KeyError/IndexError/TypeError of enriching a malformed payload,
      which is not part of the taxonomy. */
  datatype WeatherFailure = ApiFailure(error: ApiException) | PayloadError

  const GeoEndpoint: string := "geo/1.0/direct"
  const WeatherEndpoint: string := "data/2.5/weather"

  /** `_get_cached_data(cache_key)`. */
  function GetCachedData(client: WeatherApiClient, store: Store, key: string): (v: CacheValue)
    ensures !client.useCache ==> v == NoValue
    ensures client.useCache && key in store ==> v == store[key].value
    ensures key !in store ==> v == NoValue
  {
    if client.useCache && key in store then store[key].value else NoValue
  }

  /** `_set_cached_data(cache_key, data, ttl)`: `ttl or DEFAULT_CACHE_TTL`
      falls back to the default when the ttl is None or 0. */
  function SetCachedData(client: WeatherApiClient, store: Store, key: string,
                         data: CacheValue, ttl: Option<int>): (s: Store)
    ensures !client.useCache ==> s == store
    ensures client.useCache ==> key in s && s[key].value == data
    ensures client.useCache && ttl.Some? && ttl.value != 0 ==> s[key].ttl == ttl.value
    ensures client.useCache && (ttl.None? || ttl.value == 0) ==> s[key].ttl == 3600
    ensures forall k :: k != key ==> (k in s <==> k in store)
    ensures forall k :: k != key && k in store ==> s[k] == store[k]
  {
    if client.useCache then
      var t := if ttl.Some? && ttl.value != 0 then ttl.value else DefaultCacheTtl;
      store[key := CacheEntry(data, t)]
    else store
  }

  function GeoRequest(client: WeatherApiClient, name: string, limit: int, lang: string): Request {
    BuildRequest(GeoEndpoint,
      map["q" := name, "limit" := IntToString(limit), "appid" := client.apiKey, "lang" := lang])
  }

  function WeatherRequest(client: WeatherApiClient, lat: string, lon: string,
                          units: string, lang: string): Request {
    BuildRequest(WeatherEndpoint,
      map["lat" := lat, "lon" := lon, "appid" := client.apiKey, "units" := units, "lang" := lang])
  }

  /** The shaping a fresh, non-empty geocoding answer goes through. */
  function ShapeLocations(data: seq<Location>): (r: seq<Location>)
    ensures |r| <= |data|
    ensures |data| > 0 ==> |r| > 0
  {
    var unique := Dedup(data);
    assert |data| > 0 ==> KeyOf(data[0]) in KeySet(unique);
    CheckLocalName(unique, LocalNameLang)
  }

  /** `search_locations_by_name(location_name, limit, lang)`; the Python
      defaults are limit 6 and lang "rus". */
  function SearchLocationsByName(client: WeatherApiClient, store: Store,
                                 upstream: Request -> Reply<seq<Location>>,
                                 name: string, limit: int, lang: string): (c: Call<ApiException>)
    // a truthy cached value is returned as is, without a request
    ensures Truthy(GetCachedData(client, store, GeoKey(name, limit, lang))) ==>
              c == Call(Success(store[GeoKey(name, limit, lang)].value), store, [])
    // otherwise exactly one request is sent, with these parameters
    ensures !Truthy(GetCachedData(client, store, GeoKey(name, limit, lang))) ==>
              c.sent == [GeoRequest(client, name, limit, lang)]
    // the operation never succeeds with an empty value
    ensures c.outcome.Success? ==> Truthy(c.outcome.value)
    // a failed request or an empty answer raises and leaves the cache alone
    ensures c.outcome.Failure? ==> c.store == store
    ensures c.sent != [] && upstream(c.sent[0]).Failed? ==>
              c.outcome == Failure(TranslateFailure(upstream(c.sent[0]).failure))
    ensures c.sent != [] && upstream(c.sent[0]) == Answered([]) ==>
              c.outcome == Failure(ApiException(WeatherApiNoLocationsError, "No locations found"))
    // a fresh non-empty answer is shaped and cached for the default TTL
    ensures c.sent != [] && upstream(c.sent[0]).Answered? && |upstream(c.sent[0]).payload| > 0 ==>
              && c.outcome == Success(LocationList(ShapeLocations(upstream(c.sent[0]).payload)))
              && c.store == SetCachedData(client, store, GeoKey(name, limit, lang), c.outcome.value, None)
    ensures !client.useCache ==> c.store == store && |c.sent| == 1
  {
    var key := GeoKey(name, limit, lang);
    var cached := GetCachedData(client, store, key);
    if Truthy(cached) then Call(Success(cached), store, [])
    else
      var req := GeoRequest(client, name, limit, lang);
      match MakeRequest(upstream(req))
      case Failure(e) => Call(Failure(e), store, [req])
      case Success(data) =>
        if |data| == 0 then
          Call(Failure(ApiException(WeatherApiNoLocationsError, "No locations found")), store, [req])
        else
          var shaped := LocationList(ShapeLocations(data));
          Call(Success(shaped), SetCachedData(client, store, key, shaped, None), [req])
  }

  /** `get_current_weather(lat, lon, units, lang)`; the Python defaults are
      units "metric" and lang "ru". */
  function GetCurrentWeather(client: WeatherApiClient, store: Store,
                             upstream: Request -> Reply<map<string, Json>>,
                             lat: string, lon: string, units: string, lang: string): (c: Call<WeatherFailure>)
    ensures Truthy(GetCachedData(client, store, WeatherKey(lat, lon, units, lang))) ==>
              c == Call(Success(store[WeatherKey(lat, lon, units, lang)].value), store, [])
    ensures !Truthy(GetCachedData(client, store, WeatherKey(lat, lon, units, lang))) ==>
              c.sent == [WeatherRequest(client, lat, lon, units, lang)]
    ensures c.outcome.Failure? ==> c.store == store
    ensures c.sent != [] && upstream(c.sent[0]).Failed? ==>
              c.outcome == Failure(ApiFailure(TranslateFailure(upstream(c.sent[0]).failure)))
    ensures c.sent != [] && upstream(c.sent[0]).Answered? ==>
              match EnrichWeatherData(upstream(c.sent[0]).payload)
              case Malformed => c.outcome == Failure(PayloadError)
              case NoData =>
                && c.outcome == Success(NoValue)
                && c.store == SetCachedData(client, store, WeatherKey(lat, lon, units, lang), NoValue, Some(900))
              case Enriched(p) =>
                && c.outcome == Success(Weather(p))
                && c.store == SetCachedData(client, store, WeatherKey(lat, lon, units, lang), Weather(p), Some(900))
    ensures !client.useCache ==> c.store == store && |c.sent| == 1
  {
    var key := WeatherKey(lat, lon, units, lang);
    var cached := GetCachedData(client, store, key);
    if Truthy(cached) then Call(Success(cached), store, [])
    else
      var req := WeatherRequest(client, lat, lon, units, lang);
      match MakeRequest(upstream(req))
      case Failure(e) => Call(Failure(ApiFailure(e)), store, [req])
      case Success(data) =>
        match EnrichWeatherData(data)
        case Malformed => Call(Failure(PayloadError), store, [req])
        case NoData => Call(Success(NoValue), SetCachedData(client, store, key, NoValue, Some(WeatherCacheTtl)), [req])
        case Enriched(p) =>
          Call(Success(Weather(p)), SetCachedData(client, store, key, Weather(p), Some(WeatherCacheTtl)), [req])
  }

  /** Repeating a search that just succeeded upstream, with caching on,
      answers from the cache: no request, the same value. */
  lemma RepeatSearchHitsCache(client: WeatherApiClient, store: Store,
                              upstream: Request -> Reply<seq<Location>>,
                              name: string, limit: int, lang: string)
    requires client.useCache
    requires SearchLocationsByName(client, store, upstream, name, limit, lang).outcome.Success?
    ensures var first := SearchLocationsByName(client, store, upstream, name, limit, lang);
            var second := SearchLocationsByName(client, first.store, upstream, name, limit, lang);
            second.sent == [] && second.outcome == first.outcome && second.store == first.store
  {
  }

  /** After a fresh successful search with caching on, the geocoding key
      holds exactly the returned list, for the default 3600 seconds: the
      call passes no ttl, and `ttl or DEFAULT_CACHE_TTL` falls back. */
  lemma FreshSearchIsCached(client: WeatherApiClient, store: Store,
                            upstream: Request -> Reply<seq<Location>>,
                            name: string, limit: int, lang: string)
    requires client.useCache
    ensures var c := SearchLocationsByName(client, store, upstream, name, limit, lang);
            var key := GeoKey(name, limit, lang);
            c.sent != [] && c.outcome.Success? ==>
              key in c.store && c.store[key] == CacheEntry(c.outcome.value, 3600)
  {
  }

  /** Repeating a weather call that just succeeded upstream answers from
      the cache exactly when the payload was not empty: the None that an
      empty payload enriches to is cached but reads as a miss. */
  lemma RepeatWeatherHitsCache(client: WeatherApiClient, store: Store,
                               upstream: Request -> Reply<map<string, Json>>,
                               lat: string, lon: string, units: string, lang: string)
    requires client.useCache
    ensures var first := GetCurrentWeather(client, store, upstream, lat, lon, units, lang);
            var second := GetCurrentWeather(client, first.store, upstream, lat, lon, units, lang);
            first.sent != [] && first.outcome.Success? ==>
              && (second.sent == [] <==> |upstream(first.sent[0]).payload| > 0)
              && (second.sent == [] ==> second.outcome == first.outcome)
  {
  }

  /** The weather cache test: after a fresh successful call the cache holds
      exactly the returned value under the weather key, for 900 seconds. */
  lemma FreshWeatherIsCached(client: WeatherApiClient, store: Store,
                             upstream: Request -> Reply<map<string, Json>>,
                             lat: string, lon: string, units: string, lang: string)
    requires client.useCache
    ensures var c := GetCurrentWeather(client, store, upstream, lat, lon, units, lang);
            var key := WeatherKey(lat, lon, units, lang);
            c.sent != [] && c.outcome.Success? ==>
              key in c.store && c.store[key] == CacheEntry(c.outcome.value, 900)
  {
  }

  /** Storing a value of the right shape under a key keeps the cache well typed. */
  lemma SetKeepsWellTyped(client: WeatherApiClient, store: Store, key: string,
                          data: CacheValue, ttl: Option<int>)
    requires WellTyped(store)
    requires GeoPrefix <= key ==> data.LocationList?
    requires WeatherPrefix <= key ==> !data.LocationList?
    ensures WellTyped(SetCachedData(client, store, key, data, ttl))
  {
  }

  /** A search keeps the cache well typed, and under a well typed cache it
      only ever returns a list of locations. */
  lemma SearchKeepsCacheWellTyped(client: WeatherApiClient, store: Store,
                                  upstream: Request -> Reply<seq<Location>>,
                                  name: string, limit: int, lang: string)
    requires WellTyped(store)
    ensures var c := SearchLocationsByName(client, store, upstream, name, limit, lang);
            WellTyped(c.store) && (c.outcome.Success? ==> c.outcome.value.LocationList?)
  {
    var key := GeoKey(name, limit, lang);
    var c := SearchLocationsByName(client, store, upstream, name, limit, lang);
    PrefixesDisjoint(key);
    if c.outcome.Success? && c.sent != [] {
      SetKeepsWellTyped(client, store, key, c.outcome.value, None);
    }
  }

  /** A weather call keeps the cache well typed, and under a well typed
      cache it never returns a list of locations. */
  lemma WeatherKeepsCacheWellTyped(client: WeatherApiClient, store: Store,
                                   upstream: Request -> Reply<map<string, Json>>,
                                   lat: string, lon: string, units: string, lang: string)
    requires WellTyped(store)
    ensures var c := GetCurrentWeather(client, store, upstream, lat, lon, units, lang);
            WellTyped(c.store) && (c.outcome.Success? ==> !c.outcome.value.LocationList?)
  {
    var key := WeatherKey(lat, lon, units, lang);
    var c := GetCurrentWeather(client, store, upstream, lat, lon, units, lang);
    PrefixesDisjoint(key);
    if c.outcome.Success? && c.sent != [] {
      SetKeepsWellTyped(client, store, key, c.outcome.value, Some(WeatherCacheTtl));
    }
  }
}
