# Weather service layer, modelled in Dafny

This project models the service layer of a small weather web application:
the `WeatherApiClient` that talks to the OpenWeatherMap geocoding and
current-weather endpoints, and the `handle_search` helper of the search page
that turns its errors into messages for the user.

What the model covers:

- **Request path and error translation.** `_make_request` sends one request
  through the `handle_exceptions` decorator. The decorator's ordered `except`
  clauses map exceptions of the `requests` library onto the application's
  error taxonomy: Timeout, then ConnectionError, then HTTPError, then
  anything else. The upstream call is an oracle, `Request -> Reply<T>`. It
  answers with the decoded body or with one of the `requests` exceptions.
  The exceptions keep the `requests` class hierarchy, so a ConnectTimeout is
  both a Timeout and a ConnectionError. Each operation reports the requests
  it sent, so "no request" is stated as `sent == []`.
- **Error taxonomy.** WeatherAPIError and its four direct subclasses are
  modelled as `Exceptions.ErrorClass`, with `IsSubclass`. An `except` chain,
  whether in the decorator or in `handle_search`, is
  `Except.FirstMatch`: the first clause whose class catches the exception.
- **Shaping geocoding results.** `_deduplicate_locations` keeps the first
  entry for each (lower-cased name, country) pair. `_check_local_name`
  replaces the display name with the local name in `"ru"`.
- **Enriching weather data.** `get_weather_icon_url` builds the icon URL.
  `format_timezone` uses floor division by 3600. `_enrich_weather_data`
  adds the two derived fields to the payload.
- **Cache policy.** The cache is a map from key to (value, ttl), threaded
  through both public operations. A truthy cached value short-circuits the
  request. A fresh result is stored for 3600 seconds (geocoding) or 900
  seconds (weather). With `use_cache` off, the cache is never read or
  written.
- **`handle_search`.** It runs a search with a caching client and returns a
  pair in which exactly one component is None.

Modules follow the source: `Exceptions` (weather/exceptions.py);
`Transport`, `Locations`, `WeatherData`, `Cache` and `Client`
(weather/services.py); `SearchMixin` (weather/utils.py). `Wrappers`, `Text`,
`Json` and `Except` are shared helpers.

Notes on the source:

- There is no separate class for an internal service error. An unexpected
  failure raises the base WeatherAPIError with the message
  "Internal service error". An HTTP error keeps its status code only inside
  the message text, "API error: <status>".

- The search's `lang` parameter (default `"rus"`) goes only into the request
  and the cache key. Localization always uses `"ru"`, the default of
  `_check_local_name`.
- Deduplication runs before localization. So two entries with different
  provider names but the same Russian name both survive, and after
  localization they show the same name.
- An empty weather payload enriches to None. That None is cached for 900
  seconds, but a cached None reads as a miss, so the next call sends another
  request (`Client.RepeatWeatherHitsCache`).
- The cache key joins its parts with `_`. An underscore inside the name
  therefore lets two different parameter triples share one key
  (`Cache.GeoKeyCollision`). With the limit and language fixed, as the
  search page fixes them, the key does identify the name
  (`Cache.GeoKeyInjectiveInName`).
- Floor division truncates sub-hour offsets. +5:30 shows as `UTC+5`, and
  -3:30 shows as `UTC-4`, not `UTC-3` (`WeatherData.FormatTimezoneExamples`).

## Model

| member | source | states |
|---|---|---|
| Exceptions.IsSubclass | weathersite/weather/exceptions.py:1-20 | a class is a subclass of another exactly when it is that class or the base its class statement names; WeatherAPIError's base, Exception, lies outside the taxonomy, and every other class names WeatherAPIError |
| Exceptions.HierarchyIsFlat | weathersite/weather/exceptions.py:1-20 | every class is a WeatherAPIError, WeatherAPIError is a subclass of no other class of the taxonomy, and two different subclasses are unrelated |
| Except.FirstMatch | weathersite/weather/services.py:18-32 | an `except` chain handles an exception with the first clause that catches it: that clause catches it, no earlier clause does, and there is no handler exactly when no clause catches it |
| Transport.BuildRequest | weathersite/weather/services.py:46-50 | the request goes to the base URL followed by the endpoint, with the given parameters and a timeout of 5 |
| Transport.TranslateFailure | weathersite/weather/services.py:18-32 | a timeout (of any kind) becomes WeatherAPITimeoutError("Service timeout"); any other connection error becomes WeatherAPIConnectionError("Network problem"); an HTTP error becomes WeatherAPIInvalidRequestError("API error: <status>"); every other exception becomes the base WeatherAPIError("Internal service error"); never the no-locations error |
| Transport.MakeRequest | weathersite/weather/services.py:46-52 | a request returns the decoded body when the upstream answers, and otherwise raises the translated error |
| Transport.ConnectTimeoutIsTimeout | weathersite/weather/services.py:20-25 | since Timeout is tested before ConnectionError, a connect timeout, which is both, is reported as a timeout |
| Transport.HttpStatusInMessage | weathersite/weather/services.py:26-29 | the message of an HTTP error starts with "API error: " and the status code can be read back from the rest |
| Locations.Dedup | weathersite/weather/services.py:129-142 | the deduplicated list has the same set of (lower-cased name, country) keys as the input, and is no longer than it |
| Locations.DedupHasUniqueKeys | weathersite/weather/services.py:129-142 | no two entries of the deduplicated list share a key |
| Locations.DedupSourcesSelect | weathersite/weather/services.py:129-142 | the output is the input's entries at a strictly increasing list of positions |
| Locations.DedupSourcesAreFirstOccurrences | weathersite/weather/services.py:129-142 | those positions are exactly the first occurrences of each key in the input |
| Locations.DedupIsSubsequence | weathersite/weather/services.py:129-142 | the output is a subsequence of the input: the input's relative order is kept |
| Locations.DedupOfUnique | weathersite/weather/services.py:129-142 | a list without duplicate keys comes back unchanged |
| Locations.DedupIdempotent | weathersite/weather/services.py:129-142 | deduplicating a deduplicated list changes nothing |
| Locations.DeduplicateLocations | weathersite/weather/services.py:129-142 | the single pass with a set of seen keys computes exactly the deduplicated list |
| Locations.Localize | weathersite/weather/services.py:122-125 | an entry's name changes exactly when it has a local name in the language that differs from its name, and then becomes that local name; no other field changes |
| Locations.CheckLocalName | weathersite/weather/services.py:121-126 | the list keeps its length and order; each entry shows its local name when it has one, and otherwise keeps its name; no other field changes |
| Locations.CheckLocalNameIdempotent | weathersite/weather/services.py:121-126 | localizing an already localized list changes nothing |
| WeatherData.WeatherIconUrl | weathersite/weather/services.py:144-146 | the URL is the fixed prefix, the icon code and the "@2x.png" suffix, and reading it back recovers exactly the code |
| WeatherData.IconUrlRoundTrip | weathersite/weather/services.py:144-146 | the icon code can be recovered from the URL between the fixed prefix and the "@2x.png" suffix |
| WeatherData.WeatherIconUrlExample | weathersite/weather/services.py:144-146 | icon code "04d" gives https://openweathermap.org/img/wn/04d@2x.png |
| WeatherData.FloorHours | weathersite/weather/services.py:150 | the hour count is the floor of seconds/3600: h*3600 <= seconds < (h+1)*3600 |
| WeatherData.FormatTimezone | weathersite/weather/services.py:149-151 | the text starts with "UTC", followed by '+' exactly when the offset is non-negative and by '-' exactly when it is negative, and then by the hour count in plain decimal digits with no leading zero, as `str()` renders it |
| WeatherData.FormatTimezoneRoundTrip | weathersite/weather/services.py:149-151 | reading the formatted text back yields exactly the floored number of hours |
| WeatherData.FormatTimezoneExamples | weathersite/weather/services.py:149-151 | 10800 gives UTC+3, 0 gives UTC+0 and -18000 gives UTC-5; the sub-hour offsets 19800 and -12600 give UTC+5 and UTC-4 |
| WeatherData.EnrichWeatherData | weathersite/weather/services.py:110-119 | an empty payload gives None; a payload without a string icon in its first weather entry, or without an integer timezone, raises; otherwise every other field is kept, icon_url holds the URL of the first entry's icon, and timezone is replaced by the formatted offset, whose hours read back as the floored offset |
| Cache.PrefixesDisjoint | weathersite/weather/services.py:63 | no key starts with both "geo_" and "weather_", so geocoding and weather entries never share a key |
| Cache.GeoKey | weathersite/weather/services.py:63 | the geocoding key is "geo_", then the name, then "_", the limit in decimal, "_" and the language |
| Cache.WeatherKey | weathersite/weather/services.py:91 | the weather key is "weather_", then the latitude, then "_", the longitude, "_", the units, "_" and the language |
| Cache.Truthy | weathersite/weather/services.py:64 | a cached value short-circuits the request exactly when Python reads it as true: never for None, and for a list or dictionary exactly when it is non-empty |
| Cache.GeoKeyInjectiveInName | weathersite/weather/services.py:63 | with the limit and language fixed, different names give different geocoding keys |
| Cache.GeoKeyCollision | weathersite/weather/services.py:63 | over all three parameters the geocoding key is not injective |
| Cache.WeatherKeyExample | weathersite/weather/services.py:91 | coordinates 55.754 and 37.6204 with the default units and language give the key weather_55.754_37.6204_metric_ru |
| Client.GetCachedData | weathersite/weather/services.py:54-55 | with caching off a read yields None; with it on, the stored value, or None for a missing key |
| Client.SetCachedData | weathersite/weather/services.py:57-59 | with caching off the cache is unchanged; with it on, the key maps to the data with the given ttl, or with 3600 when the ttl is None or 0; other keys are untouched |
| Client.ShapeLocations | weathersite/weather/services.py:81-83 | deduplication followed by localization never empties a non-empty answer |
| Client.SearchLocationsByName | weathersite/weather/services.py:61-87 | a truthy cached value is returned with no request; otherwise exactly one request is sent with q, limit, appid and lang; a failure raises the translated error and an empty answer raises WeatherAPINoLocationsError, both leaving the cache as it was; a non-empty answer is deduplicated, localized, cached for 3600 and returned; success is never an empty list; with caching off the cache is unchanged and a request is always sent |
| Client.GetCurrentWeather | weathersite/weather/services.py:89-108 | a truthy cached value is returned with no request; otherwise one request is sent with lat, lon, appid, units and lang; a failure raises the translated error; a payload without the fields enrichment reads raises outside the taxonomy; otherwise the enriched payload, or None for an empty one, is cached for 900 and returned |
| Client.RepeatSearchHitsCache | weathersite/weather/services.py:61-87 | with caching on, repeating a successful search sends no request and returns the same value |
| Client.FreshSearchIsCached | weathersite/weather/services.py:57-59 | after a fresh successful search with caching on, the geocoding key maps to exactly the returned list with the default ttl 3600, since the call passes no ttl |
| Client.RepeatWeatherHitsCache | weathersite/weather/services.py:89-108 | with caching on, after a weather call that sent a request and succeeded, repeating it sends no request exactly when the upstream payload was non-empty, and then returns the same value |
| Client.FreshWeatherIsCached | weathersite/weather/services.py:104-108 | after a fresh successful weather call with caching on, the weather key maps to exactly the returned value with ttl 900 |
| Client.SetKeepsWellTyped | weathersite/weather/services.py:57-59 | storing a location list under a geocoding key, or a non-list under a weather key, keeps every geocoding entry a list and every weather entry a non-list |
| Client.SearchKeepsCacheWellTyped | weathersite/weather/services.py:61-87 | a search keeps the cache well typed, and on a well-typed cache it only ever returns a list of locations |
| Client.WeatherKeepsCacheWellTyped | weathersite/weather/services.py:89-108 | a weather call keeps the cache well typed, and on a well-typed cache it never returns a list of locations |
| SearchMixin.ErrorMessage | weathersite/weather/utils.py:19-26 | the no-locations, timeout and connection errors each get their own message; the invalid-request error and the base error get "Weather service temporary unavailable" |
| SearchMixin.NoSearchClauseShadowed | weathersite/weather/utils.py:19-26 | each `except` clause is reached by an exception of its own class, so no subclass clause is shadowed by the base-class clause |
| SearchMixin.HandleSearch | weathersite/weather/utils.py:15-26 | exactly one component of the pair is None; on success it is (results, None) with non-empty results; on an error it is (None, the message for that error); the cache is the one the search left behind |
| SearchMixin.EmptyAnswerShowsNoLocations | weathersite/weather/utils.py:19-20 | for any query and any cache without a truthy entry under its key, an empty provider answer shows "No locations found" |
| SearchMixin.TimeoutShowsTimeoutMessage | weathersite/weather/utils.py:21-22 | for any query and any cache without a truthy entry under its key, a read timeout shows "Service timeout. Please try again later." |
| SearchMixin.SameKeyScenario | weathersite/weather/services.py:136 | "Moscow" and "MOSCOW" in the same country share a key, and only the first survives |
| SearchMixin.DuplicateSearchScenario | weathersite/weather/services.py:81-83 | a search answered with two such entries returns one entry, showing its Russian local name |

## Left out

- The HTTP call itself (`requests.get`, `raise_for_status`, `response.json`) is an oracle parameter. The URL query encoding and the response body text are not modelled.
- The cache backend: entries never expire, because time is not modelled. Concurrent access is not modelled either.
- Logging calls in services.py and utils.py are left out, because they are side effects only.
- Coordinates are opaque strings: Python's rendering of floats into cache keys and query parameters is not modelled.
- Lower-casing covers ASCII letters only. Python's `str.lower()` also folds Cyrillic and other scripts.
- The geocoding answer is typed as a list of records with string `name` and `country` and an optional string-to-string `local_names`. A provider answer of another shape, which in Python would raise KeyError or TypeError while shaping, is not modelled.
- WeatherData.EnrichWeatherData: accepts only a string icon code and an integer timezone. Any other icon value, which Python would render with `str()`, and a float or boolean timezone, which Python would floor-divide, are treated as a malformed payload.
- The message of the base error and the `from e` cause chain are kept only as the fixed text "Internal service error". The original exception is not kept.
- `get_weather_client` reads the API key from the settings module. Here the key is a parameter of `HandleSearch`.
- settings.py, the users app, views, urls, models, the migration and the test modules contain no service-layer logic and are not part of this model.
