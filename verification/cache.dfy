/** The cache as the client sees it: a map from key to (value, ttl). Time
    does not pass in the model, so entries never expire. */
module Cache {
  import opened Text
  import opened Json
  import opened Locations

  /** Values the client stores: Python's None, a list of locations, or a
      weather dictionary. */
  datatype CacheValue =
    | NoValue
    | LocationList(locations: seq<Location>)
    | Weather(payload: map<string, Json>)

  /** Python truthiness of a cached value, as `if cached := ...` tests it. */
  predicate Truthy(v: CacheValue)
    ensures Truthy(v) ==> !v.NoValue?
    ensures v.LocationList? ==> (Truthy(v) <==> v.locations != [])
    ensures v.Weather? ==> (Truthy(v) <==> v.payload != map[])
  {
    match v
    case NoValue => false
    case LocationList(l) => |l| > 0
    case Weather(p) => |p| > 0
  }

  datatype CacheEntry = CacheEntry(value: CacheValue, ttl: int)

  type Store = map<string, CacheEntry>

  const DefaultCacheTtl: int := 60 * 60
  const WeatherCacheTtl: int := 15 * 60

  const GeoPrefix: string := "geo_"
  const WeatherPrefix: string := "weather_"

  /** `f"geo_{location_name}_{limit}_{lang}"`. */
  function GeoKey(name: string, limit: int, lang: string): (k: string)
    ensures GeoPrefix <= k
    ensures |k| > |GeoPrefix| + |name| && k[|GeoPrefix|..|GeoPrefix| + |name|] == name
    ensures k[|GeoPrefix| + |name|..] == "_" + IntToString(limit) + "_" + lang
  {
    GeoPrefix + name + GeoKeySuffix(limit, lang)
  }

  function GeoKeySuffix(limit: int, lang: string): string {
    "_" + IntToString(limit) + "_" + lang
  }

  /** `f"weather_{lat}_{lon}_{units}_{lang}"`, with the coordinates already
      rendered as text. */
  function WeatherKey(lat: string, lon: string, units: string, lang: string): (k: string)
    ensures WeatherPrefix <= k
    ensures |k| > |WeatherPrefix| + |lat| && k[|WeatherPrefix|..|WeatherPrefix| + |lat|] == lat
    ensures k[|WeatherPrefix| + |lat|..] == "_" + lon + "_" + units + "_" + lang
  {
    WeatherPrefix + lat + "_" + lon + "_" + units + "_" + lang
  }

  /** No key is both a geocoding key and a weather key. */
  lemma PrefixesDisjoint(k: string)
    ensures !(GeoPrefix <= k && WeatherPrefix <= k)
  {
    if GeoPrefix <= k {
      assert k[0] == 'g';
    }
  }

  /** With the limit and language fixed (as the search page fixes them),
      different names give different geocoding keys. */
  lemma GeoKeyInjectiveInName(a: string, b: string, limit: int, lang: string)
    requires GeoKey(a, limit, lang) == GeoKey(b, limit, lang)
    ensures a == b
  {
  }

  /** Over all three parameters the key is not injective: an underscore in
      the name can stand in for the separator. */
  lemma GeoKeyCollision()
    ensures GeoKey("a_1", 2, "rus") == GeoKey("a", 1, "2_rus")
  {
  }

  /** The key the weather cache test reads. */
  lemma WeatherKeyExample()
    ensures WeatherKey("55.754", "37.6204", "metric", "ru") == "weather_55.754_37.6204_metric_ru"
  {
  }

  /** Entries under geocoding keys hold location lists and entries under
      weather keys never do: the shape the client itself writes. */
  ghost predicate WellTyped(store: Store) {
    forall k :: k in store ==>
      && (GeoPrefix <= k ==> store[k].value.LocationList?)
      && (WeatherPrefix <= k ==> !store[k].value.LocationList?)
  }
}
