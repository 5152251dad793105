/** WeatherSearchMixin.handle_search: runs a search with a caching client
    and turns each error of the taxonomy into a (result, message) pair. */
module SearchMixin {
  import opened Wrappers
  import opened Text
  import opened Except
  import opened Exceptions
  import opened Transport
  import opened Locations
  import opened Cache
  import opened Client

  const NoLocationsMessage: string := "No locations found"
  const TimeoutMessage: string := "Service timeout. Please try again later."
  const ConnectionMessage: string := "Network problem. Check your internet connection."
  const UnavailableMessage: string := "Weather service temporary unavailable"

  /** The `except` clauses of handle_search, in source order. */
  const SearchClauses: seq<ErrorClass> :=
    [WeatherApiNoLocationsError, WeatherApiTimeoutError, WeatherApiConnectionError, WeatherApiError]

  const SearchMessages: seq<string> :=
    [NoLocationsMessage, TimeoutMessage, ConnectionMessage, UnavailableMessage]

  /** The message of the first `except` clause that catches `e`. */
  function ErrorMessage(e: ApiException): (m: string)
    ensures m == NoLocationsMessage <==> e.cls == WeatherApiNoLocationsError
    ensures m == TimeoutMessage <==> e.cls == WeatherApiTimeoutError
    ensures m == ConnectionMessage <==> e.cls == WeatherApiConnectionError
    ensures m == UnavailableMessage <==>
              e.cls == WeatherApiInvalidRequestError || e.cls == WeatherApiError
  {
    match FirstMatch(SearchClauses, cls => IsInstance(e, cls))
    case Some(i) => SearchMessages[i]
    case None => UnavailableMessage
  }

  /** Every clause is reached by its own class: no subclass clause sits
      behind the base-class clause. */
  lemma NoSearchClauseShadowed(message: string)
    ensures forall i :: 0 <= i < |SearchClauses| ==>
              FirstMatch(SearchClauses, cls => IsInstance(ApiException(SearchClauses[i], message), cls)) == Some(i)
  {
    forall i | 0 <= i < |SearchClauses|
      ensures FirstMatch(SearchClauses, cls => IsInstance(ApiException(SearchClauses[i], message), cls)) == Some(i)
    {
      var e := ApiException(SearchClauses[i], message);
      var r := FirstMatch(SearchClauses, cls => IsInstance(e, cls));
      assert IsInstance(e, SearchClauses[i]);
      assert forall j :: 0 <= j < i ==> !IsInstance(e, SearchClauses[j]);
    }
  }

  /** The pair handle_search returns: the locations, or the error text. */
  datatype SearchView = SearchView(locations: Option<CacheValue>, error: Option<string>)

  /** `handle_search(query)`: a client with caching on, and the default
      limit (6) and language ("rus"). Returns the pair and the cache after
      the search. */
  function HandleSearch(apiKey: string, store: Store,
                        upstream: Request -> Reply<seq<Location>>, query: string): (r: (SearchView, Store))
    ensures r.0.locations.None? <==> r.0.error.Some?
    ensures r.0.locations.Some? ==> Truthy(r.0.locations.value)
    ensures r.0.error.Some? ==> r.0.error.value in SearchMessages
    ensures var c := SearchLocationsByName(WeatherApiClient(apiKey, true), store, upstream, query, 6, "rus");
            && (c.outcome.Success? ==> r.0 == SearchView(Some(c.outcome.value), None))
            && (c.outcome.Failure? ==> r.0.error == Some(ErrorMessage(c.outcome.error)))
            && r.1 == c.store
  {
    var client := WeatherApiClient(apiKey, true);
    var c := SearchLocationsByName(client, store, upstream, query, 6, "rus");
    match c.outcome
    case Success(v) => (SearchView(Some(v), None), c.store)
    case Failure(e) => (SearchView(None, Some(ErrorMessage(e))), c.store)
  }

  /** A search the provider answers with an empty list shows "No locations
      found", whenever the cache holds no truthy entry for the query. */
  lemma EmptyAnswerShowsNoLocations(apiKey: string, store: Store, query: string)
    requires GeoKey(query, 6, "rus") !in store || !Truthy(store[GeoKey(query, 6, "rus")].value)
    ensures var up := (req: Request) => Answered([]);
            HandleSearch(apiKey, store, up, query).0 == SearchView(None, Some(NoLocationsMessage))
  {
  }

  /** A timeout of the request shows the timeout text, whenever the cache
      holds no truthy entry for the query. */
  lemma TimeoutShowsTimeoutMessage(apiKey: string, store: Store, query: string)
    requires GeoKey(query, 6, "rus") !in store || !Truthy(store[GeoKey(query, 6, "rus")].value)
    ensures var up := (req: Request) => Failed(ReadTimeout);
            HandleSearch(apiKey, store, up, query).0 == SearchView(None, Some(TimeoutMessage))
  {
  }

  /** Two provider entries that differ only in the case of their name
      collapse to the first, which then shows its Russian name. */
  lemma DuplicateSearchScenario(apiKey: string)
    ensures var a := Location("Moscow", "RU", Some(map["ru" := "Москва"]), map[]);
            var b := Location("MOSCOW", "RU", None, map[]);
            var up := (req: Request) => Answered([a, b]);
            HandleSearch(apiKey, map[], up, "Moscow").0
              == SearchView(Some(LocationList([a.(name := "Москва")])), None)
  {
    var a := Location("Moscow", "RU", Some(map["ru" := "Москва"]), map[]);
    var b := Location("MOSCOW", "RU", None, map[]);
    var up := (req: Request) => Answered([a, b]);
    SameKeyScenario();
    var shaped := ShapeLocations([a, b]);
    assert shaped == [a.(name := "Москва")] by {
      assert Dedup([a, b]) == [a];
      assert Localize(a, LocalNameLang) == a.(name := "Москва");
    }
    var client := WeatherApiClient(apiKey, true);
    var c := SearchLocationsByName(client, map[], up, "Moscow", 6, "rus");
    assert c.outcome == Success(LocationList(shaped));
  }

  /** The two entries of the scenario share their duplicate key. */
  lemma SameKeyScenario()
    ensures var a := Location("Moscow", "RU", Some(map["ru" := "Москва"]), map[]);
            var b := Location("MOSCOW", "RU", None, map[]);
            Dedup([a, b]) == [a]
  {
    var a := Location("Moscow", "RU", Some(map["ru" := "Москва"]), map[]);
    var b := Location("MOSCOW", "RU", None, map[]);
    assert Lower("Moscow") == "moscow" by {
      assert forall i :: 0 <= i < 6 ==> Lower("Moscow")[i] == "moscow"[i];
    }
    assert Lower("MOSCOW") == "moscow" by {
      assert forall i :: 0 <= i < 6 ==> Lower("MOSCOW")[i] == "moscow"[i];
    }
    assert KeyOf(a) == KeyOf(b);
    assert [a][..0] == [];
    DedupUnfold([a]);
    assert Dedup([a]) == [a];
    assert KeyOf(a) in KeySet([a]);
    assert [a, b][..1] == [a];
    DedupUnfold([a, b]);
  }
}
