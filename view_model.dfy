/** WeatherAppViewModel.swift: the view model's state and the synchronous
    steps it takes when a fetch starts and when a request completes. */
module ViewModel {
  import opened Wrappers
  import opened CommonModel
  import opened WeatherAppModel

  /** The Foundation calls the view model relies on, taken as given functions:
      `addingPercentEncoding(withAllowedCharacters: .urlQueryAllowed)`,
      `removingPercentEncoding` and the `localizedDescription` Foundation gives
      a `URLError` of each code. */
  datatype Foundation = Foundation(
    addingPercentEncoding: string -> Option<string>,
    removingPercentEncoding: string -> Option<string>,
    urlErrorDescription: URLErrorCode -> string)

  /** The response half of what a data task delivers. */
  datatype URLResponse = HTTPURLResponse(statusCode: int) | NonHTTPResponse

  /** A value kept in UserDefaults; `as? [String]` succeeds only on the first kind. */
  datatype StoredValue = StringArray(items: seq<string>) | OtherValue

  const HistoryKey := "SearchHistory"
  const NoDescription := "No description"

  /** `URLError(code)`, carrying the description Foundation gives that code. */
  function MakeURLError(foundation: Foundation, code: URLErrorCode): (r: RawError)
    ensures r.URLError? && r.code == code
    ensures LocalizedDescription(r) == foundation.urlErrorDescription(code)
  {
    URLError(code, foundation.urlErrorDescription(code))
  }

  /** The `tryMap` stage of both requests: only an HTTP 200 lets the data through. */
  function CheckResponse(foundation: Foundation, response: URLResponse, data: seq<bv8>): (r: Result<seq<bv8>, RawError>)
    ensures r.Success? <==> response == HTTPURLResponse(200)
    ensures r.Success? ==> r.value == data
    ensures r.Failure? ==> r.error.APIError?
    ensures response.NonHTTPResponse? ==>
              r == Failure(APIError(UnknownError(MakeURLError(foundation, BadServerResponse))))
    ensures response.HTTPURLResponse? && response.statusCode != 200 ==>
              r == Failure(APIError(ServerError(response.statusCode)))
  {
    match response
    case NonHTTPResponse =>
      Failure(APIError(UnknownError(MakeURLError(foundation, BadServerResponse))))
    case HTTPURLResponse(code) =>
      if code == 200 then Success(data) else Failure(APIError(ServerError(code)))
  }

  /** `mapError`: transport errors, decoding errors, own errors, anything else. */
  function MapError(error: RawError): (r: WeatherAPIError)
    ensures error.URLError? <==> r.NetworkError? && !error.APIError?
    ensures error.DecodingError? <==> r.DecodingError? && !error.APIError?
    ensures error.APIError? ==> r == error.apiError
    ensures error.Other? ==> r == UnknownError(error)
    ensures r.UnknownError? ==> error.Other? || error.APIError?
  {
    match error
    case URLError(_, _) => NetworkError
    case DecodingError(_) => WeatherAPIError.DecodingError
    case APIError(apiError) => apiError
    case Other(_) => UnknownError(error)
  }

  /** Classifying an already classified error changes nothing. This is the
      `APIError` clause of `MapError`'s contract applied to its own result,
      stated on its own because handlers may see a mapped error again. */
  lemma MapErrorIdempotent(error: RawError)
    ensures MapError(APIError(MapError(error))) == MapError(error)
  {
  }

  /** The alert text a failed completion leads to: `handleError(mapError(error))`. */
  function AlertFor(error: RawError): (r: Option<string>)
    ensures r.Some?
    ensures error.APIError? ==> r == ErrorDescription(error.apiError)
    ensures error.URLError? ==> r == Some(NetworkMessage)
    ensures error.DecodingError? ==> r == Some(DecodingMessage)
    ensures error.Other? ==> r == Some(UnknownPrefix + error.description)
  {
    ErrorDescription(MapError(error))
  }

  /** A non-200 status reaches the user as "Server returned error S.", and S
      can be read back from it. */
  lemma NonOkStatusAlert(foundation: Foundation, code: int, data: seq<bv8>)
    requires code != 200
    ensures var r := CheckResponse(foundation, HTTPURLResponse(code), data);
            r.Failure? && MapError(r.error) == ServerError(code) &&
            AlertFor(r.error) == Some(ServerPrefix + Decimal.Description(code) + ".")
    ensures var m := AlertFor(CheckResponse(foundation, HTTPURLResponse(code), data).error).value;
            Decimal.Parse(m[|ServerPrefix|..|m| - 1]) == Some(code)
  {
    ServerMessageCarriesCode(code);
  }

  /** The query string a weather request sends: percent-encoded when possible. */
  function WeatherQuery(foundation: Foundation, city: string): (q: string)
    ensures foundation.addingPercentEncoding(city).Some? ==> Some(q) == foundation.addingPercentEncoding(city)
    ensures foundation.addingPercentEncoding(city).None? ==> q == city
  {
    foundation.addingPercentEncoding(city).GetOr(city)
  }

  /** The name `updateSearchHistory` records for a query. */
  function HistoryEntry(foundation: Foundation, cityQuery: string): (name: string)
    ensures foundation.removingPercentEncoding(cityQuery).Some? ==> Some(name) == foundation.removingPercentEncoding(cityQuery)
    ensures foundation.removingPercentEncoding(cityQuery).None? ==> name == cityQuery
  {
    foundation.removingPercentEncoding(cityQuery).GetOr(cityQuery)
  }

  /** Foundation's decoding undoes its encoding. */
  ghost predicate PercentCodingRoundTrips(foundation: Foundation)
  {
    forall s :: foundation.addingPercentEncoding(s).Some? ==>
      foundation.removingPercentEncoding(foundation.addingPercentEncoding(s).value) == Some(s)
  }

  /** When encoding succeeds and decoding inverts it, history records exactly
      the text the user searched for (not the encoded query, not the name the
      provider returns). */
  lemma HistoryRecordsSearchedCity(foundation: Foundation, city: string)
    requires PercentCodingRoundTrips(foundation)
    requires foundation.addingPercentEncoding(city).Some?
    ensures HistoryEntry(foundation, WeatherQuery(foundation, city)) == city
  {
  }

  /** Under the same assumptions, a weather fetch (which refuses an empty city)
      never adds `""` to the history. */
  lemma HistoryEntryNonEmpty(foundation: Foundation, city: string)
    requires PercentCodingRoundTrips(foundation)
    requires foundation.addingPercentEncoding(city).Some?
    requires city != ""
    ensures HistoryEntry(foundation, WeatherQuery(foundation, city)) != ""
  {
    HistoryRecordsSearchedCity(foundation, city);
  }

  /** `a` lists the elements of `s`, each once: what `Array(searchHistory)` gives. */
  predicate Enumerates(a: seq<string>, s: set<string>)
  {
    (forall i, j :: 0 <= i < j < |a| ==> a[i] != a[j]) &&
    (forall x :: x in a ==> x in s) &&
    (forall x :: x in s ==> x in a)
  }

  function SetOf(a: seq<string>): set<string>
  {
    set x | x in a
  }

  /** An enumeration has exactly as many entries as the set. */
  lemma {:induction false} EnumerationSize(a: seq<string>, s: set<string>)
    requires Enumerates(a, s)
    ensures |a| == |s|
  {
    if a != [] {
      var rest := s - {a[0]};
      forall x ensures x in a[1..] <==> x in rest {
        if x in a[1..] {
          var k :| 1 <= k < |a| && a[k] == x;
          assert a[0] != a[k];
        }
      }
      assert Enumerates(a[1..], rest);
      EnumerationSize(a[1..], rest);
    }
  }

  /** `Array(set)`: some order of the set's elements, without duplicates. */
  method ArrayOf(s: set<string>) returns (a: seq<string>)
    ensures Enumerates(a, s)
  {
    a := [];
    var rest := s;
    while rest != {}
      invariant rest <= s
      invariant forall x :: x in a ==> x in s && x !in rest
      invariant forall x :: x in s && x !in rest ==> x in a
      invariant forall i, j :: 0 <= i < j < |a| ==> a[i] != a[j]
      decreases rest
    {
      var x :| x in rest;
      assert x !in a;
      a := a + [x];
      rest := rest - {x};
    }
  }

  /** What `loadSearchHistory` makes of the history: the saved strings when the
      key holds a string array, otherwise the history as it was. */
  function Restored(defaults: map<string, StoredValue>, current: set<string>): (h: set<string>)
    ensures HistoryKey in defaults && defaults[HistoryKey].StringArray? ==>
              forall x :: x in h <==> x in defaults[HistoryKey].items
    ensures !(HistoryKey in defaults && defaults[HistoryKey].StringArray?) ==> h == current
  {
    if HistoryKey in defaults && defaults[HistoryKey].StringArray? then SetOf(defaults[HistoryKey].items)
    else current
  }

  /** Loading what was saved gives back the set that was saved, whatever the
      order of the saved array and whatever the history held meanwhile. */
  lemma LoadAfterSave(before: map<string, StoredValue>, a: seq<string>, s: set<string>, meanwhile: set<string>)
    requires Enumerates(a, s)
    ensures Restored(before[HistoryKey := StringArray(a)], meanwhile) == s
  {
  }

  /** With nothing saved under the key, loading keeps the history. */
  lemma LoadWithoutEntry(defaults: map<string, StoredValue>, current: set<string>)
    requires HistoryKey !in defaults
    ensures Restored(defaults, current) == current
  {
  }

  class WeatherAppViewModel {
    const foundation: Foundation
    var suggestions: seq<CitySuggestion>
    var alertMessage: Option<string>
    var showAlert: bool
    var isLoading: bool
    var cityName: string
    var temperature: Double
    var weatherDescription: string
    var iconString: Option<string>
    var searchHistory: set<string>
    /** `UserDefaults.standard`, which outlives the view model. */
    var defaults: map<string, StoredValue>

    /** The store holds, under the history key, an array that lists the
        history exactly, and nothing else in the store changed since `before`. */
    ghost predicate SavedOver(before: map<string, StoredValue>)
      reads this
    {
      HistoryKey in defaults && defaults[HistoryKey].StringArray? &&
      Enumerates(defaults[HistoryKey].items, searchHistory) &&
      defaults == before[HistoryKey := defaults[HistoryKey]]
    }

    constructor (foundation: Foundation, defaults: map<string, StoredValue>)
      ensures this.foundation == foundation && this.defaults == defaults
      ensures suggestions == [] && alertMessage == None && !showAlert && !isLoading
      ensures cityName == "" && temperature == Zero && weatherDescription == "" && iconString == None
      ensures searchHistory == {}
    {
      this.foundation := foundation;
      this.defaults := defaults;
      suggestions := [];
      alertMessage := None;
      showAlert := false;
      isLoading := false;
      cityName := "";
      temperature := Zero;
      weatherDescription := "";
      iconString := None;
      searchHistory := {};
    }

    /** `handleError`: show the error's message. */
    method HandleError(error: WeatherAPIError)
      modifies this`alertMessage, this`showAlert
      ensures alertMessage == ErrorDescription(error) && alertMessage.Some? && showAlert
    {
      alertMessage := ErrorDescription(error);
      showAlert := true;
    }

    /** The synchronous part of `fetchSuggestions`. An empty query clears the
        list and issues nothing; a query whose URL does not parse raises an
        unknown error; otherwise the request is issued and nothing changes yet. */
    method FetchSuggestions(city: string, urlIsValid: bool) returns (issued: bool)
      modifies this`suggestions, this`alertMessage, this`showAlert
      ensures issued <==> city != "" && urlIsValid
      ensures city == "" ==> suggestions == [] &&
                             alertMessage == old(alertMessage) && showAlert == old(showAlert)
      ensures city != "" ==> suggestions == old(suggestions)
      ensures city != "" && !urlIsValid ==>
                alertMessage == ErrorDescription(UnknownError(MakeURLError(foundation, BadURL))) && showAlert
      ensures issued ==> alertMessage == old(alertMessage) && showAlert == old(showAlert)
    {
      if city == "" {
        suggestions := [];
        return false;
      }
      if !urlIsValid {
        HandleError(UnknownError(MakeURLError(foundation, BadURL)));
        return false;
      }
      issued := true;
    }

    /** The suggestion request's value handler: the list is replaced. */
    method OnSuggestions(cities: seq<CitySuggestion>)
      modifies this`suggestions
      ensures suggestions == cities
    {
      suggestions := cities;
    }

    /** The suggestion request's failure completion. */
    method OnSuggestionsFailure(error: RawError)
      modifies this`alertMessage, this`showAlert
      ensures alertMessage == AlertFor(error) && showAlert
    {
      HandleError(MapError(error));
    }

    /** The synchronous part of `fetchWeather`. Returns the query the issued
        request carries (its completion handlers capture it), or `None` when
        no request is issued. */
    method FetchWeather(city: string, urlIsValid: bool) returns (request: Option<string>)
      modifies this`isLoading, this`alertMessage, this`showAlert
      ensures request.Some? <==> city != "" && urlIsValid
      ensures request.Some? ==> request.value == WeatherQuery(foundation, city) && isLoading &&
                                alertMessage == old(alertMessage) && showAlert == old(showAlert)
      ensures request.None? ==>
                isLoading == old(isLoading) &&
                alertMessage == ErrorDescription(UnknownError(MakeURLError(foundation, BadURL))) && showAlert
    {
      if city == "" {
        HandleError(UnknownError(MakeURLError(foundation, BadURL)));
        return None;
      }
      var cityQuery := WeatherQuery(foundation, city);
      if !urlIsValid {
        HandleError(UnknownError(MakeURLError(foundation, BadURL)));
        return None;
      }
      isLoading := true;
      request := Some(cityQuery);
    }

    /** The weather request's value handler. */
    method OnWeatherValue(cityQuery: string, data: WeatherData)
      modifies this`searchHistory, this`defaults, this`cityName, this`temperature,
               this`weatherDescription, this`iconString
      ensures searchHistory == old(searchHistory) + {HistoryEntry(foundation, cityQuery)}
      ensures SavedOver(old(defaults))
      ensures cityName == data.name && temperature == data.main.temp
      ensures weatherDescription == (if data.weather == [] then NoDescription else data.weather[0].description)
      ensures iconString == (if data.weather == [] then None else Some(data.weather[0].icon))
    {
      UpdateSearchHistory(cityQuery);
      cityName := data.name;
      temperature := data.main.temp;
      weatherDescription := if data.weather == [] then NoDescription else data.weather[0].description;
      iconString := if data.weather == [] then None else Some(data.weather[0].icon);
    }

    /** The weather request's completion, on success (`None`) or failure:
        loading always ends here. */
    method OnWeatherCompletion(failure: Option<RawError>)
      modifies this`isLoading, this`alertMessage, this`showAlert
      ensures !isLoading
      ensures failure.None? ==> alertMessage == old(alertMessage) && showAlert == old(showAlert)
      ensures failure.Some? ==> alertMessage == AlertFor(failure.value) && showAlert
    {
      isLoading := false;
      if failure.Some? {
        HandleError(MapError(failure.value));
      }
    }

    /** `removeHistory`: drop one entry and save. */
    method RemoveHistory(item: string)
      modifies this`searchHistory, this`defaults
      ensures searchHistory == old(searchHistory) - {item}
      ensures SavedOver(old(defaults))
    {
      searchHistory := searchHistory - {item};
      SaveSearchHistory();
    }

    /** `saveSearchHistory`: overwrite the stored array with the whole set. */
    method SaveSearchHistory()
      modifies this`defaults
      ensures SavedOver(old(defaults))
      ensures |defaults[HistoryKey].items| == |searchHistory|
    {
      var arrayToSave := ArrayOf(searchHistory);
      EnumerationSize(arrayToSave, searchHistory);
      defaults := defaults[HistoryKey := StringArray(arrayToSave)];
    }

    /** `loadSearchHistory`. */
    method LoadSearchHistory()
      modifies this`searchHistory
      ensures searchHistory == Restored(defaults, old(searchHistory))
    {
      if HistoryKey in defaults && defaults[HistoryKey].StringArray? {
        searchHistory := SetOf(defaults[HistoryKey].items);
      }
    }

    /** `updateSearchHistory`: record the decoded query (or the query itself
        when it does not decode) and save. */
    method UpdateSearchHistory(cityName: string)
      modifies this`searchHistory, this`defaults
      ensures searchHistory == old(searchHistory) + {HistoryEntry(foundation, cityName)}
      ensures HistoryEntry(foundation, cityName) in old(searchHistory) ==> searchHistory == old(searchHistory)
      ensures SavedOver(old(defaults))
    {
      match foundation.removingPercentEncoding(cityName) {
        case Some(decodedCity) =>
          searchHistory := searchHistory + {decodedCity};
        case None =>
          searchHistory := searchHistory + {cityName};
      }
      SaveSearchHistory();
    }
  }
}
