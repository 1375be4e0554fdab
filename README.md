# WeatherApp view model in Dafny

This project models the logic layer of a single-screen weather app. The view
model (`WeatherAppViewModel`) holds the state the screen shows:

- city suggestions;
- the alert message and the alert flag;
- the loading flag;
- the current weather (city name, temperature, description, icon);
- a search-history set persisted in `UserDefaults` under `"SearchHistory"`.

It starts two kinds of request: geocoding suggestions and current weather.
The project also models the enum `WeatherAPIError`, which turns each failure
into the text of an alert.

Files and modules:

- `wrappers.dfy` (`Wrappers`): Swift's `Optional` (with `??` as `GetOr`) and a result type.
- `decimal.dfy` (`Decimal`): how Swift's string interpolation writes an `Int`, and a parser. The parser is used to prove that the text determines the number.
- `common_model.dfy` (`CommonModel`): `WeatherAPIError` and `errorDescription`. Swift's existential `Error` becomes the datatype `RawError`, with cases `URLError`, `DecodingError`, `APIError` (a `WeatherAPIError`) and `Other`.
- `weather_app_model.dfy` (`WeatherAppModel`): the decoded records `CitySuggestion`, `Main` (here `MainReading`), `Weather` and `WeatherData`.
- `view_model.dfy` (`ViewModel`): the response status check and `mapError` as functions, and the class `WeatherAppViewModel`.

The class has the Swift fields. The `defaults` field is a map that stands in for `UserDefaults.standard`.

Each asynchronous fetch is split into steps:

- a method for the synchronous start: `FetchSuggestions` or `FetchWeather`;
- one method per completion handler: `OnSuggestions`, `OnSuggestionsFailure`, `OnWeatherValue` and `OnWeatherCompletion`.

The code determines the order of calls: on success, Combine calls the value handler and then the completion handler with `.finished`.

Where the model has no access to something, it takes it as input:

- **Foundation functions.** Percent-encoding, percent-decoding and the `localizedDescription` of a `URLError` are given functions, held in the `Foundation` record.
- **URL validity.** Whether `URL(string:)` accepts the URL built for a request is a boolean parameter (`urlIsValid`).
- **Doubles.** A `Double` is kept as its 64 bits and copied unchanged.

What the code does, as modelled:

- **Loading history.** If the stored value is missing or is not an array of strings, `loadSearchHistory` leaves the history unchanged; it does not empty it.
- **Decoded query.** History records the percent-decoded query. If decoding fails, it records the raw query. It never records the city name the provider returns.
- **Stale suggestions.** Suggestion responses are applied in whatever order they complete; nothing discards a stale one.
- **Empty history entries.** A weather fetch cannot add `""`. `fetchWeather` refuses an empty city. When encoding succeeds and decoding inverts it, the history gains exactly the city that was searched (`HistoryRecordsSearchedCity`, `HistoryEntryNonEmpty`). Only a value already in the store can bring `""` in, through `loadSearchHistory`.
- **Alert on a new fetch.** `fetchWeather` does not clear `alertMessage` or `showAlert` when a fetch starts; an earlier alert stays until a new error replaces it.
- **Overlapping weather fetches.** `isLoading` is a single flag. If two weather fetches overlap, the first one to complete clears it while the other is still in flight.

## Model

| member | source | states |
|---|---|---|
| `CommonModel.ErrorDescription` | CommonModel.swift:16-27 | Total: every error yields a message. The message is the network text iff the error is `networkError`, and the decoding text iff it is `decodingError`. It starts with "Server returned error " iff the error is `serverError`, and with "Something went wrong: " iff it is `unknownError`. So the four families are told apart by their prefixes. |
| `CommonModel.ServerMessageCarriesCode` | CommonModel.swift:22-23 | The message for `serverError(code)` ends in "." and the text between the prefix and the "." parses back to `code`. |
| `CommonModel.MessageDeterminesError` | CommonModel.swift:16-27 | Two errors with equal messages are the same case. Two server errors with equal messages have the same status code. |
| `CommonModel.UnknownMessageCarriesCause` | CommonModel.swift:24-25 | After the prefix, the message for `unknownError(e)` is exactly `e`'s `localizedDescription`. |
| `Decimal.Description` | CommonModel.swift:23 | The interpolated text of an `Int` is non-empty. It starts with "-" exactly when the number is negative, and every other character is a decimal digit. |
| `CommonModel.LocalizedDescription` | CommonModel.swift:25 | A `WeatherAPIError` wrapped as an error describes itself by its `errorDescription`. Any other error gives the description it carries. |
| `Decimal.DescriptionRoundTrip` | CommonModel.swift:23 | Parsing the interpolated text of any `Int` (negative ones too) gives the integer back. |
| `Decimal.DescriptionInjective` | CommonModel.swift:23 | Distinct status codes give distinct texts. |
| `ViewModel.CheckResponse` | WeatherAppViewModel.swift:42-49 | Data passes, unchanged, iff the response is an HTTP response with status 200. A response that is not HTTP fails with `unknownError(URLError(.badServerResponse))`. Any other status `S` fails with `serverError(S)`. |
| `ViewModel.MakeURLError` | WeatherAppViewModel.swift:35 | `URLError(code)`, as built at lines 35, 43, 86 and 94, is a `URLError` of that code whose description is Foundation's text for the code. |
| `ViewModel.MapError` | WeatherAppViewModel.swift:67-77 | A `URLError` becomes `networkError`. A `DecodingError` becomes `decodingError`. A `WeatherAPIError` is returned unchanged. Any other error is wrapped in `unknownError`. |
| `ViewModel.MapErrorIdempotent` | WeatherAppViewModel.swift:67-77 | Classifying an already classified error changes nothing. |
| `ViewModel.NonOkStatusAlert` | WeatherAppViewModel.swift:42-82 | A non-200 status `S` becomes `serverError(S)`, which `mapError` leaves unchanged. The alert reads "Server returned error S." and `S` can be read back from it. |
| `ViewModel.AlertFor` | WeatherAppViewModel.swift:79-80 | The alert text for a failed completion, as at lines 57 and 115: always present. Own errors show their own message, transport errors the network text, decoding errors the decoding text, any other error "Something went wrong: " followed by its description. |
| `ViewModel.WeatherQuery` | WeatherAppViewModel.swift:90 | The weather query is the percent-encoded city when encoding succeeds, and the raw city otherwise. |
| `ViewModel.HistoryEntry` | WeatherAppViewModel.swift:146-150 | The recorded name is the decoded query when decoding succeeds, and the raw query otherwise. |
| `ViewModel.Restored` | WeatherAppViewModel.swift:139-141 | When the key holds a string array, the history becomes exactly the strings in it. Otherwise the history stays as it was. |
| `ViewModel.HistoryRecordsSearchedCity` | WeatherAppViewModel.swift:90 | If encoding succeeds and decoding inverts it, the history entry for a weather query is exactly the searched text. |
| `ViewModel.HistoryEntryNonEmpty` | WeatherAppViewModel.swift:85-90 | Under the same assumption, a non-empty searched city never becomes an empty history entry. |
| `ViewModel.ArrayOf` | WeatherAppViewModel.swift:134 | `Array(searchHistory)` lists every element of the set, each exactly once. |
| `ViewModel.EnumerationSize` | WeatherAppViewModel.swift:134 | Such a listing has as many entries as the set. |
| `ViewModel.LoadAfterSave` | WeatherAppViewModel.swift:133-142 | Loading after a save restores exactly the saved set. This holds whatever order the saved array has and whatever the history held in between. |
| `ViewModel.LoadWithoutEntry` | WeatherAppViewModel.swift:138-142 | With no entry saved under the history key, loading leaves the history unchanged. |
| `ViewModel.WeatherAppViewModel.constructor` | WeatherAppViewModel.swift:13-21 | Initial state: no suggestions, no alert, not loading, empty weather fields, temperature 0, empty history. The store is the one given. |
| `ViewModel.WeatherAppViewModel.HandleError` | WeatherAppViewModel.swift:79-82 | `alertMessage` becomes the error's (always present) description and `showAlert` becomes true. Nothing else changes. |
| `ViewModel.WeatherAppViewModel.FetchSuggestions` | WeatherAppViewModel.swift:27-37 | An empty city clears `suggestions`, issues no request and changes nothing else. A URL that does not parse issues no request and raises the unknown-error alert. Otherwise the request is issued and no state changes. |
| `ViewModel.WeatherAppViewModel.OnSuggestions` | WeatherAppViewModel.swift:61-63 | The suggestion list becomes exactly the decoded cities. Nothing else changes. |
| `ViewModel.WeatherAppViewModel.OnSuggestionsFailure` | WeatherAppViewModel.swift:53-60 | A failed suggestion request shows the alert for the mapped error. Nothing else changes. |
| `ViewModel.WeatherAppViewModel.FetchWeather` | WeatherAppViewModel.swift:84-98 | An empty city, or a URL that does not parse, raises the unknown-error alert, issues no request and leaves `isLoading` and the weather fields unchanged. Otherwise it sets `isLoading` and issues a request carrying the percent-encoded query (the raw city if encoding fails), without touching the alert. |
| `ViewModel.WeatherAppViewModel.OnWeatherValue` | WeatherAppViewModel.swift:117-124 | This handler copies the name and temperature. The description becomes that of the first weather entry, or "No description" when there is none. The icon becomes that of the first entry, or nil. The history gains the decoded query and is saved. |
| `ViewModel.WeatherAppViewModel.OnWeatherCompletion` | WeatherAppViewModel.swift:112-116 | `isLoading` is false afterwards on success and on failure. A failure also shows the alert for the mapped error. Success leaves the alert unchanged. |
| `ViewModel.WeatherAppViewModel.RemoveHistory` | WeatherAppViewModel.swift:128-131 | Removes exactly the given entry, keeps every other one, and saves the whole set. |
| `ViewModel.WeatherAppViewModel.SaveSearchHistory` | WeatherAppViewModel.swift:133-136 | The store's history key then holds an array listing the set, each entry exactly once. No other key changes. |
| `ViewModel.WeatherAppViewModel.LoadSearchHistory` | WeatherAppViewModel.swift:138-142 | The history becomes the set of the stored strings when the key holds a string array. Otherwise it stays as it was. |
| `ViewModel.WeatherAppViewModel.UpdateSearchHistory` | WeatherAppViewModel.swift:145-152 | Inserts the decoded name, or the name itself when it does not decode. Inserting a name already present leaves the set unchanged. The whole set is saved. |

## Left out

- The URLSession and Combine pipeline (`dataTaskPublisher`, `decode`, `receive(on:)`, `sink`, `cancellables`). This is asynchronous I/O and scheduling, so only the synchronous handlers it calls are modelled.
- `[weak self]`: the view model is assumed to be alive when a handler runs. This leaves out the `?? .unknownError(error)` fallback, which applies only when `self` is gone, and then no state is changed anyway.
- Supersession of overlapping suggestion requests. The code does not implement it: the last response to complete wins.
- URL string construction, the API key and `URL(string:)`. These are Foundation calls, so URL validity is a boolean parameter.
- The internals of `addingPercentEncoding` and `removingPercentEncoding`, and the text of Foundation's `URLError` descriptions. These belong to Foundation and are given functions.
- JSON decoding with `JSONDecoder`. This is a library call: a decoding failure reaches the model as a `DecodingError` passed to a completion handler.
- `CitySuggestion.id` and any arithmetic on `Double` values. These are floating point and its formatting; doubles are kept as bit patterns.
- Persistence failures and the format in which `UserDefaults` stores values. The store is an in-memory map; a value that is not a string array is `OtherValue`.
- `ViewModel.WeatherAppViewModel.UpdateSearchHistory`, `ViewModel.WeatherAppViewModel.RemoveHistory`, `ViewModel.WeatherAppViewModel.LoadSearchHistory`: the history is a Dafny `set<string>`, which compares strings by Unicode scalar values. Swift's `Set<String>` compares them by canonical equivalence. So the model keeps `"caf\u{E9}"` and `"cafe\u{301}"` as two entries where Swift's `insert`, `remove` and `Set(savedArray)` treat them as one. Unicode normalisation is not modelled.
- The SwiftUI views (WeatherLaunchScreen.swift, including the `suggestions.removeAll()` on tap and the icon URL), WeatherApp.swift and Item.swift. These are presentation, the app entry point, and an unused data model.
