# Country weather API: a Dafny model

The repository is a small Flask service (`api.py`) in front of three web
services: a country directory (restcountries), a weather provider
(openweathermap) and a chart renderer (quickchart). It also keeps an
in-memory list of favorite countries. `script.py` is a client that uses the
API. This project models three things and proves properties about them:

- the favorites list and the endpoints that change and list it;
- the endpoint logic that turns decoded upstream answers into replies:
  - the countries filter;
  - details extraction;
  - the current-temperature and forecast-graph pipelines;
  - the check of the graph's `n` parameter;
  - the construction of the chart description;
  - passing on a non-200 upstream status;
- the warmest-country selection loop of `script.py`.

Each upstream service is a function parameter. It maps the request the API
sends to a `Response(status, body)`, where the body is already-decoded
JSON. Every endpoint that calls an upstream service returns a `Reply`.
(`ListFavorites.get` calls none and returns the plain listing.) A reply holds the result (success
value or `Error`) and the list of upstream calls the endpoint made, in order.
That list is how the model states "no upstream call is made" and "the
forecast is asked for `n * 8` slots".

Modules, one per component:

- `Wrappers` holds `Option` and `Result`.
- `Upstream` holds the upstream request and response shapes, the call log,
  the error kinds and the status check every handler repeats.
- `CountryList` models `Countries.get`.
- `CountryInfo` models `Details.get`, `Temperature.get` and the
  canonical-name lookup used by the favorites endpoints.
- `Favorites` models the process-wide `Favorites` list as a class `Store`,
  with `Favorite.post`, `Unfavorite.delete` and `ListFavorites.get` as
  methods.
- `ForecastGraph` models `TemperatureGraph.get`.
- `WarmestCountry` models the loop in `findWarmestCountry`.

Where the source indexes decoded JSON without checking, a missing key or
index raises and Flask answers 500. The model reports this as
`Error.Unhandled`. An empty match list or a short `latlng` raises
`IndexError` (api.py:73, api.py:75-76, api.py:126), and a missing key raises `KeyError`
(api.py:75-78, api.py:126). Both are uncaught exceptions that Flask answers
with 500, so the model has one `Unhandled` error for them.

## Model

| member | source | states |
|---|---|---|
| Upstream.Checked | api.py:41-42 | a response is accepted exactly when its status is 200; otherwise the request aborts with that same status |
| Upstream.StatusOf | api.py:199-209 | the status the handler answers or aborts with: an upstream failure aborts with the upstream's own status, a bad `n` is a 400, an uncaught exception is a 500 |
| CountryList.FilterOfficialNames | api.py:45-49 | the filter loop computes exactly the listing `OfficialNames` of its input |
| CountryList.Countries | api.py:33-50 | one directory call, for all countries or for the given region; a non-200 status is passed on; otherwise the reply is the filtered listing |
| CountryList.OfficialNamesAppend | api.py:45-49 | filtering a concatenation gives the concatenation of the filtered parts, so entries keep input order and each record is judged on its own |
| CountryList.OfficialNamesSingle | api.py:46-49 | one record yields its official name when it has both `name` and `name.official`, and nothing otherwise |
| CountryList.OfficialNamesMembership | api.py:45-49 | a name is listed if and only if some input record has it as its official name |
| CountryList.OfficialNamesLength | api.py:45-49 | the listing is never longer than the input |
| CountryInfo.DetailsOf | api.py:73-79 | extraction succeeds exactly when there is a first record with `capitalInfo.latlng` of length at least 2, `population` and `area`; then latitude is `latlng[0]`, longitude is `latlng[1]`, and population and area are copied; otherwise the handler raises |
| CountryInfo.DetailsRoundTrip | api.py:73-79 | the details a first record carries are read back exactly, whatever records follow it |
| CountryInfo.OfficialNameOf | api.py:126 | the canonical name is `name.official` of the first match; a missing match or field makes the handler raise |
| CountryInfo.Lookup | api.py:68-71 | a full-text lookup makes exactly one directory call and passes on a non-200 status |
| CountryInfo.Details | api.py:67-80 | one directory call for the name; a non-200 status is passed on; otherwise the reply is the extraction of the match list |
| CountryInfo.CanonicalName | api.py:122-126 | one directory call for the name; a non-200 status is passed on; otherwise the reply is the first match's official name |
| CountryInfo.Temperature | api.py:96-105 | a failed details lookup is the answer, with no weather call; otherwise exactly one more call, for the capital's coordinates; its non-200 status is passed on, a missing `main.temp` raises, and otherwise the reply is that temperature |
| CountryInfo.DirectoryFailurePropagates | api.py:68-71 | a directory failure for a name gives the same status, after a single call, from details, temperature and the canonical-name lookup |
| Favorites.IndexOf | api.py:156 | the position found holds the name, and no earlier position does (the entry `list.remove` deletes) |
| Favorites.DeleteAt | api.py:155-156 | deleting one entry from a duplicate-free list keeps it duplicate-free, shortens it by one, loses exactly that name and keeps every other name |
| Favorites.AppendFresh | api.py:128-131 | appending an absent name keeps the list duplicate-free |
| Favorites.Store.constructor | api.py:14 | the favorites list starts empty |
| Favorites.Store.Add | api.py:128-132 | a name already present gives "already a favorite" and no change; an absent name is appended at the end, after all earlier entries in order, and gives "added"; the list stays duplicate-free |
| Favorites.Store.Remove | api.py:155-158 | a present name is removed at its position and every other entry keeps its relative order, with outcome "removed"; an absent name gives "was no favorite" and no change; afterwards the list holds exactly the old names except this one; the list stays duplicate-free |
| Favorites.Store.List | api.py:167-170 | exactly one `{name}` record per stored name, in stored order, without changing the store |
| Favorites.Store.Favorite | api.py:121-132 | the canonical name comes from one directory call; a failed lookup is the answer and leaves the list unchanged; otherwise the name is added as `Add` states |
| Favorites.Store.Unfavorite | api.py:148-158 | the canonical name comes from one directory call; a failed lookup is the answer and leaves the list unchanged; otherwise the name is removed as `Remove` states |
| Favorites.AddTwoRemoveOne | script.py:15-21 | favoriting two different countries lists both in order; unfavoriting the second leaves only the first |
| Favorites.AddTwice | api.py:128-132 | a second add of the same name reports "already a favorite" and the list keeps a single entry |
| Favorites.SpellingsShareFavorite | api.py:149-158 | two spellings that resolve to the same official name are the same favorite: favoriting one and unfavoriting the other reports "added", then "removed", and leaves the list empty |
| ForecastGraph.ValidateDays | api.py:196-201 | a missing parse is "not a number"; an integer outside 1..5 is "out of range"; both give 400; otherwise the slot count is `n * 8`, which lies in 8..40 |
| ForecastGraph.SeriesLabel | api.py:222 | the series label ends with the requested country's name |
| ForecastGraph.DescribesForecastUnique | api.py:216-228 | the chart description of a forecast for a country is unique |
| ForecastGraph.BuildChart | api.py:211-228 | when every slot has `dt_txt` and `main.temp`: a line chart where labels and data are as long as the forecast, entry i of each comes from slot i, and the single series is named after the requested country; otherwise the handler raises |
| ForecastGraph.TemperatureGraph | api.py:194-237 | a bad `n` gives its 400 with no upstream call; otherwise directory, forecast and chart are called in that order, each only after the one before succeeded; the forecast is asked at the capital's coordinates for `n * 8` slots (always 8..40, a multiple of 8); the chart request describes the returned slots; the first failing status is passed on |
| WarmestCountry.WarmestIndex | script.py:32-41 | the selected position, if any, is inside the input and holds a present reading |
| WarmestCountry.WarmestIsHighest | script.py:39-41 | the selected reading is at least as high as every present reading |
| WarmestCountry.WarmestIsEarliest | script.py:39 | every present reading before the selected one is strictly lower, so on a tie the first country wins |
| WarmestCountry.WarmestNoneIff | script.py:32-39 | nothing is selected if and only if every reading is `None`, which includes an empty input |
| WarmestCountry.WarmestUnique | script.py:35-41 | a present reading that is highest and strictly beats every earlier one is the one selected, so the three properties above determine the result |
| WarmestCountry.FindWarmestCountry | script.py:32-41 | the loop returns the name and temperature at the selected position, or `None` for both; the result is `None` exactly when no reading is present; the returned temperature is at least every present reading |

## Left out

- Flask, flask_restful and swagger (routing, resource registration,
  `send_file`, `BytesIO`): framework plumbing. `abort(status)` becomes
  `Error.Aborted(status)`, and an uncaught exception becomes
  `Error.Unhandled`.
- Upstream.StatusOf: gives the status the handler aborts with. What the
  client then sees is not modelled for codes that werkzeug's `abort` has no
  exception for (for example 1xx, 2xx other than 200, 3xx, or unassigned
  codes such as 499). For those, `abort` itself raises and the client gets
  500.
- The HTTP requests themselves: network I/O. Each upstream service is a
  total function parameter, so the model has no timeouts, retries or
  connection errors.
- URL construction: the query strings, the API key, and the Python repr of
  the chart description put into the chart URL. The model records each call
  as a structured `Call` value instead.
- Message texts: each message is an outcome tag (`AddOutcome`,
  `RemoveOutcome`, `Error`). The tags carry the name or number the text
  interpolates, except `Error.NotANumber`. It carries no value, because the
  raw query string `n` that the message at api.py:199 quotes is not
  modelled. Only its parse result is.
- Python `int()` parsing of `n`: the parse result is an input of type
  `Option<int>`, with `None` for a missing or non-integer parameter.
- Floating-point coordinates and temperatures are `real`. They are only
  copied and compared, so NaN and rounding do not arise.
- Upstream JSON shapes beyond those the handlers read: a country record,
  its `name` object and `capitalInfo`, a forecast slot and the weather body
  are typed records with optional fields. A field present with the wrong
  JSON type is not modelled.
- Concurrency: the source has no lock, and the model is sequential.
  Duplicate-freedom of the favorites (`Favorites.Store.Valid`) is proved only
  for requests handled one at a time. Two concurrent `POST /favorite` calls
  for the same name can both pass the `in` test at api.py:128 and both
  append at api.py:131.
- Command-line setup of the API key and running the server: they are not
  part of the endpoint logic.
- In `script.py`: `testAPI` printing and image display, and what
  `findWarmestCountry` does after its loop (printing, favoriting the winner,
  the 4-day graph). These are client I/O. The temperatures the loop compares
  are an input sequence of readings. A reading is `None` only when the
  temperature endpoint answers 200 with a null `temperature`. A failed
  temperature lookup answers with an error body that has no `temperature`
  key, so `.json()['temperature']` raises `KeyError` at script.py:37 and ends
  the script. The model does not cover that abort of the loop.
