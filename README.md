# Weather forecast front-end: a Dafny model

This project models the two parts of a small browser weather page whose behaviour can be stated precisely.

- **Forecast client** (`src/lib/weather.js`, module `Weather` in `weather.dfy`):
  - `parseResponse` zips the provider's column-oriented `hourly` object into a list of `{time, precipitation, temperature}` readings;
  - `weatherSearch` sends a fixed list of query parameters, and treats an OK response differently from a response that is not OK.
- **View controller** (`src/index.js`, module `View` in `view.dfy`):
  - the elements that `renderLoading`, `renderError` and `renderResults` build;
  - the `.output` region, which `renderIntoResultsContent` empties and then fills with exactly one element;
  - the order in which `onSearch` and `onSearchMyLocation` render: loading first, then results or an error.

`common.dfy` holds the `Option` and `Result` datatypes.

Modelling choices:
- A JavaScript property is a `Field`: `Undefined`, `Null` or `Present`. A destructuring default (`time = []`) applies only to an undefined property. A null column is kept and later throws a TypeError:
  - a null `time` throws at `time.map`;
  - a null `precipitation` or `temperature_2m` throws only when `time` has an entry, because the callback that indexes them never runs otherwise;
  - `precipitation` is indexed before `temperature_2m`.
- A numeric entry is `Option<real>`. `None` stands for null, undefined or an index past the end; `?? 0` makes it `0.0`. Values are only copied.
- Transport, JSON decoding, geolocation and the awaited search are inputs:
  - `Fetched`: a network error, or a response with its `ok` flag and a decoded (or undecodable) body;
  - `Geolocation`: no `navigator.geolocation`, the error callback, or a position;
  - `Forecast`: what the awaited `weatherSearch` returned (possibly null, hence `results ?? []`), or the message of what it threw.
- The page's element tree is a `Node` datatype. `Fixed(x, 1)` stands for the text of `x.toFixed(1)`.
- `Displayed` reads a region's children back into a `RenderState`: `Idle`, `Loading`, `Results(title, readings)`, `Error(message)`, or `Unrecognised`. Every view is specified by the state it displays. This states the "fully replaced" invariant: after any render, the region shows exactly the new state, whatever it showed before. A number cell is read back as the value passed to `toFixed(1)`, not as the visible text.
- `Page.output` is the result of `document.querySelector('.output')`, possibly null. The ghost field `OutputRegion.appended` records every element appended, in order, so the sequence of renders can be stated.

Behaviour of the code worth noting:
- A null `time` array is a TypeError, not an empty result.
- A null entry defaults to 0, like a missing one.
- A response that is not OK fails with `Failed to fetch weather data` even when its body is not valid JSON, because the body is never read.
- The provider parameter is `timezone=GMT`.

## Model

| member | source | states |
|---|---|---|
| Weather.ZipFrom | src/lib/weather.js:11-15 | the mapped list has one reading per remaining `time` entry; reading k carries `time[i+k]` and the two numeric entries at index `i+k`, each 0 when missing or null |
| Weather.ParseFailsIff | src/lib/weather.js:7-15 | `parseResponse` throws exactly when `hourly` is absent, `time` is null, or `time` is non-empty and a numeric column is null |
| Weather.ParseWithoutHourly | src/lib/weather.js:8-9 | an absent `hourly` gives an error (destructuring throws), not an empty list |
| Weather.ParseReadings | src/lib/weather.js:9-15 | on success, as many readings as `time` entries; reading i has `time[i]` (provider order kept) and `precipitation[i] ?? 0`, `temperature_2m[i] ?? 0` |
| Weather.ParseWithoutTime | src/lib/weather.js:9-11 | an undefined `time` yields the empty list, whatever the other columns are |
| Weather.ParseAbsentColumnIsZero | src/lib/weather.js:9-14 | an undefined precipitation (temperature) column makes every reading's precipitation (temperature) 0 |
| Weather.ParseIgnoresTrailingEntries | src/lib/weather.js:11-14 | entries of the numeric columns beyond the length of `time` do not change the result |
| Weather.ParseNullColumnNeedsTime | src/lib/weather.js:9-14 | null numeric columns with an empty `time` still give `[]`; with a non-empty `time`, null precipitation throws first, then null temperature |
| Weather.ParseColumns | src/lib/weather.js:7-15 | round trip: parsing the column form of any readings gives back exactly those readings |
| Weather.ParseNormalises | src/lib/weather.js:11-15 | normalising is idempotent: a parsed result, put back into columns, parses to itself |
| Weather.ParseExampleShortColumns | src/lib/weather.js:9-15 | `time` of two entries, `temperature_2m` `[5.5]`, empty `precipitation` give `[("00:00", 0, 5.5), ("01:00", 0, 0)]` |
| Weather.SearchQueryContents | src/lib/weather.js:21-27 | the query keys are exactly latitude, longitude, hourly, timezone, forecast_days in that order; the fixed values are `temperature_2m,precipitation`, `GMT` and `1` |
| Weather.NotOkFails | src/lib/weather.js:31-35 | a response that is not OK fails with exactly `Failed to fetch weather data`, whatever its body |
| Weather.OkParses | src/lib/weather.js:31-34 | an OK response with a JSON body succeeds iff `parseResponse` does, with its readings, or fails with its error |
| Weather.SearchSucceedsIff | src/lib/weather.js:30-35 | `weatherSearch` returns readings only for an OK response whose body is JSON that parses |
| View.LoadingView | src/index.js:59-61 | the loading paragraph is read back as the Loading state |
| View.ErrorView | src/index.js:53-57 | the paragraph `"Error: " + message` is read back as Error(message), so the message is recoverable and never mistaken for loading |
| View.ReadRowsOfRows | src/index.js:31-39 | each row is built from the fields of its own reading, in input order, with the cells time (verbatim), then temperature and precipitation (each the value given to `toFixed(1)`); so the rows determine the list of readings passed in |
| View.ResultsView | src/index.js:22-50 | the results section is read back as Results(title, readings): heading, header row and one row per reading, in order, each cell formatted from the right field |
| View.ResultsTableShape | src/index.js:23-47 | the heading is `"Weather results for: " + title`; the table has one header row, then one row per reading whose first cell is the time verbatim; an empty list gives a header-only table |
| View.ViewsDistinct | src/index.js:22-61 | the loading, error and results elements are pairwise different |
| View.SearchRenders | src/index.js:63-73 | `onSearch` renders two elements: first Loading, then Error(message) if the search threw, else Results(title, results ?? []) |
| View.MyLocationRequest | src/index.js:76-95 | a search is made iff a position was obtained, and then for its coordinates |
| View.MyLocationRenders | src/index.js:75-95 | `onSearchMyLocation` renders Loading, then the unsupported error, the position error, or the end state of a search titled "Your Location" |
| View.MyLocationWithoutPosition | src/index.js:76-94 | without a position, no search is made and the forecast has no effect; the end is the fixed "Geolocation is not supported by this browser." or "Unable to retrieve your location." error |
| View.MyLocationWithPosition | src/index.js:82-91 | with a position, the renders are those of `onSearch` for a location titled "Your Location" |
| View.NotOkResponseShowsFetchError | src/lib/weather.js:31-35 | a search whose response is not OK ends in Error("Failed to fetch weather data") |
| View.OkResponseShowsTable | src/index.js:63-73 | a search whose OK response parses ends in Results with one reading per `time` entry |
| View.ReykjavikScenario | src/index.js:63-73 | a two-hour response for Reykjavík goes Loading, then Results with the zero-filled readings, in a table of three rows |
| View.OutputRegion.constructor | src/index.js:140-142 | a freshly created output region has no children and displays Idle, the start of the Idle, Loading, Result or Error cycle |
| View.OutputRegion.Empty | src/index.js:18 | `empty` leaves the region without children |
| View.OutputRegion.AppendChild | src/index.js:19 | `appendChild` adds the element at the end of the children |
| View.Page.RenderIntoResultsContent | src/index.js:12-20 | afterwards the region holds exactly `[e]` whatever it held before, so rendering the same element twice gives the same region; without a region nothing changes |
| View.Page.RenderResults | src/index.js:22-51 | the region holds exactly the results element and displays Results(title, results) |
| View.Page.RenderError | src/index.js:53-57 | the region holds exactly the error paragraph and displays Error(message) |
| View.Page.RenderLoading | src/index.js:59-61 | the region holds exactly the loading paragraph and displays Loading |
| View.Page.OnSearch | src/index.js:63-73 | searches the location's coordinates; appends Loading then the `SearchRenders` end element; the region ends showing the search's outcome |
| View.Page.OnSearchMyLocation | src/index.js:75-96 | searches only with a position; appends the `MyLocationRenders` sequence; the region ends showing its outcome |

## Left out

- `sleep(1000)`, `fetch`, `response.json()`, `API_URL`, and building and percent-encoding the URL are network I/O and library calls. The response is an input (`Fetched`), and the query is the list of (key, value) pairs.
- `lat.toString()`, `lng.toString()` and `toFixed(1)` are float-to-text conversions. Coordinates reach `SearchQuery` as text, and table cells hold the number with its digit count (`Fixed`).
- The TypeError messages that a malformed body makes the JavaScript engine produce are the engine's own text. `Message` takes that text as a parameter.
- The asynchronous scheduling of `getCurrentPosition` and of the awaited search is left out. Their outcomes are inputs, so the model assumes an outcome always arrives: a geolocation callback that never fires, or a `fetch` that never settles (no timeout is set), would leave the region showing Loading, and `Page.OnSearch` and `Page.OnSearchMyLocation` do not cover that case. Overlapping requests and their last-writer-wins rendering are a concurrency concern and are not modelled.
- `el` and `empty` from `src/lib/elements.js`: that file is not part of this model. `el` is taken to turn a string child into a text node. `empty` is taken to remove every child.
- `render`, `renderLocationButton` and the fixed `locations` list build static page scaffolding. The model starts from a page whose output region is given.
- `console.warn` and `console.log` are diagnostics only.
- View.ResultsView: readings whose numbers round to the same one-decimal text (5.51 and 5.54 both show "5.5") look the same on the page; what `Displayed` reads back is the value passed to `toFixed(1)`, not the visible text, because the formatting itself is not modelled.
- `ParseResponse`:
  - a body or `hourly` that is a JSON primitive is not represented; a primitive `hourly` destructures like an object without properties;
  - a null body is represented by an undefined `hourly`, which throws a TypeError in the same way;
  - columns that are not arrays, time entries that are not strings and numeric entries that are not numbers are not represented.
- `Page.OnSearchMyLocation`: the call to `renderResults` sits inside the `try`, so an exception from rendering would be shown as an error. With numeric readings, rendering cannot throw, so the model does not represent that path.
- An error value without a `message` (`"Error: undefined"`) is not represented. Every error carries a message string.
