/**
 * The view controller of src/index.js over an abstract output region: the
 * elements that `renderLoading`, `renderError` and `renderResults` build, the
 * region that `renderIntoResultsContent` fully replaces, and the order in which
 * `onSearch` and `onSearchMyLocation` render.
 */
module View {
  import opened Common
  import opened Weather

  /**
   * An element tree as `el(tag, attributes, ...children)` builds it. A string
   * child becomes a text node; `Fixed(x, d)` is the text node holding `x.toFixed(d)`.
   */
  datatype Node =
    | Element(tag: string, attributes: seq<(string, string)>, children: seq<Node>)
    | Text(text: string)
    | Fixed(value: real, digits: nat)

  /** A named location; only its title is shown, its coordinates go to the search. */
  datatype Location = Location(title: string, lat: real, lng: real)

  /** How the awaited `weatherSearch` settled: it returned (possibly null), or it threw. */
  datatype Forecast = Returned(results: Option<seq<Reading>>) | Threw(message: string)

  /** How geolocation went: no `navigator.geolocation`, the error callback, or a position. */
  datatype Geolocation = Unsupported | PositionFailed | Position(latitude: real, longitude: real)

  /** What the output region shows, read back from its children. */
  datatype RenderState =
    | Idle
    | Loading
    | Results(title: string, readings: seq<Reading>)
    | Error(message: string)
    | Unrecognised

  const LoadingText: string := "Loading..."
  const ErrorPrefix: string := "Error: "
  const ResultsPrefix: string := "Weather results for: "
  const NoGeolocationMessage: string := "Geolocation is not supported by this browser."
  const NoPositionMessage: string := "Unable to retrieve your location."
  const YourLocationTitle: string := "Your Location"

  function Paragraph(text: string): Node
  {
    Element("p", [], [Text(text)])
  }

  function Cell(content: Node): Node
  {
    Element("td", [], [content])
  }

  function HasPrefix(s: string, prefix: string): bool
  {
    |prefix| <= |s| && s[..|prefix|] == prefix
  }

  // ---------------------------------------------------------------------------
  // Reading the output region back

  /** The single child of a `td` without attributes. */
  function CellContent(n: Node): Option<Node>
  {
    if n.Element? && n.tag == "td" && n.attributes == [] && |n.children| == 1 then Some(n.children[0]) else None
  }

  /** The reading shown by a table row: time, then temperature, then precipitation. */
  function ReadRow(n: Node): Option<Reading>
  {
    if n.Element? && n.tag == "tr" && n.attributes == [] && |n.children| == 3 then
      var c0, c1, c2 := CellContent(n.children[0]), CellContent(n.children[1]), CellContent(n.children[2]);
      if c0.Some? && c0.value.Text? && c1.Some? && c1.value.Fixed? && c1.value.digits == 1
         && c2.Some? && c2.value.Fixed? && c2.value.digits == 1
      then Some(Reading(c0.value.text, c2.value.value, c1.value.value))
      else None
    else None
  }

  /** The readings shown by a sequence of table rows, in order. */
  function ReadRows(rows: seq<Node>): Option<seq<Reading>>
  {
    if rows == [] then Some([])
    else
      var head, tail := ReadRow(rows[0]), ReadRows(rows[1..]);
      if head.Some? && tail.Some? then Some([head.value] + tail.value) else None
  }

  /** The results shown by a heading and a forecast table. */
  function ReadResults(heading: Node, table: Node): RenderState
  {
    if heading.Element? && heading.tag == "h2" && heading.attributes == [] && |heading.children| == 1
       && heading.children[0].Text? && HasPrefix(heading.children[0].text, ResultsPrefix)
       && table.Element? && table.tag == "table" && table.attributes == [("class", "forecast")]
       && |table.children| >= 1 && table.children[0] == HeaderRow()
       && ReadRows(table.children[1..]).Some?
    then Results(heading.children[0].text[|ResultsPrefix|..], ReadRows(table.children[1..]).value)
    else Unrecognised
  }

  /** The state a single element in the output region shows. */
  function ReadElement(n: Node): RenderState
  {
    if n == Paragraph(LoadingText) then Loading
    else if n.Element? && n.tag == "p" && n.attributes == [] && |n.children| == 1
            && n.children[0].Text? && HasPrefix(n.children[0].text, ErrorPrefix)
    then Error(n.children[0].text[|ErrorPrefix|..])
    else if n.Element? && n.tag == "section" && n.attributes == [] && |n.children| == 2
    then ReadResults(n.children[0], n.children[1])
    else Unrecognised
  }

  /** The state the output region shows: nothing yet, one rendered element, or something else. */
  function Displayed(children: seq<Node>): RenderState
  {
    if children == [] then Idle
    else if |children| == 1 then ReadElement(children[0])
    else Unrecognised
  }

  // ---------------------------------------------------------------------------
  // The rendered elements

  /** The element `renderLoading` shows. */
  function LoadingView(): (n: Node)
    ensures Displayed([n]) == Loading
  {
    Paragraph(LoadingText)
  }

  /** The element `renderError` shows for an error with this message. */
  function ErrorView(message: string): (n: Node)
    ensures Displayed([n]) == Error(message)
  {
    var text := ErrorPrefix + message;
    assert text[0] == 'E' && LoadingText[0] == 'L';
    assert text[..|ErrorPrefix|] == ErrorPrefix && text[|ErrorPrefix|..] == message;
    Paragraph(text)
  }

  /** The header row of the forecast table. */
  function HeaderRow(): Node
  {
    Element("tr", [], [
      Element("th", [], [Text("Time")]),
      Element("th", [], [Text("Temperature (°C)")]),
      Element("th", [], [Text("Precipitation (mm)")])])
  }

  /** The table row of one reading: the time verbatim, then temperature and precipitation to one decimal. */
  function ReadingRow(r: Reading): Node
  {
    Element("tr", [], [Cell(Text(r.time)), Cell(Fixed(r.temperature, 1)), Cell(Fixed(r.precipitation, 1))])
  }

  /** `results.map(...)`: one row per reading, in order. */
  function Rows(results: seq<Reading>): seq<Node>
  {
    seq(|results|, i requires 0 <= i < |results| => ReadingRow(results[i]))
  }

  /** The rows of a list of readings show exactly those readings, in order. */
  lemma {:induction false} ReadRowsOfRows(results: seq<Reading>)
    ensures ReadRows(Rows(results)) == Some(results)
  {
    if results != [] {
      assert Rows(results)[1..] == Rows(results[1..]);
      ReadRowsOfRows(results[1..]);
      assert [results[0]] + results[1..] == results;
    }
  }

  /** The element `renderResults` shows for a location title and its readings. */
  function ResultsView(title: string, results: seq<Reading>): (n: Node)
    ensures Displayed([n]) == Results(title, results)
  {
    var heading := ResultsPrefix + title;
    var rows := [HeaderRow()] + Rows(results);
    assert heading[..|ResultsPrefix|] == ResultsPrefix && heading[|ResultsPrefix|..] == title;
    assert rows[1..] == Rows(results);
    ReadRowsOfRows(results);
    Element("section", [], [
      Element("h2", [], [Text(heading)]),
      Element("table", [("class", "forecast")], rows)])
  }

  /**
   * The results element is a heading then a table of one header row and one row
   * per reading, in input order, whose first cell is the reading's time.
   */
  lemma ResultsTableShape(title: string, results: seq<Reading>)
    ensures ResultsView(title, results).children[0] == Element("h2", [], [Text("Weather results for: " + title)])
    ensures var table := ResultsView(title, results).children[1];
      table.tag == "table" && |table.children| == 1 + |results| && table.children[0] == HeaderRow() &&
      forall i :: 0 <= i < |results| ==>
        table.children[i + 1].children[0] == Cell(Text(results[i].time)) &&
        table.children[i + 1].children[1] == Cell(Fixed(results[i].temperature, 1)) &&
        table.children[i + 1].children[2] == Cell(Fixed(results[i].precipitation, 1))
  {
  }

  /** The three views show three different states, so none can be mistaken for another. */
  lemma ViewsDistinct(message: string, title: string, results: seq<Reading>)
    ensures LoadingView() != ErrorView(message)
    ensures LoadingView() != ResultsView(title, results)
    ensures ErrorView(message) != ResultsView(title, results)
  {
    assert Displayed([LoadingView()]) == Loading;
    assert Displayed([ErrorView(message)]) == Error(message);
    assert Displayed([ResultsView(title, results)]) == Results(title, results);
  }

  // ---------------------------------------------------------------------------
  // The render sequences of a search

  /** `results ?? []`. */
  function OrEmpty(results: Option<seq<Reading>>): seq<Reading>
  {
    if results.Some? then results.value else []
  }

  /** The state a search for a location with this title ends in. */
  function SearchOutcome(title: string, forecast: Forecast): RenderState
  {
    match forecast
    case Returned(results) => Results(title, OrEmpty(results))
    case Threw(message) => Error(message)
  }

  /** The elements `onSearch` renders, in order: loading, then the results or the error. */
  function SearchRenders(title: string, forecast: Forecast): (r: seq<Node>)
    ensures |r| == 2
    ensures Displayed([r[0]]) == Loading
    ensures Displayed([r[1]]) == SearchOutcome(title, forecast)
  {
    match forecast
    case Threw(message) => [LoadingView(), ErrorView(message)]
    case Returned(results) => [LoadingView(), ResultsView(title, OrEmpty(results))]
  }

  /** The state `onSearchMyLocation` ends in. */
  function MyLocationOutcome(geolocation: Geolocation, forecast: Forecast): RenderState
  {
    match geolocation
    case Unsupported => Error(NoGeolocationMessage)
    case PositionFailed => Error(NoPositionMessage)
    case Position(_, _) => SearchOutcome(YourLocationTitle, forecast)
  }

  /** The coordinates `onSearchMyLocation` searches for, if it searches at all. */
  function MyLocationRequest(geolocation: Geolocation): (request: Option<(real, real)>)
    ensures request.Some? <==> geolocation.Position?
    ensures request.Some? ==> request.value == (geolocation.latitude, geolocation.longitude)
  {
    match geolocation
    case Position(latitude, longitude) => Some((latitude, longitude))
    case _ => None
  }

  /** The elements `onSearchMyLocation` renders, in order. */
  function MyLocationRenders(geolocation: Geolocation, forecast: Forecast): (r: seq<Node>)
    ensures |r| == 2
    ensures Displayed([r[0]]) == Loading
    ensures Displayed([r[1]]) == MyLocationOutcome(geolocation, forecast)
  {
    match geolocation
    case Unsupported => [LoadingView(), ErrorView(NoGeolocationMessage)]
    case PositionFailed => [LoadingView(), ErrorView(NoPositionMessage)]
    case Position(_, _) => SearchRenders(YourLocationTitle, forecast)
  }

  /**
   * Without a position no search is made, so the forecast cannot matter: the
   * render goes from loading straight to the fixed error.
   */
  lemma MyLocationWithoutPosition(geolocation: Geolocation, f: Forecast, g: Forecast)
    requires !geolocation.Position?
    ensures MyLocationRequest(geolocation) == None
    ensures MyLocationRenders(geolocation, f) == MyLocationRenders(geolocation, g)
    ensures geolocation.Unsupported? ==>
      MyLocationRenders(geolocation, f) == [LoadingView(), ErrorView("Geolocation is not supported by this browser.")]
    ensures geolocation.PositionFailed? ==>
      MyLocationRenders(geolocation, f) == [LoadingView(), ErrorView("Unable to retrieve your location.")]
  {
  }

  /** With a position, `onSearchMyLocation` renders what `onSearch` would for a location titled "Your Location". */
  lemma MyLocationWithPosition(latitude: real, longitude: real, forecast: Forecast)
    ensures MyLocationRenders(Position(latitude, longitude), forecast) == SearchRenders("Your Location", forecast)
    ensures MyLocationOutcome(Position(latitude, longitude), forecast) == SearchOutcome("Your Location", forecast)
  {
  }

  /** How a settled `weatherSearch` reaches the view; `typeErrorText` is the engine's text for a TypeError. */
  function ForecastOf(search: Result<seq<Reading>, SearchError>, typeErrorText: string): Forecast
  {
    match search
    case Ok(readings) => Returned(Some(readings))
    case Err(e) => Threw(Message(e, typeErrorText))
  }

  /** A response that is not OK ends every search in the fixed fetch error, whatever the body. */
  lemma NotOkResponseShowsFetchError(title: string, json: Json, typeErrorText: string)
    ensures SearchOutcome(title, ForecastOf(WeatherSearch(Response(false, json)), typeErrorText)) ==
            Error("Failed to fetch weather data")
  {
  }

  /** An OK response that parses ends the search in a table with one reading per entry of `time`. */
  lemma OkResponseShowsTable(title: string, data: Body, typeErrorText: string)
    requires ParseResponse(data).Ok?
    ensures SearchOutcome(title, ForecastOf(WeatherSearch(Response(true, Json(data))), typeErrorText)) ==
            Results(title, ParseResponse(data).value)
    ensures |ParseResponse(data).value| == |TimeColumn(data)|
  {
    ParseReadings(data);
  }

  /**
   * A search for Reykjavík whose OK response has two hours goes from loading to
   * a table of a header row and two reading rows.
   */
  lemma ReykjavikScenario(typeErrorText: string)
    ensures
      var data := Body(Present(Hourly(Present(["00:00", "01:00"]), Present([Some(0.0)]), Present([Some(5.5), None]))));
      var renders := SearchRenders("Reykjavík", ForecastOf(WeatherSearch(Response(true, Json(data))), typeErrorText));
      Displayed([renders[0]]) == Loading &&
      Displayed([renders[1]]) == Results("Reykjavík", [Reading("00:00", 0.0, 5.5), Reading("01:00", 0.0, 0.0)]) &&
      |renders[1].children[1].children| == 3
  {
    var data := Body(Present(Hourly(Present(["00:00", "01:00"]), Present([Some(0.0)]), Present([Some(5.5), None]))));
    var readings := [Reading("00:00", 0.0, 5.5), Reading("01:00", 0.0, 0.0)];
    var r := ZipFrom(["00:00", "01:00"], [Some(0.0)], [Some(5.5), None], 0);
    assert r[0] == Reading("00:00", EntryOrZero([Some(0.0)], 0), EntryOrZero([Some(5.5), None], 0));
    assert r[1] == Reading("01:00", EntryOrZero([Some(0.0)], 1), EntryOrZero([Some(5.5), None], 1));
    assert r == readings;
    assert ParseResponse(data) == Ok(readings);
    ResultsTableShape("Reykjavík", readings);
  }

  // ---------------------------------------------------------------------------
  // The output region and the page

  /** The `.output` element: its children, and every element appended to it so far. */
  class OutputRegion {
    var children: seq<Node>
    ghost var appended: seq<Node>

    constructor ()
      ensures children == [] && appended == []
      ensures Displayed(children) == Idle
    {
      children := [];
      appended := [];
    }

    /** `empty(outputElement)`: remove every child. */
    method Empty()
      modifies this
      ensures children == [] && appended == old(appended)
    {
      children := [];
    }

    /** `outputElement.appendChild(element)`. */
    method AppendChild(e: Node)
      modifies this
      ensures children == old(children) + [e] && appended == old(appended) + [e]
    {
      children := children + [e];
      appended := appended + [e];
    }
  }

  /** The page; `output` is what `document.querySelector('.output')` finds, or null. */
  class Page {
    const output: OutputRegion?

    constructor (output: OutputRegion?)
      ensures this.output == output
    {
      this.output := output;
    }

    /** Replace whatever the output region holds by exactly `e`; without a region, change nothing. */
    method RenderIntoResultsContent(e: Node)
      modifies output
      ensures output != null ==> output.children == [e] && output.appended == old(output.appended) + [e]
    {
      if output == null {
        return;
      }
      output.Empty();
      output.AppendChild(e);
    }

    method RenderResults(title: string, results: seq<Reading>)
      modifies output
      ensures output != null ==>
        output.children == [ResultsView(title, results)] &&
        output.appended == old(output.appended) + [ResultsView(title, results)] &&
        Displayed(output.children) == Results(title, results)
    {
      RenderIntoResultsContent(ResultsView(title, results));
    }

    method RenderError(message: string)
      modifies output
      ensures output != null ==>
        output.children == [ErrorView(message)] &&
        output.appended == old(output.appended) + [ErrorView(message)] &&
        Displayed(output.children) == Error(message)
    {
      RenderIntoResultsContent(ErrorView(message));
    }

    method RenderLoading()
      modifies output
      ensures output != null ==>
        output.children == [LoadingView()] &&
        output.appended == old(output.appended) + [LoadingView()] &&
        Displayed(output.children) == Loading
    {
      RenderIntoResultsContent(LoadingView());
    }

    /** `onSearch(location)`: returns the coordinates it searches for. */
    method OnSearch(location: Location, forecast: Forecast) returns (request: (real, real))
      modifies output
      ensures request == (location.lat, location.lng)
      ensures output != null ==>
        output.appended == old(output.appended) + SearchRenders(location.title, forecast) &&
        output.children == [SearchRenders(location.title, forecast)[1]] &&
        Displayed(output.children) == SearchOutcome(location.title, forecast)
    {
      RenderLoading();
      request := (location.lat, location.lng);
      match forecast {
        case Threw(message) =>
          RenderError(message);
          return;
        case Returned(results) =>
      }
      RenderResults(location.title, OrEmpty(forecast.results));
    }

    /** `onSearchMyLocation()`: returns the coordinates it searches for, if any. */
    method OnSearchMyLocation(geolocation: Geolocation, forecast: Forecast) returns (request: Option<(real, real)>)
      modifies output
      ensures request == MyLocationRequest(geolocation)
      ensures output != null ==>
        output.appended == old(output.appended) + MyLocationRenders(geolocation, forecast) &&
        output.children == [MyLocationRenders(geolocation, forecast)[1]] &&
        Displayed(output.children) == MyLocationOutcome(geolocation, forecast)
    {
      RenderLoading();
      if geolocation.Unsupported? {
        RenderError(NoGeolocationMessage);
        return None;
      }
      match geolocation {
        case Position(latitude, longitude) =>
          request := Some((latitude, longitude));
          match forecast {
            case Returned(results) => RenderResults(YourLocationTitle, OrEmpty(results));
            case Threw(message) => RenderError(message);
          }
        case PositionFailed =>
          request := None;
          RenderError(NoPositionMessage);
      }
    }
  }
}
