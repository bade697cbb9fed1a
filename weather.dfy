/**
 * The forecast client of src/lib/weather.js: the query parameters sent to the
 * provider, the handling of the provider's response, and `parseResponse`, which
 * zips the provider's column-oriented `hourly` object into per-hour readings.
 */
module Weather {
  import opened Common

  /** One normalised hour of forecast, as `parseResponse` builds it. */
  datatype Reading = Reading(time: string, precipitation: real, temperature: real)

  /**
   * A property read from a parsed JSON object. Destructuring defaults apply only
   * to `Undefined`; a `Null` property is kept as null.
   */
  datatype Field<T> = Undefined | Null | Present(value: T)

  /**
   * The provider's `hourly` object: three parallel arrays. A numeric entry is
   * `None` when it is null or missing.
   */
  datatype Hourly = Hourly(
    time: Field<seq<string>>,
    precipitation: Field<seq<Option<real>>>,
    temperature2m: Field<seq<Option<real>>>)

  /** The decoded JSON body of a successful response. */
  datatype Body = Body(hourly: Field<Hourly>)

  /** The TypeError that `parseResponse` throws, by the property that caused it. */
  datatype ParseFailure =
    | HourlyMissing        // destructuring an undefined or null `hourly`
    | TimeIsNull           // `time.map` on a null `time`
    | PrecipitationIsNull  // `precipitation[i]` on a null `precipitation`
    | TemperatureIsNull    // `temperature_2m[i]` on a null `temperature_2m`

  /** `column[i] ?? 0`: the entry when it exists and is not null, otherwise 0. */
  function EntryOrZero(column: seq<Option<real>>, i: nat): real
  {
    if i < |column| && column[i].Some? then column[i].value else 0.0
  }

  /** A destructured array property with the default `[]` for an undefined one. */
  function ArrayOrEmpty<T>(f: Field<seq<T>>): seq<T>
  {
    if f.Present? then f.value else []
  }

  /**
   * `time.map((t, i) => ...)` from index `i` on: one reading per remaining
   * entry of `time`, each taking the entries of the other two columns at its
   * own index, or 0 where they are missing.
   */
  function ZipFrom(time: seq<string>, precipitation: seq<Option<real>>, temperature: seq<Option<real>>, i: nat): (r: seq<Reading>)
    requires i <= |time|
    decreases |time| - i
    ensures |r| == |time| - i
    ensures forall k :: 0 <= k < |r| ==>
      r[k].time == time[i + k] &&
      r[k].precipitation == EntryOrZero(precipitation, i + k) &&
      r[k].temperature == EntryOrZero(temperature, i + k)
  {
    if i == |time| then []
    else [Reading(time[i], EntryOrZero(precipitation, i), EntryOrZero(temperature, i))]
         + ZipFrom(time, precipitation, temperature, i + 1)
  }

  /** `parseResponse(data)`: the readings, or the TypeError the JavaScript code throws. */
  function ParseResponse(data: Body): Result<seq<Reading>, ParseFailure>
  {
    if !data.hourly.Present? then Err(HourlyMissing)
    else
      var h := data.hourly.value;
      if h.time.Null? then Err(TimeIsNull)
      else
        var time := ArrayOrEmpty(h.time);
        if time != [] && h.precipitation.Null? then Err(PrecipitationIsNull)
        else if time != [] && h.temperature2m.Null? then Err(TemperatureIsNull)
        else Ok(ZipFrom(time, ArrayOrEmpty(h.precipitation), ArrayOrEmpty(h.temperature2m), 0))
  }

  /** The `time` column as `parseResponse` sees it once its default is applied. */
  function TimeColumn(data: Body): seq<string>
    requires data.hourly.Present?
  {
    ArrayOrEmpty(data.hourly.value.time)
  }

  /** `parseResponse` fails exactly when `hourly` is absent, `time` is null, or a column it indexes is null. */
  lemma ParseFailsIff(data: Body)
    ensures ParseResponse(data).Err? <==>
      (!data.hourly.Present? ||
       data.hourly.value.time.Null? ||
       (TimeColumn(data) != [] &&
        (data.hourly.value.precipitation.Null? || data.hourly.value.temperature2m.Null?)))
  {
  }

  /** An absent `hourly` gives no result at all, not an empty one. */
  lemma ParseWithoutHourly(data: Body)
    requires !data.hourly.Present?
    ensures ParseResponse(data) == Err(HourlyMissing)
  {
  }

  /**
   * A successful parse yields one reading per entry of `time`, in the provider's
   * order, with each numeric field copied from its column at the same index or 0.
   */
  lemma ParseReadings(data: Body)
    requires ParseResponse(data).Ok?
    ensures data.hourly.Present?
    ensures |ParseResponse(data).value| == |TimeColumn(data)|
    ensures forall i :: 0 <= i < |TimeColumn(data)| ==>
      ParseResponse(data).value[i] ==
        Reading(TimeColumn(data)[i],
                EntryOrZero(ArrayOrEmpty(data.hourly.value.precipitation), i),
                EntryOrZero(ArrayOrEmpty(data.hourly.value.temperature2m), i))
  {
    var h := data.hourly.value;
    var r := ParseResponse(data).value;
    forall i | 0 <= i < |TimeColumn(data)|
      ensures r[i] == Reading(TimeColumn(data)[i], EntryOrZero(ArrayOrEmpty(h.precipitation), i),
                              EntryOrZero(ArrayOrEmpty(h.temperature2m), i))
    {
      assert r[i].time == TimeColumn(data)[0 + i];
    }
  }

  /** An undefined `time` yields an empty list, whatever the other columns hold. */
  lemma ParseWithoutTime(p: Field<seq<Option<real>>>, t: Field<seq<Option<real>>>)
    ensures ParseResponse(Body(Present(Hourly(Undefined, p, t)))) == Ok([])
  {
  }

  /** An undefined precipitation (temperature) column gives 0 in every reading's precipitation (temperature). */
  lemma ParseAbsentColumnIsZero(data: Body)
    requires ParseResponse(data).Ok?
    ensures data.hourly.value.precipitation.Undefined? ==>
      forall i :: 0 <= i < |ParseResponse(data).value| ==> ParseResponse(data).value[i].precipitation == 0.0
    ensures data.hourly.value.temperature2m.Undefined? ==>
      forall i :: 0 <= i < |ParseResponse(data).value| ==> ParseResponse(data).value[i].temperature == 0.0
  {
    ParseReadings(data);
  }

  /** The first `n` entries of a column, or all of it when it is shorter. */
  function Prefix<T>(s: seq<T>, n: nat): (r: seq<T>)
    ensures |r| <= |s| && |r| <= n && r == s[..|r|]
    ensures |r| == |s| || |r| == n
  {
    if |s| <= n then s else s[..n]
  }

  /** Entries of the numeric columns beyond the length of `time` do not affect the result. */
  lemma ParseIgnoresTrailingEntries(time: seq<string>, p: seq<Option<real>>, t: seq<Option<real>>)
    ensures ParseResponse(Body(Present(Hourly(Present(time), Present(p), Present(t))))) ==
            ParseResponse(Body(Present(Hourly(Present(time), Present(Prefix(p, |time|)), Present(Prefix(t, |time|))))))
  {
    var long := ZipFrom(time, p, t, 0);
    var short := ZipFrom(time, Prefix(p, |time|), Prefix(t, |time|), 0);
    forall i | 0 <= i < |time| ensures long[i] == short[i] {
      assert long[i].time == short[i].time == time[0 + i];
      assert EntryOrZero(p, 0 + i) == EntryOrZero(Prefix(p, |time|), 0 + i);
      assert EntryOrZero(t, 0 + i) == EntryOrZero(Prefix(t, |time|), 0 + i);
    }
    assert long == short;
  }

  /** The provider's column-oriented form of a list of readings, with no missing entry. */
  function Columns(readings: seq<Reading>): Body
  {
    Body(Present(Hourly(
      Present(seq(|readings|, i requires 0 <= i < |readings| => readings[i].time)),
      Present(seq(|readings|, i requires 0 <= i < |readings| => Some(readings[i].precipitation))),
      Present(seq(|readings|, i requires 0 <= i < |readings| => Some(readings[i].temperature))))))
  }

  /** Parsing the column form of readings gives those readings back: nothing is lost, reordered or invented. */
  lemma ParseColumns(readings: seq<Reading>)
    ensures ParseResponse(Columns(readings)) == Ok(readings)
  {
    var c := Columns(readings).hourly.value;
    var r := ZipFrom(c.time.value, c.precipitation.value, c.temperature2m.value, 0);
    forall i | 0 <= i < |readings| ensures r[i] == readings[i] {
      assert r[i].time == c.time.value[0 + i];
      assert r[i].precipitation == EntryOrZero(c.precipitation.value, 0 + i);
      assert r[i].temperature == EntryOrZero(c.temperature2m.value, 0 + i);
    }
    assert r == readings;
  }

  /** Normalising is idempotent: the column form of a parsed result parses to the same result. */
  lemma ParseNormalises(data: Body)
    requires ParseResponse(data).Ok?
    ensures ParseResponse(Columns(ParseResponse(data).value)) == ParseResponse(data)
  {
    ParseColumns(ParseResponse(data).value);
  }

  /** A short temperature column and an empty precipitation column are filled with zeros. */
  lemma ParseExampleShortColumns()
    ensures ParseResponse(Body(Present(Hourly(Present(["00:00", "01:00"]), Present([]), Present([Some(5.5)]))))) ==
            Ok([Reading("00:00", 0.0, 5.5), Reading("01:00", 0.0, 0.0)])
  {
    var r := ZipFrom(["00:00", "01:00"], [], [Some(5.5)], 0);
    assert r[0] == Reading("00:00", EntryOrZero([], 0), EntryOrZero([Some(5.5)], 0));
    assert r[1] == Reading("01:00", EntryOrZero([], 1), EntryOrZero([Some(5.5)], 1));
    assert r == [Reading("00:00", 0.0, 5.5), Reading("01:00", 0.0, 0.0)];
  }

  /** A null numeric column is only read, and so only throws, when `time` has an entry. */
  lemma ParseNullColumnNeedsTime(p: Field<seq<Option<real>>>, t: Field<seq<Option<real>>>, time: seq<string>)
    ensures ParseResponse(Body(Present(Hourly(Present([]), Null, Null)))) == Ok([])
    ensures time != [] ==> ParseResponse(Body(Present(Hourly(Present(time), Null, t)))) == Err(PrecipitationIsNull)
    ensures time != [] && !p.Null? ==> ParseResponse(Body(Present(Hourly(Present(time), p, Null)))) == Err(TemperatureIsNull)
  {
  }

  // ---------------------------------------------------------------------------
  // weatherSearch

  /** The query parameters of the request, as (key, value) pairs in order. */
  type Query = seq<(string, string)>

  /** The key of every parameter, in order. */
  function Keys(q: Query): (keys: seq<string>)
    ensures |keys| == |q|
  {
    if q == [] then [] else [q[0].0] + Keys(q[1..])
  }

  /** The value of the first parameter with key `key`, as `URLSearchParams.get` finds it. */
  function Lookup(q: Query, key: string): Option<string>
  {
    if q == [] then None else if q[0].0 == key then Some(q[0].1) else Lookup(q[1..], key)
  }

  /** The parameters `weatherSearch` sends; `lat` and `lng` are the coordinates already turned into text. */
  function SearchQuery(lat: string, lng: string): Query
  {
    [("latitude", lat),
     ("longitude", lng),
     ("hourly", "temperature_2m,precipitation"),
     ("timezone", "GMT"),
     ("forecast_days", "1")]
  }

  /** The query has exactly five keys, in this order, each with its fixed or given value. */
  lemma SearchQueryContents(lat: string, lng: string)
    ensures Keys(SearchQuery(lat, lng)) == ["latitude", "longitude", "hourly", "timezone", "forecast_days"]
    ensures Lookup(SearchQuery(lat, lng), "latitude") == Some(lat)
    ensures Lookup(SearchQuery(lat, lng), "longitude") == Some(lng)
    ensures Lookup(SearchQuery(lat, lng), "hourly") == Some("temperature_2m,precipitation")
    ensures Lookup(SearchQuery(lat, lng), "timezone") == Some("GMT")
    ensures Lookup(SearchQuery(lat, lng), "forecast_days") == Some("1")
  {
    var q := SearchQuery(lat, lng);
    var q1, q2, q3, q4 := q[1..], q[2..], q[3..], q[4..];
    assert q4[1..] == [] && q3[1..] == q4 && q2[1..] == q3 && q1[1..] == q2;
    assert Keys(q4) == ["forecast_days"];
    assert Keys(q3) == ["timezone", "forecast_days"];
    assert Keys(q2) == ["hourly", "timezone", "forecast_days"];
    assert Keys(q1) == ["longitude", "hourly", "timezone", "forecast_days"];
    assert Lookup(q, "hourly") == Lookup(q2, "hourly");
    assert Lookup(q, "timezone") == Lookup(q1, "timezone") == Lookup(q2, "timezone") == Lookup(q3, "timezone");
    assert Lookup(q, "forecast_days") == Lookup(q1, "forecast_days") == Lookup(q2, "forecast_days")
        == Lookup(q3, "forecast_days") == Lookup(q4, "forecast_days");
  }

  /** What reading the body of a response gives: a decoded JSON value, or the error `response.json()` rejects with. */
  datatype Json = Json(data: Body) | NotJson(reason: string)

  /** What the transport gives for the request: a network error, or a response with its `ok` flag and body. */
  datatype Fetched = NetworkError(reason: string) | Response(ok: bool, json: Json)

  /** The ways `weatherSearch` can fail. */
  datatype SearchError =
    | FetchRejected(reason: string)   // `fetch` itself rejected
    | FetchFailed                     // the response was not OK
    | BodyRejected(reason: string)    // the body was not valid JSON
    | Malformed(cause: ParseFailure)  // `parseResponse` threw

  /** The error message `weatherSearch` throws for a response that is not OK. */
  const FetchFailedMessage: string := "Failed to fetch weather data"

  /**
   * The `message` of the error; `typeErrorText` is the JavaScript engine's own
   * text for the TypeError that a malformed body makes `parseResponse` throw.
   */
  function Message(e: SearchError, typeErrorText: string): string
  {
    match e
    case FetchRejected(reason) => reason
    case FetchFailed => FetchFailedMessage
    case BodyRejected(reason) => reason
    case Malformed(_) => typeErrorText
  }

  /** `weatherSearch` once the request has been answered: the body is read and parsed only for an OK response. */
  function WeatherSearch(fetched: Fetched): Result<seq<Reading>, SearchError>
  {
    match fetched
    case NetworkError(reason) => Err(FetchRejected(reason))
    case Response(ok, json) =>
      if !ok then Err(FetchFailed)
      else match json
        case NotJson(reason) => Err(BodyRejected(reason))
        case Json(data) =>
          match ParseResponse(data)
          case Ok(readings) => Ok(readings)
          case Err(cause) => Err(Malformed(cause))
  }

  /** A response that is not OK fails with exactly the fixed message, whatever its body holds. */
  lemma NotOkFails(json: Json, typeErrorText: string)
    ensures WeatherSearch(Response(false, json)) == Err(FetchFailed)
    ensures Message(WeatherSearch(Response(false, json)).error, typeErrorText) == "Failed to fetch weather data"
  {
  }

  /** An OK response with a JSON body gives exactly what `parseResponse` gives for that body. */
  lemma OkParses(data: Body)
    ensures WeatherSearch(Response(true, Json(data))).Ok? <==> ParseResponse(data).Ok?
    ensures ParseResponse(data).Ok? ==> WeatherSearch(Response(true, Json(data))).value == ParseResponse(data).value
    ensures ParseResponse(data).Err? ==> WeatherSearch(Response(true, Json(data))) == Err(Malformed(ParseResponse(data).error))
  {
  }

  /** Only an OK response whose body parses gives readings. */
  lemma SearchSucceedsIff(fetched: Fetched)
    ensures WeatherSearch(fetched).Ok? <==>
      (fetched.Response? && fetched.ok && fetched.json.Json? && ParseResponse(fetched.json.data).Ok?)
  {
  }
}
