/** The weather handler of main.go: two chained upstream requests, the first forecast period,
    and one fixed error response for every failure. */
module Weather {
  import opened Errors
  import opened JsonValues
  import opened Unmarshal
  import opened Forecasts
  import opened Temperature

  const BaseUrl: string := "https://api.weather.gov"
  const StatusOK: int := 200
  const StatusInternalServerError: int := 500

  /** The points request: base URL, "/points/", then latitude and longitude joined by a comma,
      both copied from the request path without any check. */
  function PointsUrl(latitude: string, longitude: string): (url: string)
    ensures var prefix := BaseUrl + "/points/";
      && |url| == |prefix| + |latitude| + 1 + |longitude|
      && url[..|prefix|] == prefix
      && url[|prefix|..|prefix| + |latitude|] == latitude
      && url[|prefix| + |latitude|] == ','
      && url[|prefix| + |latitude| + 1..] == longitude
  {
    var url := BaseUrl + "/points/" + latitude + "," + longitude;
    assert url == (BaseUrl + "/points/") + latitude + "," + longitude;
    url
  }

  /** What callWeatherService yields for a URL: a transport error, or the body, whatever the status code. */
  datatype Fetched = Unreachable | Body(raw: Raw)

  /** The body written back to the caller: text from http.Error, or the encoded summary. */
  datatype ResponseBody = PlainText(text: string) | JsonDocument(doc: Json)

  datatype Response = Response(status: int, body: ResponseBody)

  /** The summary sent on success: the first period's short forecast and temperature label. */
  datatype Summary = Summary(shortForecast: string, temperature: string)

  /** What http.Error writes: the status and the message followed by a newline. */
  const InternalServerError: Response := Response(StatusInternalServerError, PlainText("Internal server error\n"))

  /** handleHttpError: the error is only logged, and the caller gets the same 500 response whatever it was. */
  function HandleHttpError(err: Failure): (resp: Response)
    ensures resp.status == StatusInternalServerError
    ensures resp.body == PlainText("Internal server error\n")
  {
    InternalServerError
  }

  /** json.NewEncoder(w).Encode of a map[string]string: an object of strings. */
  function EncodeStringMap(m: map<string, string>): (j: Json)
    ensures j.JObject? && j.fields.Keys == m.Keys
    ensures forall key :: key in m ==> j.fields[key] == JString(m[key])
  {
    JObject(map key | key in m :: JString(m[key]))
  }

  function SummaryMap(s: Summary): map<string, string> {
    map["shortForecast" := s.shortForecast, "temperature" := s.temperature]
  }

  /** The response the handler writes for the outcome of the resolution: 200 exactly on success,
      with an object holding the summary's two strings, and otherwise the single 500 response. */
  function Respond(outcome: Result<Summary>): (resp: Response)
    ensures resp.status == StatusOK <==> outcome.Ok?
    ensures outcome.Err? ==> resp == InternalServerError
    ensures outcome.Ok? ==>
              && resp.body.JsonDocument?
              && resp.body.doc == JObject(map["shortForecast" := JString(outcome.value.shortForecast),
                                              "temperature" := JString(outcome.value.temperature)])
  {
    match outcome
    case Ok(s) =>
      var doc := EncodeStringMap(SummaryMap(s));
      assert doc.fields == map["shortForecast" := JString(s.shortForecast), "temperature" := JString(s.temperature)];
      Response(StatusOK, JsonDocument(doc))
    case Err(e) => HandleHttpError(e)
  }

  /** One call of callWeatherService through the upstream. */
  function Get(fetch: string -> Fetched, url: string): Result<Raw> {
    match fetch(url)
    case Unreachable => Err(Transport)
    case Body(raw) => Ok(raw)
  }

  /** The forecast URL in a points body. It exists exactly when the body is JSON with a member
      `properties.forecast` that is a string or `null`; it is that string, or "" for `null`. */
  function ForecastEndpoint(body: Raw): (r: Result<string>)
    ensures r.Ok? <==>
              && body.Text? && HasPath(body.value, "properties", "forecast")
              && (PathValue(body.value, "properties", "forecast").JString? ||
                  PathValue(body.value, "properties", "forecast").JNull?)
    ensures r.Ok? ==>
              && body.Text? && HasPath(body.value, "properties", "forecast")
              && r.value == match PathValue(body.value, "properties", "forecast")
                            case JString(url) => url
                            case _ => ""
  {
    var jsonBody :- UnmarshalMap(body);
    var properties :- UnmarshalMap(Index(jsonBody, "properties"));
    UnmarshalString(Index(properties, "forecast"))
  }

  /** The periods in a forecast body: top-level "properties", then its "periods" as a []Forecast;
      `ForecastPeriodsByPath` says which bodies have periods and what they are. */
  function ForecastPeriods(body: Raw): (r: Result<seq<Forecast>>)
    ensures body.Empty? ==> r == Err(UnexpectedEnd)
    ensures body.Malformed? ==> r == Err(SyntaxError)
  {
    var jsonForecastBody :- UnmarshalMap(body);
    var forecastProperties :- UnmarshalMap(Index(jsonForecastBody, "properties"));
    UnmarshalForecasts(Index(forecastProperties, "periods"))
  }

  /** The summary of one period: its short forecast and its temperature label. */
  function SummaryOf(f: Forecast): Summary {
    Summary(f.shortForecast, MeasureTemperature(f.temperature))
  }

  /** The summary of the first period; no periods, no summary. */
  function Summarize(forecasts: seq<Forecast>): (r: Result<Summary>)
    ensures r.Ok? <==> |forecasts| > 0
    ensures !r.Ok? ==> r == Err(NoForecasts)
    ensures r.Ok? ==> r.value == SummaryOf(forecasts[0]) && r.value.temperature in {"hot", "moderate", "cold"}
  {
    if |forecasts| == 0 then Err(NoForecasts)
    else Ok(SummaryOf(forecasts[0]))
  }

  /** The first hop: the forecast URL the points endpoint names for the coordinates. It exists exactly
      when the points URL answered with JSON holding `properties.forecast` as a string or `null`. */
  function FirstHop(latitude: string, longitude: string, fetch: string -> Fetched): (r: Result<string>)
    ensures fetch(PointsUrl(latitude, longitude)).Unreachable? ==> r == Err(Transport)
    ensures r.Ok? <==>
              && fetch(PointsUrl(latitude, longitude)).Body?
              && ForecastEndpoint(fetch(PointsUrl(latitude, longitude)).raw).Ok?
    ensures r.Ok? ==> r.value == ForecastEndpoint(fetch(PointsUrl(latitude, longitude)).raw).value
  {
    var body :- Get(fetch, PointsUrl(latitude, longitude));
    ForecastEndpoint(body)
  }

  /** The second hop: the summary of the periods in a forecast body; `SecondHopByPath` says when
      it exists and what it is. */
  function SecondHop(forecastBody: Raw): (r: Result<Summary>)
    ensures forecastBody.Empty? ==> r == Err(UnexpectedEnd)
    ensures forecastBody.Malformed? ==> r == Err(SyntaxError)
  {
    var forecasts :- ForecastPeriods(forecastBody);
    Summarize(forecasts)
  }

  /** The whole resolution for one request, stopping at the first failure; `ResolveNeverFabricates`
      says where a summary comes from. */
  function Resolve(latitude: string, longitude: string, fetch: string -> Fetched): (r: Result<Summary>)
    ensures FirstHop(latitude, longitude, fetch).Err? ==> r == Err(FirstHop(latitude, longitude, fetch).error)
    ensures FirstHop(latitude, longitude, fetch).Ok? && fetch(FirstHop(latitude, longitude, fetch).value).Unreachable? ==>
              r == Err(Transport)
  {
    var forecastUrl :- FirstHop(latitude, longitude, fetch);
    var forecastBody :- Get(fetch, forecastUrl);
    SecondHop(forecastBody)
  }

  /** GetWeatherForecast, step by step with an early return after each failure. `requests` lists the
      URLs handed to the upstream, in order: the points URL always, and the forecast URL exactly when
      the first hop succeeded. The response is the one `Resolve` determines; it is 200 with the summary,
      or the single 500 response. */
  method GetWeatherForecast(latitude: string, longitude: string, fetch: string -> Fetched)
    returns (resp: Response, requests: seq<string>)
    ensures resp == Respond(Resolve(latitude, longitude, fetch))
    ensures resp.status == StatusOK || resp == InternalServerError
    ensures 1 <= |requests| <= 2 && requests[0] == PointsUrl(latitude, longitude)
    ensures |requests| == 2 <==> FirstHop(latitude, longitude, fetch).Ok?
    ensures |requests| == 2 ==> requests[1] == FirstHop(latitude, longitude, fetch).value
  {
    var endpoint := PointsUrl(latitude, longitude);
    requests := [endpoint];
    var body := fetch(endpoint);
    if body.Unreachable? {
      resp := HandleHttpError(Transport);
      return;
    }
    var jsonBody := UnmarshalMap(body.raw);
    if jsonBody.Err? {
      resp := HandleHttpError(jsonBody.error);
      return;
    }
    var properties := UnmarshalMap(Index(jsonBody.value, "properties"));
    if properties.Err? {
      resp := HandleHttpError(properties.error);
      return;
    }
    var forecastEndpoint := UnmarshalString(Index(properties.value, "forecast"));
    if forecastEndpoint.Err? {
      resp := HandleHttpError(forecastEndpoint.error);
      return;
    }
    requests := requests + [forecastEndpoint.value];
    var forecastBody := fetch(forecastEndpoint.value);
    if forecastBody.Unreachable? {
      resp := HandleHttpError(Transport);
      return;
    }
    var jsonForecastBody := UnmarshalMap(forecastBody.raw);
    if jsonForecastBody.Err? {
      resp := HandleHttpError(jsonForecastBody.error);
      return;
    }
    var forecastProperties := UnmarshalMap(Index(jsonForecastBody.value, "properties"));
    if forecastProperties.Err? {
      resp := HandleHttpError(forecastProperties.error);
      return;
    }
    var forecasts := UnmarshalForecasts(Index(forecastProperties.value, "periods"));
    if forecasts.Err? {
      resp := HandleHttpError(forecasts.error);
      return;
    }
    if |forecasts.value| == 0 {
      resp := HandleHttpError(NoForecasts);
      return;
    }
    var temperature := MeasureTemperature(forecasts.value[0].temperature);
    var response := map["shortForecast" := forecasts.value[0].shortForecast, "temperature" := temperature];
    resp := Response(StatusOK, JsonDocument(EncodeStringMap(response)));
  }

  /** The same request against the same upstream gets the same response: no state survives a request. */
  method RepeatRequest(latitude: string, longitude: string, fetch: string -> Fetched)
    returns (first: Response, second: Response)
    ensures first == second
  {
    var requests: seq<string>;
    first, requests := GetWeatherForecast(latitude, longitude, fetch);
    second, requests := GetWeatherForecast(latitude, longitude, fetch);
  }

  /** Either hop that fails ends the request with that failure; a summary exists only when the
      forecast body decodes to at least one period, and it is made from the first one. */
  lemma ResolveSucceedsIff(latitude: string, longitude: string, fetch: string -> Fetched)
    ensures FirstHop(latitude, longitude, fetch).Err? ==>
              Resolve(latitude, longitude, fetch) == Err(FirstHop(latitude, longitude, fetch).error)
    ensures Resolve(latitude, longitude, fetch).Ok? <==>
              && FirstHop(latitude, longitude, fetch).Ok?
              && fetch(FirstHop(latitude, longitude, fetch).value).Body?
              && ForecastPeriods(fetch(FirstHop(latitude, longitude, fetch).value).raw).Ok?
              && |ForecastPeriods(fetch(FirstHop(latitude, longitude, fetch).value).raw).value| > 0
    ensures Resolve(latitude, longitude, fetch).Ok? ==>
              var forecasts := ForecastPeriods(fetch(FirstHop(latitude, longitude, fetch).value).raw).value;
              Resolve(latitude, longitude, fetch).value ==
                Summary(forecasts[0].shortForecast, MeasureTemperature(forecasts[0].temperature))
  {
  }

  /** The periods of a forecast body exist exactly when the body is JSON with a member
      `properties.periods` that is `null` (no periods) or an array whose every element decodes as a
      Forecast; they are then those elements, decoded, in order. */
  lemma ForecastPeriodsByPath(body: Raw)
    ensures ForecastPeriods(body).Ok? <==>
              && body.Text? && HasPath(body.value, "properties", "periods")
              && (PathValue(body.value, "properties", "periods").JNull? ||
                  (PathValue(body.value, "properties", "periods").JArray? &&
                   forall i :: 0 <= i < |PathValue(body.value, "properties", "periods").elems| ==>
                     DecodeForecast(PathValue(body.value, "properties", "periods").elems[i]).Ok?))
    ensures ForecastPeriods(body).Ok? ==>
              && body.Text? && HasPath(body.value, "properties", "periods")
              && (PathValue(body.value, "properties", "periods").JNull? ==> ForecastPeriods(body).value == [])
              && (PathValue(body.value, "properties", "periods").JArray? ==>
                    var elems := PathValue(body.value, "properties", "periods").elems;
                    |ForecastPeriods(body).value| == |elems| &&
                    forall i :: 0 <= i < |elems| ==> ForecastPeriods(body).value[i] == DecodeForecast(elems[i]).value)
  {
  }

  /** The second hop yields a summary exactly when the forecast body is JSON whose `properties.periods`
      is a non-empty array of elements that all decode, and it is the summary of the first element. */
  lemma SecondHopByPath(body: Raw)
    ensures SecondHop(body).Ok? <==>
              && body.Text? && HasPath(body.value, "properties", "periods")
              && PathValue(body.value, "properties", "periods").JArray?
              && |PathValue(body.value, "properties", "periods").elems| > 0
              && forall i :: 0 <= i < |PathValue(body.value, "properties", "periods").elems| ==>
                   DecodeForecast(PathValue(body.value, "properties", "periods").elems[i]).Ok?
    ensures SecondHop(body).Ok? ==>
              && body.Text? && HasPath(body.value, "properties", "periods")
              && PathValue(body.value, "properties", "periods").JArray?
              && |PathValue(body.value, "properties", "periods").elems| > 0
              && DecodeForecast(PathValue(body.value, "properties", "periods").elems[0]).Ok?
              && SecondHop(body).value == SummaryOf(DecodeForecast(PathValue(body.value, "properties", "periods").elems[0]).value)
  {
    ForecastPeriodsByPath(body);
  }

  /** A summary is never made up: it exists only when the points URL named a forecast URL and the body
      at that URL holds a non-empty `properties.periods` array, and it is the summary of its first element. */
  lemma ResolveNeverFabricates(latitude: string, longitude: string, fetch: string -> Fetched)
    ensures Resolve(latitude, longitude, fetch).Ok? ==>
              && FirstHop(latitude, longitude, fetch).Ok?
              && var forecastUrl := FirstHop(latitude, longitude, fetch).value;
                 && fetch(forecastUrl).Body?
                 && fetch(forecastUrl).raw.Text?
                 && HasPath(fetch(forecastUrl).raw.value, "properties", "periods")
                 && PathValue(fetch(forecastUrl).raw.value, "properties", "periods").JArray?
                 && |PathValue(fetch(forecastUrl).raw.value, "properties", "periods").elems| > 0
                 && DecodeForecast(PathValue(fetch(forecastUrl).raw.value, "properties", "periods").elems[0]).Ok?
                 && Resolve(latitude, longitude, fetch).value ==
                    SummaryOf(DecodeForecast(PathValue(fetch(forecastUrl).raw.value, "properties", "periods").elems[0]).value)
  {
    var hop := FirstHop(latitude, longitude, fetch);
    if hop.Ok? && fetch(hop.value).Body? {
      SecondHopByPath(fetch(hop.value).raw);
    }
  }

  // What the handler makes of upstream documents. Each lemma holds for any document that has the
  // members named, whatever other members it carries.

  /** A points document yields the forecast URL it carries. */
  lemma ForecastEndpointOfDocument(doc: Json, forecastUrl: string)
    requires HasPath(doc, "properties", "forecast")
    requires PathValue(doc, "properties", "forecast") == JString(forecastUrl)
    ensures ForecastEndpoint(Text(doc)) == Ok(forecastUrl)
  {
  }

  /** A forecast document whose periods decode to a list of periods yields that list. */
  lemma ForecastPeriodsOfDocument(doc: Json, periods: seq<Json>, forecasts: seq<Forecast>)
    requires HasPath(doc, "properties", "periods")
    requires PathValue(doc, "properties", "periods") == JArray(periods)
    requires DecodeElements(periods) == Ok(forecasts)
    ensures ForecastPeriods(Text(doc)) == Ok(forecasts)
  {
    var properties := doc.fields["properties"];
    assert UnmarshalMap(Text(doc)) == Ok(NonNil(doc.fields));
    assert Index(NonNil(doc.fields), "properties") == Text(properties);
    assert UnmarshalMap(Text(properties)) == Ok(NonNil(properties.fields));
    assert Index(NonNil(properties.fields), "periods") == Text(JArray(periods));
  }

  /** Against an upstream that sends the documented members, the handler answers with the first
      period it was sent, or fails when it was sent none. */
  lemma ResolveWellFormedUpstream(latitude: string, longitude: string, fetch: string -> Fetched,
                                  pointsDoc: Json, forecastUrl: string,
                                  forecastDoc: Json, periods: seq<Json>, forecasts: seq<Forecast>)
    requires fetch(PointsUrl(latitude, longitude)) == Body(Text(pointsDoc))
    requires HasPath(pointsDoc, "properties", "forecast")
    requires PathValue(pointsDoc, "properties", "forecast") == JString(forecastUrl)
    requires fetch(forecastUrl) == Body(Text(forecastDoc))
    requires HasPath(forecastDoc, "properties", "periods")
    requires PathValue(forecastDoc, "properties", "periods") == JArray(periods)
    requires DecodeElements(periods) == Ok(forecasts)
    ensures |forecasts| == 0 ==> Resolve(latitude, longitude, fetch) == Err(NoForecasts)
    ensures |forecasts| > 0 ==> Resolve(latitude, longitude, fetch) == Ok(SummaryOf(forecasts[0]))
  {
    FirstHopOfDocument(latitude, longitude, fetch, pointsDoc, forecastUrl);
    SecondHopOfDocument(forecastDoc, periods, forecasts);
    ResolveViaHops(latitude, longitude, fetch, forecastUrl, Text(forecastDoc));
  }

  /** A points URL that answers with a points document leads to the forecast URL that document carries. */
  lemma FirstHopOfDocument(latitude: string, longitude: string, fetch: string -> Fetched,
                           pointsDoc: Json, forecastUrl: string)
    requires fetch(PointsUrl(latitude, longitude)) == Body(Text(pointsDoc))
    requires HasPath(pointsDoc, "properties", "forecast")
    requires PathValue(pointsDoc, "properties", "forecast") == JString(forecastUrl)
    ensures FirstHop(latitude, longitude, fetch) == Ok(forecastUrl)
  {
    ForecastEndpointOfDocument(pointsDoc, forecastUrl);
  }

  /** A forecast document whose periods decode to a list of periods is summarised as that list is. */
  lemma SecondHopOfDocument(doc: Json, periods: seq<Json>, forecasts: seq<Forecast>)
    requires HasPath(doc, "properties", "periods")
    requires PathValue(doc, "properties", "periods") == JArray(periods)
    requires DecodeElements(periods) == Ok(forecasts)
    ensures SecondHop(Text(doc)) == Summarize(forecasts)
  {
    ForecastPeriodsOfDocument(doc, periods, forecasts);
  }

  /** Once the first hop has named a forecast URL that answers, the outcome is the second hop's. */
  lemma ResolveViaHops(latitude: string, longitude: string, fetch: string -> Fetched,
                       forecastUrl: string, forecastBody: Raw)
    requires FirstHop(latitude, longitude, fetch) == Ok(forecastUrl)
    requires fetch(forecastUrl) == Body(forecastBody)
    ensures Resolve(latitude, longitude, fetch) == SecondHop(forecastBody)
  {
  }

  /** Only the first period is summarised: in two forecast documents whose periods start with the same
      element, later periods that decode do not change the answer. */
  lemma FirstPeriodDecides(doc1: Json, doc2: Json, first: Json, rest1: seq<Json>, rest2: seq<Json>)
    requires HasPath(doc1, "properties", "periods") && PathValue(doc1, "properties", "periods") == JArray([first] + rest1)
    requires HasPath(doc2, "properties", "periods") && PathValue(doc2, "properties", "periods") == JArray([first] + rest2)
    requires DecodeForecast(first).Ok?
    requires forall i :: 0 <= i < |rest1| ==> DecodeForecast(rest1[i]).Ok?
    requires forall i :: 0 <= i < |rest2| ==> DecodeForecast(rest2[i]).Ok?
    ensures SecondHop(Text(doc1)) == SecondHop(Text(doc2)) == Ok(SummaryOf(DecodeForecast(first).value))
  {
    SecondHopByPath(Text(doc1));
    SecondHopByPath(Text(doc2));
    forall i | 0 <= i < |[first] + rest1| ensures DecodeForecast(([first] + rest1)[i]).Ok? {
      if i > 0 { assert ([first] + rest1)[i] == rest1[i - 1]; }
    }
    forall i | 0 <= i < |[first] + rest2| ensures DecodeForecast(([first] + rest2)[i]).Ok? {
      if i > 0 { assert ([first] + rest2)[i] == rest2[i - 1]; }
    }
  }

  /** A later period of the wrong shape still fails the whole request, since the whole array is decoded. */
  lemma MistypedLaterPeriodFails(doc: Json, first: Json, rest: seq<Json>, k: nat)
    requires HasPath(doc, "properties", "periods") && PathValue(doc, "properties", "periods") == JArray([first] + rest)
    requires k < |rest| && !DecodeForecast(rest[k]).Ok?
    ensures SecondHop(Text(doc)) == Err(TypeMismatch)
  {
    SecondHopByPath(Text(doc));
    assert ([first] + rest)[k + 1] == rest[k];
  }

  /** No periods, whether an empty array or `null`, means no summary. */
  lemma NoPeriodsNoSummary(doc: Json)
    requires HasPath(doc, "properties", "periods")
    requires PathValue(doc, "properties", "periods") in {JArray([]), JNull}
    ensures SecondHop(Text(doc)) == Err(NoForecasts)
  {
  }

  /** A `null` period decodes as the zero Forecast, so it is summarised as an empty "cold" forecast. */
  lemma NullFirstPeriod(doc: Json)
    requires HasPath(doc, "properties", "periods") && PathValue(doc, "properties", "periods") == JArray([JNull])
    ensures SecondHop(Text(doc)) == Ok(Summary("", "cold"))
  {
  }

  /** A body without a "properties" key fails both hops with an unexpected end (the nil json.RawMessage). */
  lemma PropertiesKeyMissing(top: map<string, Json>)
    requires "properties" !in top
    ensures ForecastEndpoint(Text(JObject(top))) == Err(UnexpectedEnd)
    ensures SecondHop(Text(JObject(top))) == Err(UnexpectedEnd)
  {
  }

  /** A points document whose "properties" lack "forecast" fails before the second request; one whose
      "forecast" is `null` yields the empty URL, which is then requested. */
  lemma ForecastKeyMissingOrNull(top: map<string, Json>, properties: map<string, Json>)
    requires "forecast" !in properties
    ensures ForecastEndpoint(Text(JObject(top["properties" := JObject(properties)]))) == Err(UnexpectedEnd)
    ensures ForecastEndpoint(Text(JObject(top["properties" := JObject(properties["forecast" := JNull])]))) == Ok("")
  {
  }

  /** A forecast document whose "properties" lack "periods" fails with an unexpected end. */
  lemma PeriodsKeyMissing(top: map<string, Json>, properties: map<string, Json>)
    requires "periods" !in properties
    ensures SecondHop(Text(JObject(top["properties" := JObject(properties)]))) == Err(UnexpectedEnd)
  {
  }

  /** With commas kept out of the latitude, the points URL determines the coordinates. */
  lemma PointsUrlDeterminesCoordinates(lat1: string, lon1: string, lat2: string, lon2: string)
    requires ',' !in lat1 && ',' !in lat2
    requires PointsUrl(lat1, lon1) == PointsUrl(lat2, lon2)
    ensures lat1 == lat2 && lon1 == lon2
  {
    if |lat1| != |lat2| {
      assert false;
    }
  }

  /** Without that restriction two coordinate pairs can share a URL. */
  lemma PointsUrlAmbiguousWithCommas()
    ensures PointsUrl("1,2", "3") == PointsUrl("1", "2,3")
  {
  }

  /** The URL of the source's unit test. */
  lemma PointsUrlExample()
    ensures PointsUrl("40", "70") == "https://api.weather.gov/points/40,70"
  {
  }

  // The documents of the source's unit test.

  function PointsDocument(forecastUrl: string): Json {
    JObject(map["properties" := JObject(map["forecast" := JString(forecastUrl)])])
  }

  function ForecastDocument(forecasts: seq<Forecast>): Json {
    JObject(map["properties" := JObject(map["periods" := JArray(ForecastObjects(forecasts))])])
  }

  /** The mocked upstream of the source's unit test; any other URL fails that test, here a transport error. */
  function MockUpstream(url: string): Fetched {
    if url == "https://api.weather.gov/points/40,70" then
      Body(Text(PointsDocument("https://api.weather.gov/forecast")))
    else if url == "https://api.weather.gov/forecast" then
      Body(Text(ForecastDocument([Forecast(85, "Partly Cloudy")])))
    else
      Unreachable
  }

  /** The source's end-to-end test: status 200 with "Partly Cloudy" and "hot". */
  lemma MockUpstreamSucceeds()
    ensures Resolve("40", "70", MockUpstream) == Ok(Summary("Partly Cloudy", "hot"))
    ensures Respond(Resolve("40", "70", MockUpstream)).status == StatusOK
  {
    var forecasts := [Forecast(85, "Partly Cloudy")];
    PointsUrlExample();
    DecodeElementsRoundTrip(forecasts);
    ResolveWellFormedUpstream("40", "70", MockUpstream,
                              PointsDocument("https://api.weather.gov/forecast"), "https://api.weather.gov/forecast",
                              ForecastDocument(forecasts), ForecastObjects(forecasts), forecasts);
  }
}
