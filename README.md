# weatherapi in Dafny

A model of the weather proxy in `main.go`. One request, `GET /weather/{latitude}/{longitude}`, goes through these steps:

1. Build the points URL `https://api.weather.gov/points/{latitude},{longitude}` and fetch it.
2. Take `properties.forecast` from that body as the forecast URL, and fetch that URL.
3. Take `properties.periods` from the second body as a list of forecast periods.
4. Answer with the first period's short forecast and a temperature label ("hot", "moderate" or "cold").

Every failure gets the same answer: status 500 with the text "Internal server error".

Modules:

- `Errors` (errors.dfy): the failure kinds the handler meets, and a `Result` type usable with `:-`.
- `JsonValues` (json.dfy): JSON values. It also defines `Raw`, the input of one `json.Unmarshal` call. A `Raw` is either no bytes, bytes that are not JSON, or the text of a value.
- `Unmarshal` (unmarshal.dfy): Go's decoding rules for the two targets the handler uses besides the period list, written as definitions. `Parse` turns a `Raw` into a JSON value or a syntax or unexpected-end error. `UnmarshalMap` decodes into `map[string]json.RawMessage`, including Go's nil map. `Index` looks a key up, giving the nil `RawMessage` for a missing key or a nil map. `UnmarshalString` decodes into `string`. A `null` is not an error for either target: it leaves the nil map or the empty string.
- `Forecasts` (forecast.dfy): the `Forecast` record, cut down to `temperature` and `shortForecast`. It also models how `json.Unmarshal` fills a `[]Forecast`. All fourteen struct fields are type-checked, because a mistyped unused field also fails the decode. `int` is Go's 64-bit `int`. `null` leaves a field, an element or the whole slice at its zero value. `FieldsFit` lists the fourteen fields with their Go types, and `UnmarshalForecasts` is the definition of decoding one `RawMessage` into a `[]Forecast`.
- `Temperature` (temperature.dfy): the classifier. The source spells it `MeaureTemperature`.
- `Weather` (weather.dfy): the handler itself.
  - `GetWeatherForecast` is a method with the handler's early returns. It takes the upstream as an oracle `fetch: string -> Fetched` and returns the response plus the list of URLs it requested.
  - The pure function `Resolve` chains the same steps: `FirstHop` (fetch the points URL, then `ForecastEndpoint`), `Get` on the forecast URL, and `SecondHop` (`ForecastPeriods`, then `Summarize`). The method is proved to answer what `Resolve` determines, and the lemmas are stated about `Resolve`.
  - `Respond` turns the outcome into the response, with `EncodeStringMap` as the definition of encoding a `map[string]string`.

Where the code is more precise than the steps above, the model follows the code:

- A `null` value for `forecast` is not an error. It yields the empty URL, which is then requested.
- A `null` value for `periods` is treated like an empty list, so it fails because there are no forecasts.
- A `null` period is the zero `Forecast`, summarised as an empty "cold" forecast.
- Later periods are never summarised. Even so, a mistyped later period fails the whole request, because the whole array is decoded.
- The error body is "Internal server error" followed by a newline, as `http.Error` writes it.

## Model

| member | source | states |
|---|---|---|
| `Temperature.MeasureTemperature` | main.go:54-62 | the label is "hot" exactly when temp >= 80, "cold" exactly when temp <= 60, "moderate" exactly for 61..79, and always one of the three |
| `Temperature.MeasureTemperatureMonotone` | main.go:54-62 | a warmer temperature never gets a colder label |
| `Temperature.MeasureTemperatureExamples` | main_test.go:22-37 | 85 is hot, 55 cold, 70 moderate, and the boundaries 80/79 and 61/60 fall on the right sides |
| `Forecasts.DecodeForecast` | main.go:17-32 | a period decodes exactly when it is `null` or an object whose known fields all have their Go types; a decode error is always a type error; temperature and shortForecast are taken from the object, and are 0 and "" when the key is absent or `null`; the temperature fits Go's int |
| `Forecasts.UnknownKeyIgnored` | main.go:17-32 | a member whose key is not one of the fourteen struct fields never changes the decode |
| `Forecasts.MistypedFieldFails` | main.go:17-32 | a struct field holding a value its Go type rejects fails the decode with a type error, even for a field the handler never reads |
| `Forecasts.DecodeElements` | main.go:103-104 | the array decodes exactly when every element does, and then holds one Forecast per element, in order |
| `Forecasts.DecodeForecastObject` | main.go:17-32 | decoding the object written for a period gives that period back |
| `Forecasts.DecodeElementsRoundTrip` | main.go:103-104 | decoding the array written for a list of periods gives the list back |
| `Weather.PointsUrl` | main.go:67 | the points URL is the base URL and "/points/", then the latitude, one comma and the longitude, with nothing else |
| `Weather.PointsUrlDeterminesCoordinates` | main.go:67 | with no comma in the latitude, equal points URLs mean equal coordinates |
| `Weather.PointsUrlAmbiguousWithCommas` | main.go:67 | with commas allowed, two coordinate pairs can share a points URL |
| `Weather.PointsUrlExample` | main_test.go:50-52 | latitude 40 and longitude 70 give `https://api.weather.gov/points/40,70` |
| `Weather.HandleHttpError` | main.go:122-125 | every error becomes status 500 with "Internal server error" and a newline, whatever the error was |
| `Weather.Respond` | main.go:112-119 | the status is 200 exactly on success, with an object holding exactly the summary's `shortForecast` and `temperature` strings; every failure gives the single 500 response |
| `Weather.ForecastEndpoint` | main.go:73-87 | the forecast URL exists exactly when the body is JSON whose `properties.forecast` is a string or `null`, and it is that string, or "" for `null` |
| `Weather.FirstHop` | main.go:67-87 | an unreachable points URL is a transport error; otherwise the first hop succeeds exactly when the points body yields a forecast URL, and gives that URL |
| `Weather.ForecastPeriods` | main.go:93-107 | no forecast body is an unexpected end, a body that is not JSON a syntax error |
| `Weather.ForecastPeriodsByPath` | main.go:93-107 | the periods exist exactly when the body is JSON whose `properties.periods` is `null` or an array whose elements all decode; they are then none, or those elements decoded in order |
| `Weather.Summarize` | main.go:108-116 | a summary exists exactly when there is a period; it is the first period's short forecast and temperature label; no periods is the no-forecasts error |
| `Weather.SecondHop` | main.go:93-116 | no forecast body is an unexpected end, a body that is not JSON a syntax error |
| `Weather.SecondHopByPath` | main.go:93-116 | the second hop yields a summary exactly when `properties.periods` is a non-empty array whose elements all decode, and it is the first element's summary |
| `Weather.Resolve` | main.go:64-111 | a failed first hop fails the request with its own error, and an unreachable forecast URL is a transport error |
| `Weather.ResolveSucceedsIff` | main.go:68-116 | a failed first hop fails the request with its error; a summary exists exactly when both hops succeed and the periods are non-empty, and it is built from the first period |
| `Weather.ResolveNeverFabricates` | main.go:64-116 | a summary exists only when the points URL named a forecast URL whose body holds a non-empty `properties.periods` array with a decodable first element, and it is that element's summary |
| `Weather.ResolveViaHops` | main.go:88-116 | once the first hop names a forecast URL that answers, the outcome is the second hop's on that body |
| `Weather.GetWeatherForecast` | main.go:64-120 | the response is the one the two-hop resolution determines (200 with the summary or the single 500 response); the points URL is always requested first; the forecast URL is requested exactly when the first hop succeeded, and it is exactly the extracted `forecast` string |
| `Weather.RepeatRequest` | main.go:64-120 | the same request against the same upstream gets the same response |
| `Weather.ForecastEndpointOfDocument` | main.go:73-87 | a points document with a string `properties.forecast` yields that URL, whatever else it holds |
| `Weather.FirstHopOfDocument` | main.go:67-87 | a points URL answering with such a document leads to the URL it carries |
| `Weather.ForecastPeriodsOfDocument` | main.go:93-107 | a forecast document yields what its `properties.periods` array decodes to, whatever else it holds |
| `Weather.SecondHopOfDocument` | main.go:93-116 | such a document is summarised as the decoded list is |
| `Weather.ResolveWellFormedUpstream` | main.go:64-116 | against an upstream sending documents with the members the handler reads, the answer is the first decoded period's summary, or no-forecasts when the array is empty |
| `Weather.FirstPeriodDecides` | main.go:103-116 | periods after the first that decode do not change the answer, which is the first period's summary |
| `Weather.MistypedLaterPeriodFails` | main.go:103-107 | a later period of the wrong shape fails the whole request |
| `Weather.NoPeriodsNoSummary` | main.go:103-111 | an empty or `null` periods list gives no summary |
| `Weather.NullFirstPeriod` | main.go:103-116 | a `null` first period is summarised as the zero Forecast: "" and "cold" |
| `Weather.PropertiesKeyMissing` | main.go:78-101 | a body without `properties` fails with an unexpected end, in either hop |
| `Weather.ForecastKeyMissingOrNull` | main.go:83-88 | a missing `forecast` key fails with unexpected end; a `null` one yields the empty URL |
| `Weather.PeriodsKeyMissing` | main.go:104 | a `properties` without `periods` fails the second hop with an unexpected end |
| `Weather.MockUpstreamSucceeds` | main_test.go:39-113 | with the unit test's mocked upstream, the answer is 200 with "Partly Cloudy" and "hot" |

## Left out

- HTTP serving, chi routing and mounting, the logging middleware, the "Hello world!" route and `main` (main.go:34-39, 127-135): framework wiring.
- The transport inside `callWeatherService` (main.go:41-52): it becomes the `fetch` oracle. A non-2xx status is not an error there, so the oracle gives a body whatever the status.
- The oracle is a function of the URL. Both calls of one request therefore see the same upstream state, so a forecast URL equal to the points URL gets the points body again.
- Byte-level JSON parsing: bodies are abstract JSON values, or the `Malformed` and `Empty` outcomes.
- JSON numbers with a fraction or an exponent: only integral numbers are represented. Go rejects those numbers for an `int` field, and accepts them for the untyped fields and under keys it ignores, such as coordinates like -97.09 in the real documents. Such a document is written in the model with an integer in that place, which does not change the handler's behaviour.
- In the untyped `temperatureTrend` and `probabilityOfPrecipitation` fields, Go rejects a number too large for float64. The model accepts any value there.
- Go matches JSON keys to struct fields ignoring case, and the last of duplicate keys wins. The model matches keys exactly and has unique keys, because a JSON object here is a map.
- Response encoding (main.go:117) is treated as infallible. The success body is the JSON object written, not its bytes. The only way `Encode` can fail here is a failed write to the connection, and by then the 200 status has been sent.
- `log.Println` in `handleHttpError` (main.go:123) is a logging sink. The failure kind is passed to `HandleHttpError` but does not change the response.
- The other `Forecast` fields (main.go:17-32) are only type-checked, not kept: they never reach the response.
- The test's round-tripper and its swap of `http.DefaultTransport` (main_test.go:14-20, 41-47): the mock upstream is the function `MockUpstream`.
