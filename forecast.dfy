/** The Forecast record of main.go and how json.Unmarshal fills a []Forecast from JSON. */
module Forecasts {
  import opened Errors
  import opened JsonValues
  import opened Unmarshal

  /** One forecast period, restricted to the two fields the handler reads. */
  datatype Forecast = Forecast(temperature: int, shortForecast: string)

  /** The Go zero value of Forecast. */
  const ZeroForecast := Forecast(0, "")

  /** The Go type of a struct field, as far as decoding cares. */
  datatype FieldKind = IntField | StringField | BoolField | AnyField

  /** Whether json.Unmarshal stores `j` into a field of this kind without an error. `null` leaves
      any field as it is; an `int` takes only a number that fits in Go's 64-bit int. */
  predicate Fits(kind: FieldKind, j: Json) {
    j.JNull? ||
    match kind
    case IntField => j.JNumber? && InIntRange(j.n)
    case StringField => j.JString?
    case BoolField => j.JBool?
    case AnyField => true
  }

  /** The field named `key`, when the object has it, holds a value of its Go type. */
  predicate FieldFits(fields: map<string, Json>, key: string, kind: FieldKind) {
    key in fields ==> Fits(kind, fields[key])
  }

  /** Every field of the Go struct that the object names holds a value of the field's type; json.Unmarshal
      checks all of them, also the ones the model does not keep, and ignores unknown keys. */
  predicate FieldsFit(fields: map<string, Json>) {
    && FieldFits(fields, "number", IntField)
    && FieldFits(fields, "name", StringField)
    && FieldFits(fields, "startTime", StringField)
    && FieldFits(fields, "endTime", StringField)
    && FieldFits(fields, "isDaytime", BoolField)
    && FieldFits(fields, "temperature", IntField)
    && FieldFits(fields, "temperatureUnit", StringField)
    && FieldFits(fields, "temperatureTrend", AnyField)
    && FieldFits(fields, "windSpeed", StringField)
    && FieldFits(fields, "windDirection", StringField)
    && FieldFits(fields, "icon", StringField)
    && FieldFits(fields, "shortForecast", StringField)
    && FieldFits(fields, "detailedForecast", StringField)
    && FieldFits(fields, "probabilityOfPrecipitation", AnyField)
  }

  /** The JSON names of the struct's fields. */
  predicate IsStructField(key: string) {
    key in {"number", "name", "startTime", "endTime", "isDaytime", "temperature", "temperatureUnit",
            "temperatureTrend", "windSpeed", "windDirection", "icon", "shortForecast", "detailedForecast",
            "probabilityOfPrecipitation"}
  }

  /** The Go type of the struct field with that JSON name. */
  function KindOf(key: string): FieldKind
    requires IsStructField(key)
  {
    if key in {"number", "temperature"} then IntField
    else if key == "isDaytime" then BoolField
    else if key in {"temperatureTrend", "probabilityOfPrecipitation"} then AnyField
    else StringField
  }

  function IntValue(fields: map<string, Json>, key: string): int {
    if key in fields && fields[key].JNumber? then fields[key].n else 0
  }

  function StringValue(fields: map<string, Json>, key: string): string {
    if key in fields && fields[key].JString? then fields[key].s else ""
  }

  /** json.Unmarshal of one element of the periods array into a zero Forecast. `null` leaves the zero
      value; an object fills the fields it names, and any field of the wrong type fails the decode. */
  function DecodeForecast(j: Json): (r: Result<Forecast>)
    ensures r.Ok? <==> j.JNull? || (j.JObject? && FieldsFit(j.fields))
    ensures !r.Ok? ==> r == Err(TypeMismatch)
    ensures j.JNull? ==> r == Ok(ZeroForecast)
    ensures r.Ok? ==> InIntRange(r.value.temperature)
    ensures r.Ok? && j.JObject? && "temperature" in j.fields && j.fields["temperature"].JNumber? ==>
              r.value.temperature == j.fields["temperature"].n
    ensures r.Ok? && j.JObject? && ("temperature" !in j.fields || j.fields["temperature"].JNull?) ==>
              r.value.temperature == 0
    ensures r.Ok? && j.JObject? && "shortForecast" in j.fields && j.fields["shortForecast"].JString? ==>
              r.value.shortForecast == j.fields["shortForecast"].s
    ensures r.Ok? && j.JObject? && ("shortForecast" !in j.fields || j.fields["shortForecast"].JNull?) ==>
              r.value.shortForecast == ""
  {
    match j
    case JNull => Ok(ZeroForecast)
    case JObject(fields) =>
      if FieldsFit(fields) then
        Ok(Forecast(IntValue(fields, "temperature"), StringValue(fields, "shortForecast")))
      else
        Err(TypeMismatch)
    case _ => Err(TypeMismatch)
  }

  /** json.Unmarshal of the array elements, in order, into a new []Forecast: it succeeds only when
      every element decodes, and then holds one Forecast per element. */
  function DecodeElements(elems: seq<Json>): (r: Result<seq<Forecast>>)
    ensures r.Ok? <==> forall i :: 0 <= i < |elems| ==> DecodeForecast(elems[i]).Ok?
    ensures !r.Ok? ==> r == Err(TypeMismatch)
    ensures r.Ok? ==> |r.value| == |elems|
    ensures r.Ok? ==> forall i :: 0 <= i < |elems| ==> r.value[i] == DecodeForecast(elems[i]).value
  {
    if elems == [] then Ok([])
    else
      var head := DecodeForecast(elems[0]);
      var tail := DecodeElements(elems[1..]);
      if head.Ok? && tail.Ok? then
        Ok([head.value] + tail.value)
      else
        assert !head.Ok? ==> !DecodeForecast(elems[0]).Ok?;
        assert !tail.Ok? ==> exists i :: 1 <= i < |elems| && !DecodeForecast(elems[i]).Ok? by {
          if !tail.Ok? {
            var k :| 0 <= k < |elems[1..]| && !DecodeForecast(elems[1..][k]).Ok?;
            assert elems[1..][k] == elems[k + 1];
          }
        }
        Err(TypeMismatch)
  }

  /** json.Unmarshal into a nil []Forecast: an array decodes element by element, `null` leaves the
      slice nil (of length 0) without an error, any other value is a type error. */
  function UnmarshalForecasts(raw: Raw): (r: Result<seq<Forecast>>)
    ensures raw == Text(JNull) ==> r == Ok([])
    ensures raw.Text? && raw.value.JArray? ==> r == DecodeElements(raw.value.elems)
    ensures r.Ok? ==> raw.Text? && (raw.value.JNull? || raw.value.JArray?)
    ensures raw.Empty? ==> r == Err(UnexpectedEnd)
  {
    var j :- Parse(raw);
    match j
    case JArray(elems) => DecodeElements(elems)
    case JNull => Ok([])
    case _ => Err(TypeMismatch)
  }

  /** A key that names no struct field does not affect decoding, whatever its value. */
  lemma UnknownKeyIgnored(fields: map<string, Json>, key: string, value: Json)
    requires !IsStructField(key)
    ensures DecodeForecast(JObject(fields[key := value])) == DecodeForecast(JObject(fields))
  {
  }

  /** A struct field holding a value of the wrong Go type fails the decode, also when the model does not keep it. */
  lemma MistypedFieldFails(fields: map<string, Json>, key: string, value: Json)
    requires IsStructField(key) && !Fits(KindOf(key), value)
    ensures DecodeForecast(JObject(fields[key := value])) == Err(TypeMismatch)
  {
  }

  /** The JSON object an upstream sends for a period with exactly these two fields. */
  function ForecastObject(f: Forecast): Json {
    JObject(map["temperature" := JNumber(f.temperature), "shortForecast" := JString(f.shortForecast)])
  }

  /** Decoding the object written for a period gives that period back. */
  lemma DecodeForecastObject(f: Forecast)
    requires InIntRange(f.temperature)
    ensures DecodeForecast(ForecastObject(f)) == Ok(f)
  {
  }

  /** The objects written for a list of periods, in order. */
  function ForecastObjects(forecasts: seq<Forecast>): seq<Json> {
    if forecasts == [] then [] else [ForecastObject(forecasts[0])] + ForecastObjects(forecasts[1..])
  }

  /** Decoding an array of such objects gives the periods back, in the same order. */
  lemma {:induction false} DecodeElementsRoundTrip(forecasts: seq<Forecast>)
    requires forall i :: 0 <= i < |forecasts| ==> InIntRange(forecasts[i].temperature)
    ensures DecodeElements(ForecastObjects(forecasts)) == Ok(forecasts)
  {
    if forecasts != [] {
      var elems := ForecastObjects(forecasts);
      var rest := forecasts[1..];
      assert forall i :: 0 <= i < |rest| ==> InIntRange(rest[i].temperature) by {
        forall i | 0 <= i < |rest| ensures InIntRange(rest[i].temperature) {
          assert rest[i] == forecasts[i + 1];
        }
      }
      DecodeForecastObject(forecasts[0]);
      DecodeElementsRoundTrip(rest);
      assert elems == [ForecastObject(forecasts[0])] + ForecastObjects(rest);
      assert elems[0] == ForecastObject(forecasts[0]);
      assert elems[1..] == ForecastObjects(rest);
      assert forecasts == [forecasts[0]] + rest;
    }
  }
}
