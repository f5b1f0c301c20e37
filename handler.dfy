/** The `/api/get-data` handler (server/index.js:56-157): it validates the
    coordinate, fetches elevation, weather and soil payloads through the
    retry loop, checks each payload's container, merges the readings into
    one flat record, applies the completeness guard and only then calls the
    predictor.

    The predictor (`predictNPK`) is a parameter: a function from its four
    inputs to how its promise settled. Every call the handler makes to it is
    recorded, so that "the predictor was not called" is a statement about
    the result. */
module GetData {
  import opened Js
  import opened Fetcher
  import opened Soil

  /** `fetchedData`, the merged record. Its twenty keys are the six named
      fields and the fourteen soil fields: `soil[i]` is the value of the key
      `SoilFields[i].0`. The coordinate is copied as given and `elevation`
      may be `undefined`; every other value is a number or `null`, or for
      the weather readings whatever the source sent. */
  datatype FetchedData = FetchedData(
    latitude: Value, longitude: Value, elevation: Value,
    temperature: Json, humidity: Json, rainfall: Json,
    soil: seq<Json>)

  /** `inputForML`: the four values handed to the predictor. */
  datatype PredictionInput = PredictionInput(temperature: Json, humidity: Json, ph: Json, rainfall: Json)

  /** How the promise returned by `predictNPK` settled. */
  datatype Prediction = Resolved(result: Json) | Rejected

  /** What the handler answers. */
  datatype Response =
    | MissingCoordinates                             // 400, 'Latitude and longitude are required.'
    | MissingInputs(input: PredictionInput)          // 400, 'Missing required inputs for prediction.'
    | ServerError                                    // 500, from the `catch` block
    | Ok(fetchedData: FetchedData, prediction: Json)  // 200, `{ fetchedData, prediction }`

  function StatusCode(r: Response): int {
    match r
    case MissingCoordinates => 400
    case MissingInputs(_) => 400
    case ServerError => 500
    case Ok(_, _) => 200
  }

  /** The handler's answer together with every predictor call it made. */
  datatype Answer = Answer(response: Response, predictorCalls: seq<PredictionInput>)

  /** What the three remote sources answer to successive requests. */
  datatype Sources = Sources(elevation: nat -> Attempt, power: nat -> Attempt, soil: nat -> Attempt)

  /** A whole request: the answer, the three `fetchData` calls in the order
      they were awaited (none when the coordinate is rejected), and the
      predictor calls. */
  datatype Exchange = Exchange(response: Response, fetches: seq<FetchResult>, predictorCalls: seq<PredictionInput>)

  /** The single day the weather source is asked about. */
  const WeatherDate: string := "20240101"

  /** The soil fields of the record, each key with the soil property it is
      read from, in the order the record lists them; `phh2o` comes first. */
  const SoilFields: seq<(string, string)> := [
    ("phh2o", "phh2o"), ("soc", "soc"), ("bdod", "bdod"), ("clay", "clay"),
    ("sand", "sand"), ("silt", "silt"), ("cec", "cec"), ("ocd", "ocd"),
    ("nitrogen_soil", "nitrogen"), ("wv1500", "wv1500"), ("cfvo", "cfvo"),
    ("wv0033", "wv0033"), ("wv0010", "wv0010"), ("ocs", "ocs")
  ]

  /** The `if (!latitude || !longitude)` guard, passed. */
  predicate CoordinatesGiven(latitude: Value, longitude: Value) {
    Truthy(latitude) && Truthy(longitude)
  }

  // ---------------------------------------------------------------------
  // Elevation: `elevData.results[0].elevation`

  /** `!elevData?.results?.length`: no non-empty `results`. */
  predicate ElevationMalformed(elevData: Option<Json>) {
    !Truthy(OptMember(OptMember(elevData, "results"), "length"))
  }

  /** The elevation reading, or the error the handler throws (or the
      TypeError of reading `elevation` of a `null` first result). */
  function Elevation(elevData: Option<Json>): (r: Completion<Value>)
    ensures ElevationMalformed(elevData) ==> r.Throw?
    ensures r.Normal? ==> OptMember(elevData, "results").Some?
    ensures !ElevationMalformed(elevData) ==>
      var first := Member(OptMember(elevData, "results").value, "0");
      && (r.Throw? <==> Nullish(first))
      && (!Nullish(first) ==> r == Normal(Member(first.value, "elevation")))
  {
    var results := OptMember(elevData, "results");
    if !Truthy(OptMember(results, "length")) then Throw
    else
      Get(Member(results.value, "0"), "elevation")
  }

  /** A `results` array whose first entry is not `null` yields that entry's
      `elevation`, possibly `undefined`; an empty one is an error. */
  lemma ElevationOfResults(elevData: Option<Json>, results: seq<Json>)
    requires OptMember(elevData, "results") == Some(JArr(results))
    ensures results == [] ==> Elevation(elevData).Throw?
    ensures results != [] && results[0] != JNull ==> Elevation(elevData) == Normal(Member(results[0], "elevation"))
  {
    if results != [] {
      assert ArrayIndex("0") == Some(0);
    }
  }

  // ---------------------------------------------------------------------
  // Weather: `powerData.properties.parameter.<METRIC>["20240101"] ?? null`

  datatype Weather = Weather(temperature: Json, humidity: Json, rainfall: Json)

  predicate WeatherMalformed(powerData: Option<Json>) {
    !Truthy(OptMember(OptMember(powerData, "properties"), "parameter"))
  }

  /** `nasaData.<metric>?.["20240101"] ?? null`. */
  function Reading(parameters: Json, metric: string): (r: Json)
    ensures Nullish(Member(parameters, metric)) || Member(parameters, metric).value.JNum? || Member(parameters, metric).value.JBool? ==> r == JNull
  {
    OrNull(OptMember(Member(parameters, metric), WeatherDate))
  }

  function WeatherOf(powerData: Option<Json>): (r: Completion<Weather>)
    ensures r.Throw? <==> WeatherMalformed(powerData)
  {
    var nasaData := OptMember(OptMember(powerData, "properties"), "parameter");
    if !Truthy(nasaData) then Throw
    else Normal(Weather(Reading(nasaData.value, "T2M"), Reading(nasaData.value, "RH2M"), Reading(nasaData.value, "PRECTOTCORR")))
  }

  /** The entry of a metric series for the requested day, `null` when the
      series has none. */
  function DayReading(series: map<string, Json>): Json {
    if WeatherDate in series then series[WeatherDate] else JNull
  }

  /** A metric whose series is an object yields the series' entry for the
      requested day, or `null` when that entry is absent or `null`. */
  lemma ReadingOfSeries(parameters: Json, metric: string, series: map<string, Json>)
    requires Member(parameters, metric) == Some(JObj(series))
    ensures Reading(parameters, metric) == DayReading(series)
  {
  }

  /** Temperature is read from the `T2M` series, humidity from `RH2M` and
      rainfall from `PRECTOTCORR`, each at the requested day. */
  lemma WeatherFromSeries(powerData: Option<Json>, parameters: map<string, Json>,
                          t2m: map<string, Json>, rh2m: map<string, Json>, prectotcorr: map<string, Json>)
    requires OptMember(OptMember(powerData, "properties"), "parameter") == Some(JObj(parameters))
    requires "T2M" in parameters && parameters["T2M"] == JObj(t2m)
    requires "RH2M" in parameters && parameters["RH2M"] == JObj(rh2m)
    requires "PRECTOTCORR" in parameters && parameters["PRECTOTCORR"] == JObj(prectotcorr)
    ensures WeatherOf(powerData) == Normal(Weather(DayReading(t2m), DayReading(rh2m), DayReading(prectotcorr)))
  {
  }

  // ---------------------------------------------------------------------
  // Soil: `soilData.properties`, then one normalizer call per soil field

  predicate SoilMalformed(soilData: Option<Json>) {
    !Truthy(OptMember(soilData, "properties"))
  }

  function SoilProperties(soilData: Option<Json>): (r: Completion<Json>)
    ensures r.Throw? <==> SoilMalformed(soilData)
    ensures r.Normal? ==> OptMember(soilData, "properties") == Some(r.value)
  {
    var soilProps := OptMember(soilData, "properties");
    if !Truthy(soilProps) then Throw else Normal(soilProps.value)
  }

  /** A normalizer result as the record holds it: a number or `null`. */
  function MeanJson(mean: Option<real>): Json {
    match mean
    case Some(x) => JNum(x)
    case None => JNull
  }

  /** The soil part of the record: `normalize` (the normalizer applied to
      the soil container) called for each field's property in turn; the
      first call that throws aborts the whole record. */
  function SoilReadings(normalize: string -> Completion<Option<real>>, fields: seq<(string, string)>): (r: Completion<seq<Json>>)
    ensures r.Normal? ==> |r.value| == |fields|
    ensures r.Normal? ==> forall i :: 0 <= i < |fields| ==>
      normalize(fields[i].1).Normal? && r.value[i] == MeanJson(normalize(fields[i].1).value)
    ensures r.Throw? <==> exists i :: 0 <= i < |fields| && normalize(fields[i].1).Throw?
  {
    if fields == [] then Normal([])
    else
      var mean :- normalize(fields[0].1);
      var rest :- SoilReadings(normalize, fields[1..]);
      assert forall i :: 1 <= i < |fields| ==> fields[i] == fields[1..][i - 1];
      Normal([MeanJson(mean)] + rest)
  }

  /** The record built from the readings, the soil fields normalized from
      the soil container. */
  function BuildRecord(latitude: Value, longitude: Value, elevation: Value, weather: Weather, soilProps: Json): (r: Completion<FetchedData>)
    ensures r.Normal? ==> |r.value.soil| == |SoilFields|
  {
    var soil :- SoilReadings(name => MeanFromProperty(Some(soilProps), name), SoilFields);
    Normal(FetchedData(latitude, longitude, elevation, weather.temperature, weather.humidity, weather.rainfall, soil))
  }

  // ---------------------------------------------------------------------
  // The handler

  /** Lines 91-132: the three payload checks and the record, or the error
      that sends the handler to its `catch` block. */
  function Gather(latitude: Value, longitude: Value, elevData: Option<Json>, powerData: Option<Json>, soilData: Option<Json>): (r: Completion<FetchedData>)
    ensures r.Normal? ==> |r.value.soil| == |SoilFields|
    ensures r.Normal? ==> r.value.latitude == latitude && r.value.longitude == longitude
    ensures r.Normal? ==> !ElevationMalformed(elevData) && !WeatherMalformed(powerData) && !SoilMalformed(soilData)
  {
    var elevation :- Elevation(elevData);
    var weather :- WeatherOf(powerData);
    var soilProps :- SoilProperties(soilData);
    BuildRecord(latitude, longitude, elevation, weather, soilProps)
  }

  /** `inputForML`, read from the record; `ph` is the record's `phh2o`. */
  function InputForML(fetchedData: FetchedData): (r: PredictionInput)
    requires |fetchedData.soil| == |SoilFields|
    ensures SoilFields[0].0 == "phh2o" && r.ph == fetchedData.soil[0]
    ensures r.temperature == fetchedData.temperature && r.humidity == fetchedData.humidity && r.rainfall == fetchedData.rainfall
  {
    PredictionInput(fetchedData.temperature, fetchedData.humidity, fetchedData.soil[0], fetchedData.rainfall)
  }

  /** The completeness guard: none of the four inputs is `null`. */
  predicate Complete(input: PredictionInput)
    ensures Complete(input) <==> JNull !in [input.temperature, input.humidity, input.ph, input.rainfall]
  {
    input.temperature != JNull && input.humidity != JNull && input.ph != JNull && input.rainfall != JNull
  }

  /** Lines 91-156 for given payloads (`None` is the `null` of a failed
      fetch): checks, record, completeness guard, predictor. */
  function Respond(latitude: Value, longitude: Value, elevData: Option<Json>, powerData: Option<Json>, soilData: Option<Json>,
                   predict: PredictionInput -> Prediction): (a: Answer)
    ensures |a.predictorCalls| <= 1
    ensures a.predictorCalls != [] ==> Complete(a.predictorCalls[0])
    ensures a.response.MissingInputs? ==> !Complete(a.response.input) && a.predictorCalls == []
    ensures a.response.Ok? ==> |a.response.fetchedData.soil| == |SoilFields| && |a.predictorCalls| == 1
    ensures a.response != MissingCoordinates
  {
    match Gather(latitude, longitude, elevData, powerData, soilData)
    case Throw => Answer(ServerError, [])
    case Normal(fetchedData) =>
      var input := InputForML(fetchedData);
      if !Complete(input) then Answer(MissingInputs(input), [])
      else
        match predict(input)
        case Resolved(prediction) => Answer(Ok(fetchedData, prediction), [input])
        case Rejected => Answer(ServerError, [input])
  }

  /** The whole request: destructure the body (a `null` body throws),
      reject a falsy coordinate before fetching anything, fetch the three
      sources with the default retry budget, and respond. */
  function Handle(body: Json, sources: Sources, predict: PredictionInput -> Prediction): (x: Exchange)
    ensures x.response == MissingCoordinates ==> x.fetches == [] && x.predictorCalls == []
    ensures x.fetches == [] || |x.fetches| == 3
    ensures x.predictorCalls != [] ==> |x.fetches| == 3
    ensures body == JNull ==> x == Exchange(ServerError, [], [])
    ensures body != JNull && CoordinatesGiven(Member(body, "latitude"), Member(body, "longitude")) ==>
      && x.fetches == [Fetch(DefaultRetries, DefaultBackoff, sources.elevation),
                       Fetch(DefaultRetries, DefaultBackoff, sources.power),
                       Fetch(DefaultRetries, DefaultBackoff, sources.soil)]
      && Answer(x.response, x.predictorCalls)
         == Respond(Member(body, "latitude"), Member(body, "longitude"), x.fetches[0].data, x.fetches[1].data, x.fetches[2].data, predict)
  {
    if body == JNull then Exchange(ServerError, [], [])
    else
      var latitude := Member(body, "latitude");
      var longitude := Member(body, "longitude");
      if !CoordinatesGiven(latitude, longitude) then Exchange(MissingCoordinates, [], [])
      else
        var elev := Fetch(DefaultRetries, DefaultBackoff, sources.elevation);
        var power := Fetch(DefaultRetries, DefaultBackoff, sources.power);
        var soil := Fetch(DefaultRetries, DefaultBackoff, sources.soil);
        var a := Respond(latitude, longitude, elev.data, power.data, soil.data, predict);
        Exchange(a.response, [elev, power, soil], a.predictorCalls)
  }

  // ---------------------------------------------------------------------
  // Properties of the handler

  /** A falsy latitude or longitude is answered with 400 and nothing is
      fetched or predicted; any other coordinate is let through. */
  lemma CoordinatesRequired(body: Json, sources: Sources, predict: PredictionInput -> Prediction)
    ensures var x := Handle(body, sources, predict);
      && (x.response == MissingCoordinates <==>
            body != JNull && !CoordinatesGiven(Member(body, "latitude"), Member(body, "longitude")))
      && (x.response == MissingCoordinates ==> StatusCode(x.response) == 400 && x.fetches == [] && x.predictorCalls == [])
  {
  }

  /** Latitude 0 (the equator) is falsy, so it is rejected like a missing
      one. */
  lemma ZeroLatitudeRejected(longitude: Json, sources: Sources, predict: PredictionInput -> Prediction)
    ensures Handle(JObj(map["latitude" := JNum(0.0), "longitude" := longitude]), sources, predict)
      == Exchange(MissingCoordinates, [], [])
  {
  }

  /** A source fetched with the handler's retry budget: at most three
      requests, and the waits 2000, 4000 and 8000 ms as needed. */
  lemma DefaultBudget(outcome: nat -> Attempt)
    ensures var f := Fetch(DefaultRetries, DefaultBackoff, outcome);
      f.attempts <= 3 && |f.waits| <= 3 && forall i :: 0 <= i < |f.waits| ==> f.waits[i] == 2000 * Pow2(i)
  {
    AttemptsWithinBudget(DefaultRetries, DefaultBackoff, outcome);
    WaitsDouble(DefaultRetries, DefaultBackoff, outcome);
  }

  /** With a coordinate given, each source is fetched once, within the
      default budget. */
  lemma SourcesWithinBudget(body: Json, sources: Sources, predict: PredictionInput -> Prediction)
    ensures var x := Handle(body, sources, predict);
      forall k :: 0 <= k < |x.fetches| ==>
        x.fetches[k].attempts <= 3 && |x.fetches[k].waits| <= 3 &&
        forall i :: 0 <= i < |x.fetches[k].waits| ==> x.fetches[k].waits[i] == 2000 * Pow2(i)
  {
    DefaultBudget(sources.elevation);
    DefaultBudget(sources.power);
    DefaultBudget(sources.soil);
  }

  /** A payload without a non-empty `results`, without
      `properties.parameter`, or without `properties` makes the handler
      answer 500 without calling the predictor. */
  lemma MalformedPayloadIsServerError(latitude: Value, longitude: Value, elevData: Option<Json>, powerData: Option<Json>,
                                      soilData: Option<Json>, predict: PredictionInput -> Prediction)
    requires ElevationMalformed(elevData) || WeatherMalformed(powerData) || SoilMalformed(soilData)
    ensures Respond(latitude, longitude, elevData, powerData, soilData, predict) == Answer(ServerError, [])
  {
  }

  /** A failed fetch (`null`) of any source is a malformed payload. */
  lemma FailedFetchIsMalformed()
    ensures ElevationMalformed(None) && WeatherMalformed(None) && SoilMalformed(None)
  {
  }

  /** The record: all twenty keys present; the coordinate copied; the
      elevation and weather readings; each soil field the normalizer's result
      for its property (`nitrogen_soil` from `nitrogen`), `null` when it
      found no number. */
  lemma RecordFields(latitude: Value, longitude: Value, elevData: Option<Json>, powerData: Option<Json>, soilData: Option<Json>)
    ensures var g := Gather(latitude, longitude, elevData, powerData, soilData);
      g.Normal? ==>
      var record := g.value;
      && 6 + |record.soil| == 20
      && record.latitude == latitude && record.longitude == longitude
      && Elevation(elevData) == Normal(record.elevation)
      && WeatherOf(powerData) == Normal(Weather(record.temperature, record.humidity, record.rainfall))
      && var parameters := OptMember(OptMember(powerData, "properties"), "parameter").value;
      && record.temperature == Reading(parameters, "T2M")
      && record.humidity == Reading(parameters, "RH2M")
      && record.rainfall == Reading(parameters, "PRECTOTCORR")
      && SoilProperties(soilData).Normal?
      && forall i :: 0 <= i < |SoilFields| ==>
           MeanFromProperty(Some(SoilProperties(soilData).value), SoilFields[i].1).Normal? &&
           record.soil[i] == MeanJson(MeanFromProperty(Some(SoilProperties(soilData).value), SoilFields[i].1).value)
  {
  }

  /** The record is abandoned (500) exactly when a payload is malformed,
      the first elevation result is `null`, or the normalizer throws for
      one of the fourteen soil properties. */
  lemma RecordAbandoned(latitude: Value, longitude: Value, elevData: Option<Json>, powerData: Option<Json>, soilData: Option<Json>)
    ensures Gather(latitude, longitude, elevData, powerData, soilData).Throw? <==>
      || Elevation(elevData).Throw? || WeatherMalformed(powerData) || SoilMalformed(soilData)
      || exists i :: 0 <= i < |SoilFields| && MeanFromProperty(Some(SoilProperties(soilData).value), SoilFields[i].1).Throw?
  {
  }

  /** The predictor is called exactly when the payloads are well formed and
      the four inputs are all non-null, once, with the input built from the
      record; when an input is `null` the answer is 400 carrying that input;
      a rejected prediction is a 500. */
  lemma PredictorCalledExactlyWhenComplete(latitude: Value, longitude: Value, elevData: Option<Json>, powerData: Option<Json>,
                                           soilData: Option<Json>, predict: PredictionInput -> Prediction)
    ensures var a := Respond(latitude, longitude, elevData, powerData, soilData, predict);
      var g := Gather(latitude, longitude, elevData, powerData, soilData);
      && (a.predictorCalls != [] <==> g.Normal? && Complete(InputForML(g.value)))
      && (a.predictorCalls != [] ==> a.predictorCalls == [InputForML(g.value)])
      && (a.response.MissingInputs? <==> g.Normal? && !Complete(InputForML(g.value)))
      && (a.response.MissingInputs? ==> a.response.input == InputForML(g.value))
      && (a.response.Ok? <==> g.Normal? && Complete(InputForML(g.value)) && predict(InputForML(g.value)).Resolved?)
      && (a.response.Ok? ==> a.response == Ok(g.value, predict(InputForML(g.value)).result))
      && (a.response == ServerError <==>
            g.Throw? || (Complete(InputForML(g.value)) && predict(InputForML(g.value)).Rejected?))
  {
  }

  /** An elevation source that fails on every request: three requests with
      waits of 2, 4 and 8 seconds, then a 500 without any predictor call,
      whatever the other sources answer. */
  lemma ElevationSourceDownIsServerError(body: Json, sources: Sources, predict: PredictionInput -> Prediction)
    requires body != JNull && CoordinatesGiven(Member(body, "latitude"), Member(body, "longitude"))
    requires forall j: nat :: Retryable(sources.elevation(j))
    ensures var x := Handle(body, sources, predict);
      && x.response == ServerError && x.predictorCalls == []
      && x.fetches[0] == FetchResult(None, 3, [2000, 4000, 8000])
  {
    ExhaustedReturnsNull(DefaultRetries, DefaultBackoff, sources.elevation);
    DefaultBudget(sources.elevation);
  }

  /** With the normalizer's `find` callback reading `d?.range`, the soil
      readings never abort the record. */
  lemma GuardedSoilNeverAborts(soilProps: Json)
    ensures SoilReadings(name => MeanFromPropertyGuarded(Some(soilProps), name), SoilFields).Normal?
  {
  }
}
