# agri-predict server core, modelled in Dafny

The server of agri-predict takes a coordinate and gathers three things about it from remote geodata
services: elevation (Open-Elevation), one day of weather (NASA POWER) and soil chemistry
(SoilGrids). It merges them into one flat record, `fetchedData`. If the four inputs of the
nutrient predictor (temperature, humidity, soil pH, rainfall) are all present, it calls the
predictor and answers with the record and the prediction.

This project models that core, which is all in `server/index.js`:

- `fetchData`, the retry loop every request goes through (module `Fetcher`, `fetcher.dfy`). The
  model is an imperative method, `FetchData`, proved equal to a recursive reference definition,
  `Fetch`. The method's input is the outcome of each request, and it records the number of
  requests it issued and the waits it slept.
- `getMeanFromProperty`, the soil normalizer (module `Soil`, `soil.dfy`): a pure function over
  JSON values.
- The `/api/get-data` handler (module `GetData`, `handler.dfy`). Two pure functions model it:
  - `Respond` covers everything after the fetches: payload checks, record, completeness guard,
    predictor call.
  - `Handle` covers the whole request: destructuring the body, the coordinate check, the three
    fetches and then `Respond`.
  The predictor is a function parameter. Every call the handler makes to it is recorded in the
  result, so "the predictor was not called" is a property of that result.
- The JavaScript semantics these rely on (module `Js`, `js.dfy`):
  - JSON values;
  - `undefined` (as `None`);
  - truthiness;
  - property reads with and without `?.`;
  - `??`;
  - the TypeError thrown by reading a property of `null`.

Points where the code behaves differently than a reader might expect, and the model follows it:

- `getMeanFromProperty` answers `null` after each of its own shape checks. But its `find` callback
  reads `d.range` without `?.`, so a `null` entry in `depths` before the first `0-5cm` entry
  throws a TypeError, and the handler answers 500. `Soil.ThrowsOnlyOnNullEntry` and
  `Soil.NullEntryThrows` state this; "## Findings" records it with a corrected normalizer.
- The record `fetchedData` has 20 keys: latitude and longitude, elevation, the three weather
  readings (`temperature`, `humidity`, `rainfall`) and 14 soil readings (`phh2o`, `soc`, `bdod`,
  `clay`, `sand`, `silt`, `cec`, `ocd`, `nitrogen_soil`, `wv1500`, `cfvo`, `wv0033`, `wv0010`,
  `ocs`).
- `elevation` is `results[0].elevation` read as it is, so it can be `undefined`. The weather
  readings are whatever the source sent under that date (`?? null`), not necessarily numbers.
- A `latitude` or `longitude` of `0` is falsy and is rejected with 400.

## Model

| member | source | states |
|---|---|---|
| `Fetcher.FetchFrom` | server/index.js:18-36 | the loop from a given iteration on: no request once the budget is used up; otherwise at least one more request; at most one wait per request |
| `Fetcher.Fetch` | server/index.js:17-37 | a whole call issues no request exactly when `retries` is not positive, and sleeps at most once per request |
| `Fetcher.FetchData` | server/index.js:17-37 | the loop's result, request count and waits are those of the reference definition `Fetch`, for every sequence of request outcomes |
| `Fetcher.FetchFromFacts` | server/index.js:18-36 | from any iteration on: the loop stays within the budget; every request but the last got 429 or threw; a body comes back iff the last request got 200; the waits are the doubling backoffs of the retryable requests |
| `Fetcher.AttemptsWithinBudget` | server/index.js:18-36 | at most `retries` requests; with `retries <= 0` no request, no wait and `null` |
| `Fetcher.BodyOnlyFrom200` | server/index.js:20-22 | the body comes back (possibly JSON `null`) exactly when the last request issued got 200, and it is that request's body (no request follows a 200) |
| `Fetcher.RetriesOnlyAfterRetryable` | server/index.js:18-35 | every request before the last got 429 or threw; the loop ends before its budget only on a status other than 429 |
| `Fetcher.WaitsDouble` | server/index.js:23-34 | the i-th wait is `backoffFactor * 2^i` with no cap; one wait per request, the last included, except after a final status that ends the loop |
| `Fetcher.NonRetryableStops` | server/index.js:27-29 | a status other than 200 and 429 after k retryable outcomes ends the call with `null` after k+1 requests and k waits |
| `Fetcher.SucceedsAt` | server/index.js:20-22 | a 200 after k retryable outcomes returns that body after k+1 requests and k waits |
| `Fetcher.ExhaustedReturnsNull` | server/index.js:31-36 | when every request within the budget gets 429 or throws: `null` after `retries` requests and `retries` waits |
| `Fetcher.RateLimitedTwiceThenOk` | server/index.js:17-37 | 429, 429, 200 with the defaults: three requests, the body, waits 2000 and 4000 ms |
| `Fetcher.AlwaysFailingSource` | server/index.js:31-36 | a source that always throws: three requests, `null`, waits 2000, 4000 and 8000 ms |
| `Fetcher.NotFoundIsFinal` | server/index.js:27-29 | a 404 is not retried: one request, `null`, no wait |
| `Soil.FindTopDepth` | server/index.js:47 | the index found is the first `0-5cm` entry with no `null` entry before it; no index means no `0-5cm` entry and no `null` entry; a throw means a `null` entry before any `0-5cm` entry |
| `Soil.DepthsOf` | server/index.js:41-45 | the normalizer looks at a `depths` array only when the property is truthy and its `depths` is an array |
| `Soil.NumericMean` | server/index.js:48-53 | a mean is taken exactly when `values?.mean` is a number, and it is that number |
| `Soil.MeanFromProperty` | server/index.js:40-54 | no usable `depths` gives `null`; a throw needs a `null` entry in `depths`; a number is the numeric mean of a `0-5cm` entry |
| `Soil.NoDepthsIsNull` | server/index.js:41-45 | a missing or falsy property, or one whose `depths` is not an array, gives `null` |
| `Soil.FirstTopDepthDecides` | server/index.js:47-53 | the first `0-5cm` entry decides: its numeric mean, otherwise `null`, whatever later entries hold |
| `Soil.NoTopDepthIsNull` | server/index.js:47-51 | no `0-5cm` entry (and no `null` entry) gives `null` |
| `Soil.ThrowsOnlyOnNullEntry` | server/index.js:47 | the normalizer throws exactly when `depths` holds a `null` entry before its first `0-5cm` entry |
| `Soil.NumberOnlyFromFirstTopDepth` | server/index.js:47-53 | a number comes back only as the numeric mean of the first `0-5cm` entry |
| `Soil.LaterValidEntryIgnored` | server/index.js:47-51 | a first `0-5cm` entry with a non-numeric mean gives `null` although a later one is valid |
| `Soil.NullEntryThrows` | server/index.js:47 | a `null` entry ahead of the `0-5cm` entry makes the normalizer throw |
| `Soil.FindTopDepthGuarded` | server/index.js:47 | with `d?.range`, the index found is the first `0-5cm` entry; none found means no `0-5cm` entry; a `null` entry never matches |
| `Soil.MeanFromPropertyGuarded` | server/index.js:40-54 | the normalizer with `d?.range` never throws |
| `Soil.GuardedFirstTopDepth` | server/index.js:40-54 | with `d?.range` and a `depths` array: the first `0-5cm` entry's numeric mean, or `null` when there is no `0-5cm` entry, whatever `null` entries it holds |
| `Soil.FindTopDepthAgrees` | server/index.js:47 | wherever `find` as written does not throw, the guarded `find` returns the same entry |
| `Soil.GuardedAgrees` | server/index.js:40-54 | the guarded normalizer gives the same answer as the one as written wherever that one does not throw |
| `Soil.NullEntrySkipped` | server/index.js:47 | on the input where the one as written throws, the guarded normalizer returns the `0-5cm` mean |
| `GetData.Elevation` | server/index.js:92-93 | a payload without a non-empty `results` is an error; otherwise a nullish `results[0]` is a TypeError, and any other first result yields its `elevation` |
| `GetData.ElevationOfResults` | server/index.js:92-93 | an empty `results` array is an error; otherwise the elevation is `results[0].elevation` |
| `GetData.Reading` | server/index.js:98-100 | a missing, `null`, numeric or boolean series reads as `null` |
| `GetData.ReadingOfSeries` | server/index.js:98-100 | a metric series yields its `20240101` entry, or `null` when that entry is absent or `null` |
| `GetData.WeatherOf` | server/index.js:96-100 | the weather payload is rejected exactly when `properties.parameter` is falsy |
| `GetData.WeatherFromSeries` | server/index.js:96-100 | temperature comes from the `T2M` series, humidity from `RH2M` and rainfall from `PRECTOTCORR`, each at `20240101`, or `null` when that day is absent |
| `GetData.SoilProperties` | server/index.js:103-107 | the soil payload is rejected exactly when `properties` is falsy; otherwise the container is `properties` |
| `GetData.SoilReadings` | server/index.js:118-131 | one reading per soil field, each the normalizer's number or `null` for that field's property; the record is abandoned exactly when some call throws |
| `GetData.BuildRecord` | server/index.js:111-132 | the record has all fourteen soil fields |
| `GetData.Gather` | server/index.js:91-132 | a record exists only for well-formed payloads, has all soil fields, and copies the coordinate |
| `GetData.InputForML` | server/index.js:134-139 | the predictor input is temperature, humidity and rainfall from the record, and `ph` from its `phh2o` key |
| `GetData.Complete` | server/index.js:141-146 | the input is complete exactly when none of its four values is `null` |
| `GetData.Respond` | server/index.js:134-156 | at most one predictor call, only with all four inputs non-null; a 400 for missing inputs carries an incomplete input and calls nothing; a 200 carries a full record |
| `GetData.Handle` | server/index.js:56-157 | a `null` body is a 500 with nothing fetched; a rejected coordinate means no fetch and no predictor call; otherwise the three sources are fetched in order with the default budget and the answer and predictor calls are those `Respond` gives for their results |
| `GetData.CoordinatesRequired` | server/index.js:58-61 | 400 exactly when latitude or longitude is falsy, with nothing fetched or predicted |
| `GetData.ZeroLatitudeRejected` | server/index.js:59-60 | latitude 0 is rejected like a missing one |
| `GetData.DefaultBudget` | server/index.js:87-89 | each source gets at most three requests and waits of 2000, 4000, 8000 ms |
| `GetData.SourcesWithinBudget` | server/index.js:86-89 | every fetch the handler makes stays within that budget |
| `GetData.MalformedPayloadIsServerError` | server/index.js:92-107 | no non-empty `results`, no `properties.parameter` or no `properties`: 500 and no predictor call |
| `GetData.FailedFetchIsMalformed` | server/index.js:92-104 | a failed fetch (`null`) of any source counts as a malformed payload |
| `GetData.RecordFields` | server/index.js:98-132 | the record's 20 keys: coordinate copied, the elevation, temperature from `T2M`, humidity from `RH2M`, rainfall from `PRECTOTCORR`, each soil field from its property (`nitrogen_soil` from `nitrogen`) |
| `GetData.RecordAbandoned` | server/index.js:91-132 | 500 exactly when a payload is malformed, the first elevation result is `null`, or a soil normalizer call throws |
| `GetData.PredictorCalledExactlyWhenComplete` | server/index.js:134-156 | the predictor is called, once, exactly when the record exists and all four inputs are non-null; otherwise 400 carrying the input, or 500; a rejected prediction is a 500 |
| `GetData.ElevationSourceDownIsServerError` | server/index.js:87-156 | an elevation source failing on every request: three requests, waits 2000, 4000 and 8000 ms, then 500 and no predictor call |
| `GetData.GuardedSoilNeverAborts` | server/index.js:118-131 | with the guarded normalizer the soil readings never abort the record |

## Findings

| source | as written | input that shows it | evidently intended | confidence | as-written member | corrected member |
|---|---|---|---|---|---|---|
| server/index.js:47 | the `find` callback reads `d.range`, which throws a TypeError on a `null` entry of `depths`; the handler then answers 500 | `depths` = `[null, {range: "0-5cm", values: {mean: 6.5}}]` | the normalizer answers `null` or a number and never throws, like every other shape check it makes (`d?.range`) | medium, not executed | `Soil.NullEntryThrows` | `Soil.MeanFromPropertyGuarded` (with `Soil.GuardedAgrees`, `Soil.NullEntrySkipped`) |

The handler model keeps the normalizer as written, so that it answers what the server answers.
`GetData.GuardedSoilNeverAborts` states what the correction would change: the soil readings would
then never abort the record.

## Left out

- Express, body-parser and CORS setup, and `app.listen` (server/index.js:1-11, 160-162). This
  is HTTP plumbing. The JSON serialization of the answer is left out too; it would drop an
  `undefined` elevation.
- The HTTP client, with its URLs, query parameters and timeouts (server/index.js:63-84; the
  soil call's 30000 ms). A request is represented only by its outcome: a status with a body,
  or a thrown error, which is how a timeout shows up. axios's own status validation is not
  modelled. The branches are modelled exactly as the code writes them. Building the query
  parameters converts the coordinate to a string (`${latitude},${longitude}`, server/index.js:69).
  That conversion throws a TypeError, and the server then answers 500 without fetching anything,
  when the coordinate is an object with its own `toString` key (no JSON value is a function), for
  example `{"toString": 1}`, or an array that holds such an object, directly or in nested arrays. The model
  does not capture this: `GetData.Handle` fetches the three sources for such a coordinate.
- `sleep` and `setTimeout`: the waits are recorded, not slept.
- `console` logging throughout: it has no effect on any result.
- The three fetches are awaited one after another. Their order does not affect the result, so
  it is recorded but not otherwise modelled.
- `predictNPK` (server/prediction.js), the Python predictor (server/predict.py) and the manual
  script server/test-predict.js. These are not part of this model. The predictor is an
  abstract function from the four inputs to a resolved value or a rejection.
- The React client (client/src) and its HTTP wrapper are not part of this model.
- `Fetcher.FetchData`: `retries` and `backoffFactor` are integers. A fractional `retries` and
  floating-point `Math.pow` are not modelled. Both are exact for the handler's values 3 and 2000.
- JavaScript numbers are carried as the reals their JSON literals denote, without rounding to
  doubles. A literal that rounds to 0 (such as `1e-999`) is truthy in the model, but falsy in the
  server, which would reject it as a coordinate. `-0` and a literal that overflows to Infinity
  behave alike in both.
- Inherited (prototype) properties of parsed values are not modelled, apart from `length` of
  arrays and strings. None of the keys the handler reads through property access is inherited.
  The string conversion of the coordinate does read inherited methods (see the HTTP client line
  above).
