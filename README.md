# Request metrics of jwt-pizza-service, in Dafny

This project models the request-metrics code of the pizza service
(`src/metrics.js`) and proves properties of that model. The code has three
parts:

- **Request counter.** A process-wide object `requests` maps an endpoint key
  `[METHOD] path` to a count. The `requestTracker` middleware adds one to the
  entry of each incoming request. It creates the entry on first sight.
- **Flush.** Every ten seconds the timer turns the object into a batch. The
  batch has one `requests` metric per key: a cumulative, monotonic `sum` with
  one `asInt` data point and the attribute `endpoint`. Counts are never reset,
  so each flush reports running totals.
- **Rendering.** `createMetric` builds one OTLP/JSON metric record. It adds
  the configured `source` to the caller's attributes and renders each
  attribute as `{ key, value: { stringValue } }`. `sendMetricToGrafana` wraps
  the batch as `resourceMetrics[0].scopeMetrics[0].metrics`. This follows the
  OpenTelemetry metrics data model (OTLP/JSON `Sum`/`Gauge` with
  `NumberDataPoint`).

Files:

- `wrappers.dfy` holds the `Option` type.
- `records.dfy` (module `Records`) holds the record and envelope datatypes,
  `createMetric` as a function (`CreateMetric`), its loop version as a method
  (`BuildMetric`), and the envelope (`Wrap`/`Unwrap`).
- `tracking.dfy` (module `RequestTracking`) holds the `requests` object as the
  class `RequestCounter`, with `Track` (`requestTracker`), `Flush` (the
  interval body up to the send) and `Tick` (flush plus envelope). It also
  holds the pure functions those methods are proved against (`Bump`, `Replay`,
  `FlushBatch`) and the lemmas about them.

A JS object is modelled in its key-enumeration order. The attribute object
is a sequence of `Attr` entries. `Assign` is property assignment: an existing
key keeps its place and takes the new value, and a new key goes last. The
`requests` object is a key sequence `endpoints` (the order `Object.keys`
lists them) plus a map `counts`. The clock readings `Date.now()` and
`config.source` are parameters. `createMetric` reads the clock once per
record, so a flush takes one reading per key (`stamps`), and record i is
stamped with `stamps[i]`.

Two facts about the code:

- The counter key uses the raw `req.path` (src/metrics.js:10). So
  `/api/user/1` and `/api/user/2` are counted separately
  (`RawPathsCountSeparately`).
- A flush with no recorded requests still sends an envelope, with an empty
  list. The file counts requests only.

## Model

| member | source | states |
|---|---|---|
| `Records.Assign` | src/metrics.js:26 | `{ ...attributes, source }`: the result maps `source` to the new value and every other key to its old value; the key order is unchanged when `source` was present, otherwise `source` is appended |
| `Records.Render` | src/metrics.js:42-47 | the rendered attribute list has the object's keys in its order and gives the same value as the object for every key |
| `Records.CreateMetric` | src/metrics.js:25-55 | the record `createMetric` returns; its contract is carried by `CreateMetricShape` and `CreateMetricAttributes` below, and `BuildMetric` is proved equal to it |
| `Records.CreateMetricShape` | src/metrics.js:28-52 | a record keeps name, unit and type; it has exactly one data point, holding the value under `valueType`, stamped `nowMs * 1000000`; it carries `AGGREGATION_TEMPORALITY_CUMULATIVE` and `isMonotonic = true` exactly when the type is `sum`, and neither field otherwise |
| `Records.CreateMetricAttributes` | src/metrics.js:26-47 | the point's attributes give `source` as the configured source and every other key as the caller gave it; keys are the caller's in order with `source` appended only if absent; distinct keys stay distinct, so a caller's `source` is overridden, not duplicated |
| `Records.BuildMetric` | src/metrics.js:25-55 | the push loop plus the conditional `sum` tagging yields exactly the record `CreateMetric` describes |
| `Records.Wrap` | src/metrics.js:59-69 | the request body holds one resource with one scope whose `metrics` is the input list, unchanged and in order |
| `Records.UnwrapOnlyWrap` | src/metrics.js:59-69 | any envelope with one resource and one scope holding a list is exactly the body built from that list |
| `RequestTracking.EndpointKey` | src/metrics.js:10 | the key `[METHOD] path`; its contract is carried by `EndpointKeyRoundTrip` and `EndpointKeyInjective` |
| `RequestTracking.EndpointKeyRoundTrip` | src/metrics.js:10 | a key `[METHOD] path` whose method has no `]` parses back to that method and path |
| `RequestTracking.EndpointKeyInjective` | src/metrics.js:10 | requests that differ in method or raw path get different keys |
| `RequestTracking.RawPathsCountSeparately` | src/metrics.js:10-11 | requests to `/api/user/1` and `/api/user/2` give two entries of count one each |
| `RequestTracking.CountOf` | src/metrics.js:11 | `requests[k] \|\| 0`: a missing key reads as 0; its contract is carried by `Bump` |
| `RequestTracking.Bump` | src/metrics.js:11 | `(requests[k] \|\| 0) + 1`: the observed key's count rises by one (a missing key counts as 0, so first sight gives 1), no other count changes, and the key set gains only that key |
| `RequestTracking.ReplayCounts` | src/metrics.js:9-13 | after a series of requests, each key's count is its old count plus the number of requests with that key |
| `RequestTracking.ReplayGrows` | src/metrics.js:6-13 | no series of requests lowers any count |
| `RequestTracking.RequestCounter.constructor` | src/metrics.js:6 | the object starts empty |
| `RequestTracking.RequestCounter.Track` | src/metrics.js:9-13 | the request's entry becomes old value plus one (created, last in key order, on first sight); every other entry and the key order are kept; the invariant (distinct keys, keys = counted keys, counts at least 1) is preserved |
| `RequestTracking.RequestCounter.Flush` | src/metrics.js:17-20 | the loop returns `FlushBatch` of the current object and the clock readings: one `requests` record per key, in key order, record i stamped with the i-th reading; the object is not changed |
| `RequestTracking.RequestCounter.Tick` | src/metrics.js:16-22 | the body sent on a tick is the envelope around the flush batch |
| `RequestTracking.RequestsMetric` | src/metrics.js:19 | the `createMetric('requests', count, '1', 'sum', 'asInt', { endpoint })` call; its contract is carried by `RequestsMetricLayout` |
| `RequestTracking.FlushBatch` | src/metrics.js:17-20 | the batch of one flush, one record per key with its own clock reading; its contract is carried by `FlushBatchRecords` |
| `RequestTracking.RequestsMetricLayout` | src/metrics.js:19 | the record for one endpoint is named `requests` with unit `1`; it is a cumulative monotonic `sum` with one `asInt` point holding the count, stamped `nowMs * 1000000`, with attributes `endpoint` then `source` |
| `RequestTracking.FlushBatchRecords` | src/metrics.js:17-20 | the batch has as many records as the object has keys; record i is the `requests` record of key i and its count, stamped `stamps[i] * 1000000`; no two records share an endpoint; every key has a record |
| `RequestTracking.ExportedCountOfBatch` | src/metrics.js:17-20 | a batch reports, for a listed endpoint, that endpoint's count, and nothing for an unlisted one |
| `RequestTracking.FlushReportsTotals` | src/metrics.js:6-20 | a flush reports each key's running total, and nothing for a key never seen |
| `RequestTracking.FlushMonotone` | src/metrics.js:6-23 | if counts only grew between two flushes, every endpoint reported by the first is reported by the second with a value at least as high |

## Left out

- The HTTP push in `sendMetricToGrafana` (src/metrics.js:71-83) is left out. This covers `fetch`, the bearer and JSON headers, `JSON.stringify`, the `response.ok` check and the `.catch` logging. It is network I/O with no effect on the model's state: a failure is logged and the batch is dropped.
- `setInterval` and its 10-second cadence (src/metrics.js:16, 23) are left out. They are event-loop scheduling. One tick is the method `Tick`, which the caller invokes.
- `Date.now()` and the loading of `config` (src/metrics.js:1-3, 35) are parameters: `nowMs` for one record, `stamps` (one reading per key) for a flush, and `source`. Nothing is assumed about how the readings of one flush relate to each other.
- `console.log` and `console.error` (src/metrics.js:58, 82) are logging only.
- `RequestTracking.RequestCounter.Track`: the call to `next()` is not modelled. The method has one path with no early exit, which stands for the single continuation. Invoking the rest of the Express pipeline is outside this code.
- JS numbers are doubles. Counts, values and `nowMs * 1000000` are unbounded integers here, and `asDouble` values are not modelled. For counts, precision is lost only above 2^53. The timestamp product is different: for present-day readings (about 1.76e12 ms) it is about 1.76e18, far above 2^53. The double product is then rounded to a multiple of 256 and differs from the exact value by up to 128 ns, for most readings. The exact `nowMs * 1000000` stated by `Records.CreateMetricShape` and `RequestTracking.RequestsMetricLayout` is the unrounded value.
- JS enumerates integer-like property names before the others. The model keeps plain insertion order for attribute objects. Endpoint keys always start with `[`, so the counter object is unaffected.
- `metricType` and `valueType` become computed property names. A `metricType` of `name` or `unit`, or a `valueType` of `timeUnixNano` or `attributes`, would overwrite another property. The model keeps them as separate fields. The only caller passes `sum` and `asInt`.
- Attribute values are strings. A non-string `config.source` (for example `undefined`, which JSON drops) is not modelled.
- src/routes/userRouter.js, src/makeJwt.js, the test helpers and the tests are not part of this model. They are HTTP and database wiring, a token script, and integration tests.
