/**
 * Metric records in the OTLP/JSON layout and the export envelope, as built by
 * `createMetric` and `sendMetricToGrafana` in src/metrics.js.
 *
 * A plain JS object used as an attribute map is a sequence of `Attr` entries
 * in insertion order (the order `Object.keys` enumerates it).
 */
module Records {
  import opened Wrappers

  /** One property of an attribute object: its key and its string value. */
  datatype Attr = Attr(key: string, value: string)

  /** OTLP `AnyValue`; only the `stringValue` form is ever produced. */
  datatype AnyValue = AnyValue(stringValue: string)

  /** A rendered attribute, `{ key, value: { stringValue } }`. */
  datatype KeyValue = KeyValue(key: string, value: AnyValue)

  /**
   * OTLP `NumberDataPoint`. `valueType` is the property name under which the
   * value is stored (`asInt` or `asDouble`).
   */
  datatype DataPoint = DataPoint(valueType: string, value: int, timeUnixNano: nat, attributes: seq<KeyValue>)

  /**
   * The object stored under the metric-type property (`sum`, `gauge`, ...);
   * the two optional fields are present only on a `sum`.
   */
  datatype Series = Series(dataPoints: seq<DataPoint>, aggregationTemporality: Option<string>, isMonotonic: Option<bool>)

  /** One metric record; `metricType` is the name of the property holding `series`. */
  datatype Metric = Metric(name: string, unit: string, metricType: string, series: Series)

  /** `{ resourceMetrics: [ { scopeMetrics: [ { metrics } ] } ] }` */
  datatype ScopeMetrics = ScopeMetrics(metrics: seq<Metric>)
  datatype ResourceMetrics = ResourceMetrics(scopeMetrics: seq<ScopeMetrics>)
  datatype Envelope = Envelope(resourceMetrics: seq<ResourceMetrics>)

  const SourceKey := "source"
  const SumType := "sum"
  const Cumulative := "AGGREGATION_TEMPORALITY_CUMULATIVE"
  const NanosPerMilli := 1000000

  // ---------------------------------------------------------------------------
  // Attribute objects

  /** The keys of an attribute object, in enumeration order. */
  function Keys(attrs: seq<Attr>): seq<string>
  {
    if attrs == [] then [] else [attrs[0].key] + Keys(attrs[1..])
  }

  /** The value stored under `key`, if the object has that property. */
  function Lookup(attrs: seq<Attr>, key: string): Option<string>
  {
    if attrs == [] then None
    else if attrs[0].key == key then Some(attrs[0].value)
    else Lookup(attrs[1..], key)
  }

  /** No key occurs twice (always so for the keys of a JS object). */
  predicate Distinct(ks: seq<string>)
  {
    forall i, j :: 0 <= i < j < |ks| ==> ks[i] != ks[j]
  }

  /**
   * `{ ...attrs, [key]: value }`: an existing property keeps its position and
   * takes the new value; a new property is appended at the end.
   */
  function Assign(attrs: seq<Attr>, key: string, value: string): (r: seq<Attr>)
    ensures Lookup(r, key) == Some(value)
    ensures forall k :: k != key ==> Lookup(r, k) == Lookup(attrs, k)
    ensures Keys(r) == if key in Keys(attrs) then Keys(attrs) else Keys(attrs) + [key]
  {
    if attrs == [] then [Attr(key, value)]
    else if attrs[0].key == key then [Attr(key, value)] + attrs[1..]
    else [attrs[0]] + Assign(attrs[1..], key, value)
  }

  /** Appending a key that is not yet present keeps the keys distinct. */
  lemma AppendDistinct(ks: seq<string>, key: string)
    requires Distinct(ks) && key !in ks
    ensures Distinct(ks + [key])
  {
  }

  // ---------------------------------------------------------------------------
  // Attribute rendering

  /** One attribute property as a rendered `{ key, value: { stringValue } }`. */
  function Cell(a: Attr): KeyValue
  {
    KeyValue(a.key, AnyValue(a.value))
  }

  /** The keys of a rendered attribute list. */
  function CellKeys(kvs: seq<KeyValue>): seq<string>
  {
    if kvs == [] then [] else [kvs[0].key] + CellKeys(kvs[1..])
  }

  /** The string value rendered under `key`, if any. */
  function Find(kvs: seq<KeyValue>, key: string): Option<string>
  {
    if kvs == [] then None
    else if kvs[0].key == key then Some(kvs[0].value.stringValue)
    else Find(kvs[1..], key)
  }

  /**
   * Renders an attribute object property by property, in its key order. The
   * rendered list has the object's keys in the same order and answers every
   * lookup as the object does.
   */
  function Render(attrs: seq<Attr>): (r: seq<KeyValue>)
    ensures |r| == |attrs|
    ensures CellKeys(r) == Keys(attrs)
    ensures forall k :: Find(r, k) == Lookup(attrs, k)
  {
    if attrs == [] then [] else [Cell(attrs[0])] + Render(attrs[1..])
  }

  /** Rendering one more property appends one more cell. */
  lemma {:induction false} RenderSnoc(attrs: seq<Attr>, a: Attr)
    ensures Render(attrs + [a]) == Render(attrs) + [Cell(a)]
  {
    if attrs != [] {
      assert (attrs + [a])[1..] == attrs[1..] + [a];
      RenderSnoc(attrs[1..], a);
    }
  }

  // ---------------------------------------------------------------------------
  // createMetric

  /**
   * The record `createMetric` returns: one data point holding `value` under
   * `valueType`, stamped `nowMs * 1000000`, whose attributes are the caller's
   * with `source` assigned; a `sum` also carries the cumulative and monotonic
   * flags.
   */
  function CreateMetric(name: string, value: int, unit: string, metricType: string, valueType: string,
                        attrs: seq<Attr>, source: string, nowMs: nat): Metric
  {
    var point := DataPoint(valueType, value, nowMs * NanosPerMilli, Render(Assign(attrs, SourceKey, source)));
    Metric(name, unit, metricType,
           if metricType == SumType then Series([point], Some(Cumulative), Some(true))
           else Series([point], None, None))
  }

  /** The shape of a record: its header, its single data point and the sum-only flags. */
  lemma CreateMetricShape(name: string, value: int, unit: string, metricType: string, valueType: string,
                          attrs: seq<Attr>, source: string, nowMs: nat)
    ensures var m := CreateMetric(name, value, unit, metricType, valueType, attrs, source, nowMs);
      && m.name == name && m.unit == unit && m.metricType == metricType
      && |m.series.dataPoints| == 1
      && m.series.dataPoints[0].valueType == valueType
      && m.series.dataPoints[0].value == value
      && m.series.dataPoints[0].timeUnixNano == nowMs * 1000000
      && (m.series.aggregationTemporality == Some(Cumulative) <==> metricType == "sum")
      && (m.series.isMonotonic == Some(true) <==> metricType == "sum")
      && (metricType != "sum" ==> m.series.aggregationTemporality == None && m.series.isMonotonic == None)
  {
  }

  /**
   * The attributes of a record: `source` renders as the configured source,
   * every other key as the caller gave it; the keys are the caller's, in
   * order, with `source` appended only when the caller did not supply it;
   * distinct keys stay distinct, so `source` is overridden, never duplicated.
   */
  lemma CreateMetricAttributes(name: string, value: int, unit: string, metricType: string, valueType: string,
                               attrs: seq<Attr>, source: string, nowMs: nat)
    ensures var pts := CreateMetric(name, value, unit, metricType, valueType, attrs, source, nowMs).series.dataPoints;
      && |pts| == 1
      && Find(pts[0].attributes, "source") == Some(source)
      && (forall k :: k != "source" ==> Find(pts[0].attributes, k) == Lookup(attrs, k))
      && CellKeys(pts[0].attributes) == (if "source" in Keys(attrs) then Keys(attrs) else Keys(attrs) + ["source"])
      && (Distinct(Keys(attrs)) ==> Distinct(CellKeys(pts[0].attributes)))
  {
    if Distinct(Keys(attrs)) && SourceKey !in Keys(attrs) {
      AppendDistinct(Keys(attrs), SourceKey);
    }
  }

  /**
   * `createMetric` as the source runs it: build the record with an empty
   * attribute list, push the rendered attributes one by one, then tag a
   * `sum` as cumulative and monotonic.
   */
  method BuildMetric(name: string, value: int, unit: string, metricType: string, valueType: string,
                     attrs: seq<Attr>, source: string, nowMs: nat) returns (m: Metric)
    ensures m == CreateMetric(name, value, unit, metricType, valueType, attrs, source, nowMs)
  {
    var merged := Assign(attrs, SourceKey, source);
    var point := DataPoint(valueType, value, nowMs * NanosPerMilli, []);
    var i := 0;
    while i < |merged|
      invariant 0 <= i <= |merged|
      invariant point == DataPoint(valueType, value, nowMs * NanosPerMilli, Render(merged[..i]))
    {
      assert merged[..i + 1] == merged[..i] + [merged[i]];
      RenderSnoc(merged[..i], merged[i]);
      point := point.(attributes := point.attributes + [Cell(merged[i])]);
      i := i + 1;
    }
    assert merged[..i] == merged;
    var series := Series([point], None, None);
    if metricType == SumType {
      series := series.(aggregationTemporality := Some(Cumulative), isMonotonic := Some(true));
    }
    m := Metric(name, unit, metricType, series);
  }

  // ---------------------------------------------------------------------------
  // The export envelope

  /** The metric list an envelope carries, if it has the one-resource, one-scope shape. */
  function Unwrap(body: Envelope): Option<seq<Metric>>
  {
    if |body.resourceMetrics| == 1 && |body.resourceMetrics[0].scopeMetrics| == 1
    then Some(body.resourceMetrics[0].scopeMetrics[0].metrics)
    else None
  }

  /** The request body of `sendMetricToGrafana`: the list, unchanged, in one resource and one scope. */
  function Wrap(metrics: seq<Metric>): (body: Envelope)
    ensures Unwrap(body) == Some(metrics)
  {
    Envelope([ResourceMetrics([ScopeMetrics(metrics)])])
  }

  /** An envelope whose single scope holds `metrics` is exactly the one `Wrap` builds. */
  lemma UnwrapOnlyWrap(body: Envelope, metrics: seq<Metric>)
    requires Unwrap(body) == Some(metrics)
    ensures body == Wrap(metrics)
  {
    var rm := body.resourceMetrics[0];
    assert rm == ResourceMetrics([ScopeMetrics(metrics)]);
    assert body.resourceMetrics == [rm];
  }
}
