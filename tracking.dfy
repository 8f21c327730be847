/**
 * The process-wide `requests` object of src/metrics.js, the `requestTracker`
 * middleware that counts into it and the interval body that turns it into a
 * batch of `requests` metrics.
 */
module RequestTracking {
  import opened Wrappers
  import opened Records

  /** The parts of an incoming request the middleware reads. */
  datatype Request = Request(verb: string, path: string)

  const RequestsName := "requests"
  const CountUnit := "1"
  const IntValue := "asInt"
  const EndpointAttr := "endpoint"

  // ---------------------------------------------------------------------------
  // Endpoint keys

  /** The counter key `[METHOD] path`, built from the raw request path. */
  function EndpointKey(req: Request): string
  {
    "[" + req.verb + "] " + req.path
  }

  /** The first position of `c` in `s`, if any. */
  function IndexOf(s: string, c: char): (r: Option<nat>)
    ensures r.Some? ==> r.value < |s| && s[r.value] == c && c !in s[..r.value]
    ensures r.None? ==> c !in s
  {
    if s == [] then None
    else if s[0] == c then Some(0)
    else match IndexOf(s[1..], c)
      case None => None
      case Some(i) => assert s[1..][..i] == s[1..i + 1]; Some(i + 1)
  }

  /** Reads a counter key back into the method and path it was built from. */
  function ParseEndpointKey(key: string): Option<Request>
  {
    if |key| == 0 || key[0] != '[' then None
    else
      var rest := key[1..];
      match IndexOf(rest, ']')
      case None => None
      case Some(i) =>
        if i + 1 < |rest| && rest[i + 1] == ' ' then Some(Request(rest[..i], rest[i + 2..])) else None
  }

  /** `IndexOf` finds the first occurrence wherever it is. */
  lemma {:induction false} IndexOfFirst(s: string, c: char, n: nat)
    requires n < |s| && s[n] == c && c !in s[..n]
    ensures IndexOf(s, c) == Some(n)
  {
    if n > 0 {
      assert s[0] in s[..n];
      assert s[1..][..n - 1] == s[1..n];
      IndexOfFirst(s[1..], c, n - 1);
    }
  }

  /** A key whose method has no `]` reads back as the request it came from. */
  lemma EndpointKeyRoundTrip(req: Request)
    requires ']' !in req.verb
    ensures ParseEndpointKey(EndpointKey(req)) == Some(req)
  {
    var rest := EndpointKey(req)[1..];
    var n := |req.verb|;
    assert rest == req.verb + "] " + req.path;
    assert rest[..n] == req.verb;
    assert rest[n + 2..] == req.path;
    IndexOfFirst(rest, ']', n);
  }

  /** Requests with different methods or different raw paths are counted under different keys. */
  lemma EndpointKeyInjective(a: Request, b: Request)
    requires ']' !in a.verb && ']' !in b.verb
    requires a != b
    ensures EndpointKey(a) != EndpointKey(b)
  {
    EndpointKeyRoundTrip(a);
    EndpointKeyRoundTrip(b);
  }

  // ---------------------------------------------------------------------------
  // Counts

  /** `requests[key] || 0`: a key never seen counts as zero. */
  function CountOf(counts: map<string, nat>, key: string): nat
  {
    if key in counts then counts[key] else 0
  }

  /** One observation of `key`: its count goes up by one, every other count stays. */
  function Bump(counts: map<string, nat>, key: string): (r: map<string, nat>)
    ensures CountOf(r, key) == CountOf(counts, key) + 1
    ensures forall k :: k != key ==> CountOf(r, k) == CountOf(counts, k)
    ensures r.Keys == counts.Keys + {key}
  {
    counts[key := CountOf(counts, key) + 1]
  }

  /** The counts after observing `keys` in order. */
  function Replay(counts: map<string, nat>, keys: seq<string>): map<string, nat>
    decreases |keys|
  {
    if keys == [] then counts else Replay(Bump(counts, keys[0]), keys[1..])
  }

  /** Each key's count grows by exactly the number of times it was observed. */
  lemma {:induction false} ReplayCounts(counts: map<string, nat>, keys: seq<string>, key: string)
    ensures CountOf(Replay(counts, keys), key) == CountOf(counts, key) + multiset(keys)[key]
    decreases |keys|
  {
    if keys != [] {
      ReplayCounts(Bump(counts, keys[0]), keys[1..], key);
      assert keys == [keys[0]] + keys[1..];
    }
  }

  /** No count is lower in `after` than in `before`. */
  ghost predicate Grows(before: map<string, nat>, after: map<string, nat>)
  {
    forall k :: CountOf(before, k) <= CountOf(after, k)
  }

  /** Counting never lowers a count: nothing decrements or clears the object. */
  lemma ReplayGrows(counts: map<string, nat>, keys: seq<string>)
    ensures Grows(counts, Replay(counts, keys))
  {
    forall k ensures CountOf(counts, k) <= CountOf(Replay(counts, keys), k) {
      ReplayCounts(counts, keys, k);
    }
  }

  /**
   * Two requests to `/api/user/1` and `/api/user/2` land in two entries of
   * one each: the key holds the raw path, not the route template.
   */
  lemma RawPathsCountSeparately()
    ensures var one := EndpointKey(Request("GET", "/api/user/1"));
      var two := EndpointKey(Request("GET", "/api/user/2"));
      var counts := Replay(map[], [one, two]);
      one != two && CountOf(counts, one) == 1 && CountOf(counts, two) == 1
  {
    var one := EndpointKey(Request("GET", "/api/user/1"));
    var two := EndpointKey(Request("GET", "/api/user/2"));
    EndpointKeyInjective(Request("GET", "/api/user/1"), Request("GET", "/api/user/2"));
    ReplayCounts(map[], [one, two], one);
    ReplayCounts(map[], [one, two], two);
    assert multiset([one, two])[one] == 1;
    assert multiset([one, two])[two] == 1;
  }

  // ---------------------------------------------------------------------------
  // The requests object

  /**
   * The object's keys in enumeration order are distinct and are exactly the
   * counted keys; every stored count is at least one.
   */
  ghost predicate WellFormed(endpoints: seq<string>, counts: map<string, nat>)
  {
    && Distinct(endpoints)
    && (forall k :: k in counts <==> k in endpoints)
    && (forall k :: k in counts ==> counts[k] >= 1)
  }

  // ---------------------------------------------------------------------------
  // The flush batch

  /** The `requests` record the interval body makes for one endpoint. */
  function RequestsMetric(endpoint: string, count: nat, source: string, nowMs: nat): Metric
  {
    CreateMetric(RequestsName, count, CountUnit, SumType, IntValue, [Attr(EndpointAttr, endpoint)], source, nowMs)
  }

  /**
   * The batch of one flush: one `requests` record per key, in key order.
   * `createMetric` reads the clock for every record, so record i carries its
   * own reading `stamps[i]`.
   */
  function FlushBatch(endpoints: seq<string>, counts: map<string, nat>, source: string, stamps: seq<nat>): seq<Metric>
    requires |stamps| == |endpoints|
    requires forall i :: 0 <= i < |endpoints| ==> endpoints[i] in counts
  {
    seq(|endpoints|, i requires 0 <= i < |endpoints| => RequestsMetric(endpoints[i], counts[endpoints[i]], source, stamps[i]))
  }

  /** The `endpoint` attribute of a record's first data point. */
  function EndpointOf(m: Metric): Option<string>
  {
    if |m.series.dataPoints| == 0 then None else Find(m.series.dataPoints[0].attributes, EndpointAttr)
  }

  /** What a batch reports for `endpoint`: the value of the first record tagged with it. */
  function ExportedCount(batch: seq<Metric>, endpoint: string): Option<int>
  {
    if batch == [] then None
    else if EndpointOf(batch[0]) == Some(endpoint) then Some(batch[0].series.dataPoints[0].value)
    else ExportedCount(batch[1..], endpoint)
  }

  /**
   * The exact layout of a `requests` record: name `requests`, unit `1`, a
   * cumulative monotonic `sum` whose one `asInt` point holds `count`, stamped
   * `nowMs * 1000000`, with attributes `endpoint` then `source`.
   */
  ghost predicate IsRequestsRecord(m: Metric, endpoint: string, count: nat, source: string, nowMs: nat)
  {
    && m.name == "requests" && m.unit == "1" && m.metricType == "sum"
    && m.series.aggregationTemporality == Some("AGGREGATION_TEMPORALITY_CUMULATIVE")
    && m.series.isMonotonic == Some(true)
    && |m.series.dataPoints| == 1
    && m.series.dataPoints[0] == DataPoint("asInt", count, nowMs * 1000000,
                                           [KeyValue("endpoint", AnyValue(endpoint)), KeyValue("source", AnyValue(source))])
  }

  lemma RequestsMetricLayout(endpoint: string, count: nat, source: string, nowMs: nat)
    ensures IsRequestsRecord(RequestsMetric(endpoint, count, source, nowMs), endpoint, count, source, nowMs)
    ensures EndpointOf(RequestsMetric(endpoint, count, source, nowMs)) == Some(endpoint)
  {
    var attrs := [Attr(EndpointAttr, endpoint)];
    var merged := [Attr(EndpointAttr, endpoint), Attr(SourceKey, source)];
    assert attrs[1..] == [];
    assert Assign(attrs, SourceKey, source) == [attrs[0]] + Assign([], SourceKey, source) == merged;
    assert merged[1..] == [Attr(SourceKey, source)] && merged[1..][1..] == [];
    var cells := [KeyValue("endpoint", AnyValue(endpoint)), KeyValue("source", AnyValue(source))];
    assert Render(merged) == [Cell(merged[0])] + Render(merged[1..]) == cells;
    assert Find(cells, EndpointAttr) == Some(endpoint);
  }

  /**
   * The batch has one record per key of the object, in key order, each laid
   * out as a `requests` record for that key's count; no two records share an
   * endpoint and every key of the object has its record.
   */
  lemma FlushBatchRecords(endpoints: seq<string>, counts: map<string, nat>, source: string, stamps: seq<nat>)
    requires WellFormed(endpoints, counts) && |stamps| == |endpoints|
    ensures var batch := FlushBatch(endpoints, counts, source, stamps);
      && |batch| == |endpoints|
      && (forall i :: 0 <= i < |batch| ==>
            EndpointOf(batch[i]) == Some(endpoints[i])
            && IsRequestsRecord(batch[i], endpoints[i], counts[endpoints[i]], source, stamps[i]))
      && (forall i, j :: 0 <= i < j < |batch| ==> EndpointOf(batch[i]) != EndpointOf(batch[j]))
      && (forall k :: k in counts ==> exists i :: 0 <= i < |batch| && EndpointOf(batch[i]) == Some(k))
  {
    var batch := FlushBatch(endpoints, counts, source, stamps);
    forall i | 0 <= i < |batch|
      ensures EndpointOf(batch[i]) == Some(endpoints[i])
      ensures IsRequestsRecord(batch[i], endpoints[i], counts[endpoints[i]], source, stamps[i])
    {
      RequestsMetricLayout(endpoints[i], counts[endpoints[i]], source, stamps[i]);
    }
    forall k | k in counts
      ensures exists i :: 0 <= i < |batch| && EndpointOf(batch[i]) == Some(k)
    {
      var i :| 0 <= i < |endpoints| && endpoints[i] == k;
      assert EndpointOf(batch[i]) == Some(k);
    }
  }

  /** A batch reports, for each endpoint, the count of the first listed occurrence of it. */
  lemma {:induction false} ExportedCountOfBatch(endpoints: seq<string>, counts: map<string, nat>,
                                                source: string, stamps: seq<nat>, key: string)
    requires |stamps| == |endpoints|
    requires forall i :: 0 <= i < |endpoints| ==> endpoints[i] in counts
    ensures ExportedCount(FlushBatch(endpoints, counts, source, stamps), key)
            == if key in endpoints then Some(counts[key] as int) else None
  {
    if endpoints != [] {
      var batch := FlushBatch(endpoints, counts, source, stamps);
      assert batch[1..] == FlushBatch(endpoints[1..], counts, source, stamps[1..]);
      RequestsMetricLayout(endpoints[0], counts[endpoints[0]], source, stamps[0]);
      ExportedCountOfBatch(endpoints[1..], counts, source, stamps[1..], key);
      assert key in endpoints <==> key == endpoints[0] || key in endpoints[1..];
    }
  }

  /** A flush reports each key's running total, and nothing for a key never seen. */
  lemma FlushReportsTotals(endpoints: seq<string>, counts: map<string, nat>, source: string, stamps: seq<nat>, key: string)
    requires WellFormed(endpoints, counts) && |stamps| == |endpoints|
    ensures ExportedCount(FlushBatch(endpoints, counts, source, stamps), key)
            == if key in counts then Some(CountOf(counts, key) as int) else None
  {
    ExportedCountOfBatch(endpoints, counts, source, stamps, key);
  }

  /**
   * Between two flushes the counts only grow, so whatever an endpoint
   * reported in the first flush it reports again, at least as high, in the
   * second.
   */
  lemma FlushMonotone(endpoints1: seq<string>, counts1: map<string, nat>,
                      endpoints2: seq<string>, counts2: map<string, nat>,
                      source: string, stamps1: seq<nat>, stamps2: seq<nat>, key: string)
    requires WellFormed(endpoints1, counts1) && WellFormed(endpoints2, counts2)
    requires |stamps1| == |endpoints1| && |stamps2| == |endpoints2|
    requires Grows(counts1, counts2)
    requires ExportedCount(FlushBatch(endpoints1, counts1, source, stamps1), key).Some?
    ensures ExportedCount(FlushBatch(endpoints2, counts2, source, stamps2), key).Some?
    ensures ExportedCount(FlushBatch(endpoints1, counts1, source, stamps1), key).value
            <= ExportedCount(FlushBatch(endpoints2, counts2, source, stamps2), key).value
  {
    FlushReportsTotals(endpoints1, counts1, source, stamps1, key);
    FlushReportsTotals(endpoints2, counts2, source, stamps2, key);
    assert CountOf(counts1, key) <= CountOf(counts2, key);
  }

  /** The batch of a longer key prefix is the shorter one's plus the next key's record. */
  lemma FlushBatchSnoc(endpoints: seq<string>, counts: map<string, nat>, source: string, stamps: seq<nat>, i: nat)
    requires i < |endpoints| == |stamps|
    requires forall j :: 0 <= j < |endpoints| ==> endpoints[j] in counts
    ensures FlushBatch(endpoints[..i + 1], counts, source, stamps[..i + 1])
            == FlushBatch(endpoints[..i], counts, source, stamps[..i])
               + [RequestsMetric(endpoints[i], counts[endpoints[i]], source, stamps[i])]
  {
  }

  // ---------------------------------------------------------------------------
  // The stateful counter

  /**
   * The module-level `requests` object. `endpoints` is the order in which
   * `Object.keys` enumerates it (first-insertion order; no key is ever
   * integer-like since each starts with `[`), `counts` its values.
   */
  class RequestCounter {
    var endpoints: seq<string>
    var counts: map<string, nat>

    ghost predicate Valid()
      reads this
    {
      WellFormed(endpoints, counts)
    }

    /** `const requests = {}` */
    constructor ()
      ensures Valid() && endpoints == [] && counts == map[]
    {
      endpoints := [];
      counts := map[];
    }

    /**
     * `requestTracker`: adds one to the request's endpoint entry, creating it
     * (last in key order) on first sight; no other entry changes.
     */
    method Track(req: Request)
      requires Valid()
      modifies this
      ensures Valid()
      ensures counts == Bump(old(counts), EndpointKey(req))
      ensures endpoints == if EndpointKey(req) in old(counts) then old(endpoints) else old(endpoints) + [EndpointKey(req)]
      ensures Grows(old(counts), counts)
    {
      var endpoint := EndpointKey(req);
      if endpoint !in counts {
        // a property assigned for the first time is enumerated last
        AppendDistinct(endpoints, endpoint);
        endpoints := endpoints + [endpoint];
      }
      counts := counts[endpoint := CountOf(counts, endpoint) + 1];
    }

    /**
     * The interval body up to the send: walks the keys and pushes one
     * `requests` record per key; the object itself is only read. `stamps`
     * are the clock readings `createMetric` takes, one per key in key order.
     */
    method Flush(source: string, stamps: seq<nat>) returns (batch: seq<Metric>)
      requires Valid()
      requires |stamps| == |endpoints|
      ensures batch == FlushBatch(endpoints, counts, source, stamps)
    {
      batch := [];
      var i := 0;
      while i < |endpoints|
        invariant 0 <= i <= |endpoints|
        invariant batch == FlushBatch(endpoints[..i], counts, source, stamps[..i])
      {
        var endpoint := endpoints[i];
        var m := BuildMetric(RequestsName, counts[endpoint], CountUnit, SumType, IntValue,
                             [Attr(EndpointAttr, endpoint)], source, stamps[i]);
        assert m == RequestsMetric(endpoint, counts[endpoint], source, stamps[i]);
        FlushBatchSnoc(endpoints, counts, source, stamps, i);
        batch := batch + [m];
        i := i + 1;
      }
      assert endpoints[..i] == endpoints && stamps[..i] == stamps;
    }

    /** One timer tick: the flush batch wrapped as the request body that is pushed. */
    method Tick(source: string, stamps: seq<nat>) returns (body: Envelope)
      requires Valid()
      requires |stamps| == |endpoints|
      ensures Unwrap(body) == Some(FlushBatch(endpoints, counts, source, stamps))
    {
      var batch := Flush(source, stamps);
      body := Wrap(batch);
    }
  }
}
