/** The writing half of the metrics collector (collect_metrics.py:40-85): the
    inventory walk, the batches of at most 20 metric names per query, the
    filtering and formatting of data points into CSV rows, and one sorted
    block of rows per resource. The metrics service is an oracle from a
    request to the metrics it returns. */
module Metrics {
  import opened Wrappers
  import opened Text
  import opened Sorting
  import opened OrderedDict
  import opened Inventory
  import opened MetricsConfig
  import opened Output

  // ---- What the metrics service returns ----

  /** A float or `None` as `getattr(metric_data, aggregation)` returns it: its
      Python truth value, and the text `str` gives it. */
  datatype MetricValue = MetricValue(truthy: bool, text: string)

  /** One data point: its timestamp as `isoformat()` renders it, and the value
      of each aggregation the service filled in. */
  datatype DataPoint = DataPoint(timestamp: string, values: Dict<string, MetricValue>)

  datatype TimeSeries = TimeSeries(data: seq<DataPoint>)

  datatype Metric = Metric(name: string, unit: string, timeseries: seq<TimeSeries>)

  /** The arguments of one `query_resource` call. */
  datatype Request = Request(
    resourceId: string, metricNames: seq<string>, timespan: Window, granularity: int, aggregation: string)

  /** `metrics_client.query_resource(...).metrics`. */
  type Remote = Request -> seq<Metric>

  /** What `write_metrics` reads from the `QuerySettings` object. */
  datatype Settings = Settings(span: Window, granularity: int, groups: MetricGroups, definitionsOnly: bool)

  /** The fields of a `QuerySettings` object that `write_metrics` reads. */
  function SettingsOf(q: QuerySettings): Settings
    reads q
  {
    Settings(q.Span(), q.granularity, q.metricsByAggregation, q.printDefinitionsOnly)
  }

  function Min(a: int, b: int): int
  {
    if a <= b then a else b
  }

  // ---- Rows ----

  /** `/subscriptions/{s}/resourceGroups/{rg}/providers/{p}/{name}` (collect_metrics.py:41). */
  function ResourceId(r: Resource): string
  {
    "/subscriptions/" + r.subscription + "/resourceGroups/" + r.resourceGroup
      + "/providers/" + r.provider + "/" + r.name
  }

  /** The header line (collect_metrics.py:62): the names of the nine columns,
      in the order of the fields of a data row. */
  const Header: string :=
    "subscription,resource_group_name,provider,resource_name,metric_name,unit,aggregation,timestamp,metric_value\n"

  /** The nine fields of a data row, in the order of the header. */
  function RowFields(r: Resource, metric: Metric, aggregation: string, point: DataPoint, value: MetricValue): seq<string>
  {
    [r.subscription, r.resourceGroup, r.provider, r.name,
     metric.name, metric.unit, aggregation, point.timestamp, value.text]
  }

  /** The row `get_metrics` yields for one data point (collect_metrics.py:57). */
  function Row(r: Resource, metric: Metric, aggregation: string, point: DataPoint, value: MetricValue): string
  {
    Join(',', RowFields(r, metric, aggregation, point, value)) + "\n"
  }

  /** A data row ends with a newline and, when no field holds a comma, splits
      back into exactly its nine fields, one per header column. */
  lemma RowShape(r: Resource, metric: Metric, aggregation: string, point: DataPoint, value: MetricValue)
    requires forall i :: 0 <= i < 9 ==> ',' !in RowFields(r, metric, aggregation, point, value)[i]
    ensures var row := Row(r, metric, aggregation, point, value);
      && |row| >= 1 && row[|row| - 1] == '\n'
      && Split(row[..|row| - 1], ',') == RowFields(r, metric, aggregation, point, value)
      && |Split(row[..|row| - 1], ',')| == 9
  {
    var fields := RowFields(r, metric, aggregation, point, value);
    var row := Row(r, metric, aggregation, point, value);
    assert row[..|row| - 1] == Join(',', fields);
    SplitJoin(fields, ',');
  }

  // ---- get_metrics: filtering data points ----

  /** `getattr(metric_data, aggregation)`: `None` when the service did not fill
      that aggregation in. */
  function Aggregated(point: DataPoint, aggregation: string): Option<MetricValue>
  {
    Get(point.values, aggregation)
  }

  /** `if getattr(metric_data, aggregation):` -- `None` and zero are falsy. */
  predicate Kept(point: DataPoint, aggregation: string)
  {
    Aggregated(point, aggregation).Some? && Aggregated(point, aggregation).value.truthy
  }

  /** The row of one data point, if it yields one. */
  function PointRow(r: Resource, metric: Metric, aggregation: string, p: DataPoint): seq<string>
  {
    if Kept(p, aggregation) then [Row(r, metric, aggregation, p, Aggregated(p, aggregation).value)] else []
  }

  /** The rows of the data points of one metric, in order. */
  function PointRows(r: Resource, metric: Metric, aggregation: string, points: seq<DataPoint>): seq<string>
  {
    if points == [] then []
    else
      PointRows(r, metric, aggregation, points[..|points| - 1]) + PointRow(r, metric, aggregation, points[|points| - 1])
  }

  /** The rows of one metric of a query answer: a metric without a time
      series is skipped, and only its first time series is read. */
  function MetricBlock(r: Resource, aggregation: string, m: Metric): seq<string>
  {
    if m.timeseries == [] then [] else PointRows(r, m, aggregation, m.timeseries[0].data)
  }

  /** The rows of the metrics one query returned, in order. */
  function MetricRows(r: Resource, aggregation: string, metrics: seq<Metric>): seq<string>
  {
    if metrics == [] then []
    else
      MetricRows(r, aggregation, metrics[..|metrics| - 1]) + MetricBlock(r, aggregation, metrics[|metrics| - 1])
  }

  /** The request `get_metrics` sends (collect_metrics.py:41-47). */
  function QueryOf(s: Settings, r: Resource, aggregation: string, names: seq<string>): Request
  {
    Request(ResourceId(r), names, s.span, s.granularity, aggregation)
  }

  /** A data point yields a row exactly when its aggregated value is truthy,
      and the row is formatted from that point. */
  lemma {:induction false} PointRowsMembers(r: Resource, metric: Metric, aggregation: string, points: seq<DataPoint>, row: string)
    ensures |PointRows(r, metric, aggregation, points)| <= |points|
    ensures row in PointRows(r, metric, aggregation, points) <==>
      exists k :: 0 <= k < |points| && Kept(points[k], aggregation)
                  && row == Row(r, metric, aggregation, points[k], Aggregated(points[k], aggregation).value)
  {
    if points != [] {
      var init := points[..|points| - 1];
      PointRowsMembers(r, metric, aggregation, init, row);
      assert forall k :: 0 <= k < |init| ==> init[k] == points[k];
    }
  }

  /** A row of a query answer is a row of the block of one of its metrics. */
  lemma {:induction false} MetricRowsBlocks(r: Resource, aggregation: string, metrics: seq<Metric>, row: string)
    ensures row in MetricRows(r, aggregation, metrics) <==>
      exists m :: 0 <= m < |metrics| && row in MetricBlock(r, aggregation, metrics[m])
  {
    if metrics != [] {
      var n := |metrics| - 1;
      var init := metrics[..n];
      MetricRowsBlocks(r, aggregation, init, row);
      assert forall m :: 0 <= m < n ==> init[m] == metrics[m];
      if row in MetricBlock(r, aggregation, metrics[n]) {
        assert 0 <= n < |metrics| && row in MetricBlock(r, aggregation, metrics[n]);
      }
    }
  }

  /** The rows of a query answer are exactly the rows of the truthy data points
      of the first time series of each metric that has one. */
  lemma {:induction false} MetricRowsMembers(r: Resource, aggregation: string, metrics: seq<Metric>, row: string)
    ensures row in MetricRows(r, aggregation, metrics) <==>
      exists m :: 0 <= m < |metrics| && metrics[m].timeseries != []
                  && row in PointRows(r, metrics[m], aggregation, metrics[m].timeseries[0].data)
  {
    MetricRowsBlocks(r, aggregation, metrics, row);
    assert forall m :: 0 <= m < |metrics| ==>
      (row in MetricBlock(r, aggregation, metrics[m]) <==>
       metrics[m].timeseries != [] && row in PointRows(r, metrics[m], aggregation, metrics[m].timeseries[0].data));
  }

  lemma PointRowsStep(r: Resource, metric: Metric, aggregation: string, points: seq<DataPoint>, k: nat)
    requires k < |points|
    ensures PointRows(r, metric, aggregation, points[..k + 1])
         == PointRows(r, metric, aggregation, points[..k]) + PointRow(r, metric, aggregation, points[k])
  {
    assert points[..k + 1][..k] == points[..k];
  }

  lemma MetricRowsStep(r: Resource, aggregation: string, metrics: seq<Metric>, i: nat)
    requires i < |metrics|
    ensures MetricRows(r, aggregation, metrics[..i + 1])
         == MetricRows(r, aggregation, metrics[..i]) + MetricBlock(r, aggregation, metrics[i])
  {
    assert metrics[..i + 1][..i] == metrics[..i];
  }

  /** The inner loop of `get_metrics` (collect_metrics.py:53-57): the rows of
      the truthy data points of one time series. */
  method PointLoop(r: Resource, metric: Metric, aggregation: string, data: seq<DataPoint>)
    returns (rows: seq<string>)
    ensures rows == PointRows(r, metric, aggregation, data)
  {
    rows := [];
    var k := 0;
    while k < |data|
      invariant 0 <= k <= |data|
      invariant rows == PointRows(r, metric, aggregation, data[..k])
    {
      var point := data[k];
      PointRowsStep(r, metric, aggregation, data, k);
      var value := Aggregated(point, aggregation);
      if value.Some? && value.value.truthy {
        rows := rows + [Row(r, metric, aggregation, point, value.value)];
      } else {
        assert rows == rows + [];
      }
      k := k + 1;
    }
    assert data[..k] == data;
  }

  /** `get_metrics` (collect_metrics.py:40-57): one query, then the rows of its
      answer. */
  method GetMetrics(s: Settings, remote: Remote, r: Resource, aggregation: string, names: seq<string>)
    returns (rows: seq<string>)
    ensures rows == MetricRows(r, aggregation, remote(QueryOf(s, r, aggregation, names)))
  {
    var result := remote(Request(ResourceId(r), names, s.span, s.granularity, aggregation));
    rows := [];
    var i := 0;
    while i < |result|
      invariant 0 <= i <= |result|
      invariant rows == MetricRows(r, aggregation, result[..i])
    {
      var metric := result[i];
      MetricRowsStep(r, aggregation, result, i);
      if |metric.timeseries| == 0 {
        assert rows + MetricBlock(r, aggregation, metric) == rows;
        i := i + 1;
        continue;
      }
      var block := PointLoop(r, metric, aggregation, metric.timeseries[0].data);
      rows := rows + block;
      i := i + 1;
    }
    assert result[..i] == result;
  }

  // ---- Batches of at most 20 names ----

  /** `limit = 20` (collect_metrics.py:72). */
  const Limit: nat := 20

  /** `[names[i:i+limit] for i in range(0, len(names), limit)]`. */
  function Batches(names: seq<string>): seq<seq<string>>
    decreases |names|
  {
    if names == [] then []
    else if |names| <= Limit then [names]
    else [names[..Limit]] + Batches(names[Limit..])
  }

  /** The batches laid end to end. */
  function ConcatBatches<T>(ss: seq<seq<T>>): seq<T>
  {
    if ss == [] then [] else ss[0] + ConcatBatches(ss[1..])
  }

  /** The batches put back together are the names, in order. */
  lemma {:induction false} BatchesConcat(names: seq<string>)
    ensures ConcatBatches(Batches(names)) == names
    decreases |names|
  {
    if |names| > Limit {
      BatchesConcat(names[Limit..]);
      assert names[..Limit] + names[Limit..] == names;
    }
  }

  /** Every batch holds 1 to 20 names, there are ceil(n / 20) of them, and
      batch k is the slice starting at 20 k. An empty list has no batch. */
  lemma {:induction false} BatchesShape(names: seq<string>)
    ensures |Batches(names)| == (|names| + Limit - 1) / Limit
    ensures names == [] <==> Batches(names) == []
    ensures forall k :: 0 <= k < |Batches(names)| ==>
      && 1 <= |Batches(names)[k]| <= Limit
      && Limit * k < |names|
      && Batches(names)[k] == names[Limit * k .. Min(Limit * k + Limit, |names|)]
    decreases |names|
  {
    if |names| > Limit {
      var rest := names[Limit..];
      BatchesShape(rest);
      var b := Batches(names);
      forall k | 0 < k < |b|
        ensures b[k] == names[Limit * k .. Min(Limit * k + Limit, |names|)]
      {
        assert b[k] == Batches(rest)[k - 1];
        assert rest[Limit * (k - 1) .. Min(Limit * (k - 1) + Limit, |rest|)]
            == names[Limit * k .. Min(Limit * k + Limit, |names|)];
      }
    }
  }

  /** One step of the `range` loop: from position `index`, the next batch is
      the slice up to `index + 20`, and the rest are the batches after it. */
  lemma BatchesStep(names: seq<string>, index: int)
    requires 0 <= index < |names|
    ensures Batches(names[index..])
         == [names[index..Min(index + Limit, |names|)]] + Batches(names[Min(index + Limit, |names|)..])
  {
    var x := names[index..];
    if |x| > Limit {
      assert x[..Limit] == names[index..index + Limit];
      assert x[Limit..] == names[index + Limit..];
    } else {
      assert Min(index + Limit, |names|) == |names|;
      assert names[index..|names|] == x;
      assert names[|names|..] == [];
    }
  }

  // ---- The queries and rows of one resource ----

  /** The requests for the batches of one aggregation, in order. */
  function BatchRequests(s: Settings, r: Resource, aggregation: string, batches: seq<seq<string>>): seq<Request>
  {
    if batches == [] then []
    else [QueryOf(s, r, aggregation, batches[0])] + BatchRequests(s, r, aggregation, batches[1..])
  }

  /** The requests for one aggregation's metric names. */
  function AggregationRequests(s: Settings, r: Resource, aggregation: string, names: seq<string>): seq<Request>
  {
    BatchRequests(s, r, aggregation, Batches(names))
  }

  /** The requests for every aggregation of a provider, in the mapping's order. */
  function GroupRequests(s: Settings, r: Resource, groups: AggregationGroups): seq<Request>
  {
    if groups == [] then []
    else
      var (aggregation, names) := groups[|groups| - 1];
      GroupRequests(s, r, groups[..|groups| - 1]) + AggregationRequests(s, r, aggregation, names)
  }

  /** The requests issued for one resource: one per batch of each aggregation
      configured for its provider (collect_metrics.py:71-84). */
  function ResourceRequests(s: Settings, r: Resource): seq<Request>
  {
    GroupRequests(s, r, ProviderGroups(s.groups, r.provider))
  }

  /** The rows of the answers to `requests`, in order. */
  function RowsOf(remote: Remote, r: Resource, requests: seq<Request>): seq<string>
  {
    if requests == [] then []
    else
      var q := requests[|requests| - 1];
      RowsOf(remote, r, requests[..|requests| - 1]) + MetricRows(r, q.aggregation, remote(q))
  }

  /** `metric_results` for one resource. */
  function ResourceRows(s: Settings, remote: Remote, r: Resource): seq<string>
  {
    RowsOf(remote, r, ResourceRequests(s, r))
  }

  /** What `write_metrics` writes for one resource: nothing in the
      definitions-only mode, else its rows sorted and concatenated. */
  function ResourceBlock(s: Settings, remote: Remote, r: Resource): string
  {
    if s.definitionsOnly then "" else Concat(SortStrings(ResourceRows(s, remote, r)))
  }

  lemma {:induction false} RowsOfAppend(remote: Remote, r: Resource, a: seq<Request>, b: seq<Request>)
    ensures RowsOf(remote, r, a + b) == RowsOf(remote, r, a) + RowsOf(remote, r, b)
  {
    if b == [] {
      assert a + b == a;
    } else {
      assert (a + b)[..|a + b| - 1] == a + b[..|b| - 1];
      RowsOfAppend(remote, r, a, b[..|b| - 1]);
    }
  }

  lemma {:induction false} BatchRequestsShape(s: Settings, r: Resource, aggregation: string, batches: seq<seq<string>>)
    ensures |BatchRequests(s, r, aggregation, batches)| == |batches|
    ensures forall k :: 0 <= k < |batches| ==>
      BatchRequests(s, r, aggregation, batches)[k] == QueryOf(s, r, aggregation, batches[k])
  {
    if batches != [] {
      BatchRequestsShape(s, r, aggregation, batches[1..]);
    }
  }

  /** The requests for one aggregation ask for its names in order, in batches
      of 1 to 20, and every one is addressed to the resource with the window,
      granularity and aggregation of the settings; an empty name list issues
      no request. */
  lemma AggregationRequestsShape(s: Settings, r: Resource, aggregation: string, names: seq<string>)
    ensures var qs := AggregationRequests(s, r, aggregation, names);
      && |qs| == |Batches(names)| == (|names| + Limit - 1) / Limit
      && (names == [] <==> qs == [])
      && ConcatBatches(Batches(names)) == names
      && forall k :: 0 <= k < |qs| ==>
           && qs[k] == QueryOf(s, r, aggregation, Batches(names)[k])
           && 1 <= |qs[k].metricNames| <= Limit
  {
    BatchesShape(names);
    BatchesConcat(names);
    BatchRequestsShape(s, r, aggregation, Batches(names));
  }

  lemma BatchRequestsStep(s: Settings, r: Resource, aggregation: string, names: seq<string>, index: int)
    requires 0 <= index < |names|
    ensures BatchRequests(s, r, aggregation, Batches(names[index..]))
         == [QueryOf(s, r, aggregation, names[index..Min(index + Limit, |names|)])]
            + BatchRequests(s, r, aggregation, Batches(names[Min(index + Limit, |names|)..]))
  {
    BatchesStep(names, index);
    var b := [names[index..Min(index + Limit, |names|)]] + Batches(names[Min(index + Limit, |names|)..]);
    assert b[0] == names[index..Min(index + Limit, |names|)];
    assert b[1..] == Batches(names[Min(index + Limit, |names|)..]);
  }

  lemma RowsOfSnoc(remote: Remote, r: Resource, a: seq<Request>, q: Request)
    ensures RowsOf(remote, r, a + [q]) == RowsOf(remote, r, a) + MetricRows(r, q.aggregation, remote(q))
  {
    assert (a + [q])[..|a|] == a;
  }

  /** The batch loop: the rows of every batch of one aggregation's names. */
  method QueryBatches(s: Settings, remote: Remote, r: Resource, aggregation: string, names: seq<string>)
    returns (rows: seq<string>)
    ensures rows == RowsOf(remote, r, AggregationRequests(s, r, aggregation, names))
  {
    rows := [];
    ghost var done: seq<Request> := [];
    var index := 0;
    while index < |names|
      invariant 0 <= index
      invariant done + BatchRequests(s, r, aggregation, Batches(names[Min(index, |names|)..]))
             == AggregationRequests(s, r, aggregation, names)
      invariant rows == RowsOf(remote, r, done)
    {
      var subset := names[index..Min(index + Limit, |names|)];
      ghost var q := QueryOf(s, r, aggregation, subset);
      ghost var rest := BatchRequests(s, r, aggregation, Batches(names[Min(index + Limit, |names|)..]));
      BatchRequestsStep(s, r, aggregation, names, index);
      AppendAssoc(done, [q], rest);
      var part := GetMetrics(s, remote, r, aggregation, subset);
      RowsOfSnoc(remote, r, done, q);
      rows := rows + part;
      done := done + [q];
      index := index + Limit;
    }
    assert names[Min(index, |names|)..] == [];
    assert BatchRequests(s, r, aggregation, Batches([])) == [];
    assert done + [] == done;
  }

  lemma GroupRequestsStep(s: Settings, r: Resource, groups: AggregationGroups, i: nat)
    requires i < |groups|
    ensures GroupRequests(s, r, groups[..i + 1])
         == GroupRequests(s, r, groups[..i]) + AggregationRequests(s, r, groups[i].0, groups[i].1)
  {
    assert groups[..i + 1][..i] == groups[..i];
  }

  /** The aggregation loop of one resource (collect_metrics.py:70-84). */
  method ResourceMetrics(s: Settings, remote: Remote, r: Resource) returns (rows: seq<string>)
    ensures rows == ResourceRows(s, remote, r)
  {
    var groups := ProviderGroups(s.groups, r.provider);
    rows := [];
    var i := 0;
    while i < |groups|
      invariant 0 <= i <= |groups|
      invariant rows == RowsOf(remote, r, GroupRequests(s, r, groups[..i]))
    {
      var (aggregation, names) := groups[i];
      var part := QueryBatches(s, remote, r, aggregation, names);
      GroupRequestsStep(s, r, groups, i);
      RowsOfAppend(remote, r, GroupRequests(s, r, groups[..i]), AggregationRequests(s, r, aggregation, names));
      rows := rows + part;
      i := i + 1;
    }
    assert groups[..i] == groups;
  }

  /** A provider with no entry in the query file issues no request and gets no
      row, without an error. */
  lemma UnconfiguredResource(queries: Queries, s: Settings, remote: Remote, r: Resource)
    requires s.groups == GroupMetrics(queries)
    requires forall i :: 0 <= i < |queries| ==> queries[i].0 != r.provider
    ensures ResourceRequests(s, r) == []
    ensures ResourceRows(s, remote, r) == []
    ensures ResourceBlock(s, remote, r) == ""
  {
    UnconfiguredProvider(queries, r.provider);
  }

  /** A resource's block is its rows in ascending order: any sorted
      rearrangement of the rows gives the same text. */
  lemma ResourceBlockSorted(s: Settings, remote: Remote, r: Resource, sorted: seq<string>)
    requires !s.definitionsOnly
    requires multiset(sorted) == multiset(ResourceRows(s, remote, r))
    requires SortedBy(sorted, Identity)
    ensures ResourceBlock(s, remote, r) == Concat(sorted)
  {
    var rows := ResourceRows(s, remote, r);
    SortStringsSpec(rows);
    SortedStringsUnique(SortStrings(rows), sorted);
  }

  // ---- write_metrics: the walk ----

  /** The block written for each resource. */
  function BlockOf(s: Settings, remote: Remote): Resource -> string
  {
    r => ResourceBlock(s, remote, r)
  }

  /** Everything `write_metrics` writes (collect_metrics.py:59-85). */
  function MetricsOutput(s: Settings, remote: Remote, inv: Inventory): string
  {
    Header + Blocks(BlockOf(s, remote), Walk(Visits(inv)))
  }

  /** In the definitions-only mode only the header is written. */
  lemma {:induction false} DefinitionsOnlyBlocks(s: Settings, remote: Remote, resources: seq<Resource>)
    requires s.definitionsOnly
    ensures Blocks(BlockOf(s, remote), resources) == ""
  {
    if resources != [] {
      DefinitionsOnlyBlocks(s, remote, resources[..|resources| - 1]);
    }
  }

  lemma DefinitionsOnlyOutput(s: Settings, remote: Remote, inv: Inventory)
    requires s.definitionsOnly
    ensures MetricsOutput(s, remote, inv) == Header
  {
    DefinitionsOnlyBlocks(s, remote, Walk(Visits(inv)));
  }

  /** The output starts with the header, and the rest is the blocks of the
      resources in inventory order: a resource listed first in the inventory
      has its block written before the blocks of the resources after it. */
  lemma MetricsOutputOrder(s: Settings, remote: Remote, a: Inventory, b: Inventory)
    ensures MetricsOutput(s, remote, a + b) ==
      Header + Blocks(BlockOf(s, remote), Walk(Visits(a))) + Blocks(BlockOf(s, remote), Walk(Visits(b)))
  {
    var block := BlockOf(s, remote);
    var x, y := Walk(Visits(a)), Walk(Visits(b));
    VisitsAppend(a, b);
    WalkAppend(Visits(a), Visits(b));
    assert Walk(Visits(a + b)) == x + y;
    BlocksAppend(block, x, y);
    AppendAssoc(Header, Blocks(block, x), Blocks(block, y));
  }

  /** The loop over one provider's resource names, and the per-resource body
      (collect_metrics.py:66-85). */
  method WriteProvider(out: Sink, s: Settings, remote: Remote, sub: string, rg: string, provider: string,
                       names: seq<string>)
    modifies out
    ensures out.text == old(out.text) + Blocks(BlockOf(s, remote), Located(sub, rg, provider, names))
  {
    var l := 0;
    while l < |names|
      invariant 0 <= l <= |names|
      invariant out.text == old(out.text) + Blocks(BlockOf(s, remote), Located(sub, rg, provider, names[..l]))
    {
      var r := Resource(sub, rg, provider, names[l]);
      ghost var done := Blocks(BlockOf(s, remote), Located(sub, rg, provider, names[..l]));
      LocatedStep(sub, rg, provider, names, l);
      BlocksSnoc(BlockOf(s, remote), Located(sub, rg, provider, names[..l]), r);
      if !s.definitionsOnly {
        var rows := ResourceMetrics(s, remote, r);
        out.Write(Concat(SortStrings(rows)));
      }
      assert BlockOf(s, remote)(r) == ResourceBlock(s, remote, r);
      AppendAssoc(old(out.text), done, ResourceBlock(s, remote, r));
      l := l + 1;
    }
    assert names[..l] == names;
  }

  /** The loop over one resource group's providers (collect_metrics.py:65). */
  method WriteGroup(out: Sink, s: Settings, remote: Remote, sub: string, rg: string, providers: Providers)
    modifies out
    ensures out.text == old(out.text) + Blocks(BlockOf(s, remote), Walk(GroupVisits(sub, rg, providers)))
  {
    var k := 0;
    while k < |providers|
      invariant 0 <= k <= |providers|
      invariant out.text == old(out.text) + Blocks(BlockOf(s, remote), Walk(GroupVisits(sub, rg, providers[..k])))
    {
      var (provider, names) := providers[k];
      ghost var done := Blocks(BlockOf(s, remote), Walk(GroupVisits(sub, rg, providers[..k])));
      GroupStep(sub, rg, providers, k);
      BlocksAppend(BlockOf(s, remote), Walk(GroupVisits(sub, rg, providers[..k])), Located(sub, rg, provider, names));
      WriteProvider(out, s, remote, sub, rg, provider, names);
      AppendAssoc(old(out.text), done, Blocks(BlockOf(s, remote), Located(sub, rg, provider, names)));
      k := k + 1;
    }
    assert providers[..k] == providers;
  }

  /** The loop over one subscription's resource groups (collect_metrics.py:64). */
  method WriteSubscription(out: Sink, s: Settings, remote: Remote, sub: string, groups: ResourceGroups)
    modifies out
    ensures out.text == old(out.text) + Blocks(BlockOf(s, remote), Walk(SubscriptionVisits(sub, groups)))
  {
    var j := 0;
    while j < |groups|
      invariant 0 <= j <= |groups|
      invariant out.text == old(out.text) + Blocks(BlockOf(s, remote), Walk(SubscriptionVisits(sub, groups[..j])))
    {
      var (rg, providers) := groups[j];
      ghost var done := Blocks(BlockOf(s, remote), Walk(SubscriptionVisits(sub, groups[..j])));
      SubscriptionStep(sub, groups, j);
      BlocksAppend(BlockOf(s, remote), Walk(SubscriptionVisits(sub, groups[..j])), Walk(GroupVisits(sub, rg, providers)));
      WriteGroup(out, s, remote, sub, rg, providers);
      AppendAssoc(old(out.text), done, Blocks(BlockOf(s, remote), Walk(GroupVisits(sub, rg, providers))));
      j := j + 1;
    }
    assert groups[..j] == groups;
  }

  /** `write_metrics` (collect_metrics.py:59-85): the header, then the block of
      every resource of the inventory, in inventory order. */
  method WriteMetrics(out: Sink, settings: QuerySettings, inv: Inventory, remote: Remote)
    modifies out
    ensures out.text == old(out.text) + MetricsOutput(SettingsOf(settings), remote, inv)
  {
    var s := SettingsOf(settings);
    out.Write(Header);
    ghost var start := out.text;
    var i := 0;
    while i < |inv|
      invariant 0 <= i <= |inv|
      invariant out.text == start + Blocks(BlockOf(s, remote), Walk(Visits(inv[..i])))
    {
      var (sub, groups) := inv[i];
      ghost var done := Blocks(BlockOf(s, remote), Walk(Visits(inv[..i])));
      InventoryStep(inv, i);
      BlocksAppend(BlockOf(s, remote), Walk(Visits(inv[..i])), Walk(SubscriptionVisits(sub, groups)));
      WriteSubscription(out, s, remote, sub, groups);
      AppendAssoc(start, done, Blocks(BlockOf(s, remote), Walk(SubscriptionVisits(sub, groups))));
      i := i + 1;
    }
    assert inv[..i] == inv;
    AppendAssoc(old(out.text), Header, Blocks(BlockOf(s, remote), Walk(Visits(inv))));
  }
}
