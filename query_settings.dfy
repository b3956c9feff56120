/** `QuerySettings` of the metrics collector (collect_metrics.py:88-120): the
    query window, the granularity, and the metric names grouped by provider
    and aggregation. Instants and durations are integers counting
    microseconds; "now" is a parameter. */
module MetricsConfig {
  import opened Wrappers
  import opened OrderedDict

  /** `default_n_days` (collect_metrics.py:15). */
  const DefaultNDays: int := 14

  const MicrosPerSecond: int := 1_000_000
  const MicrosPerDay: int := 86_400 * MicrosPerSecond

  /** The command-line values `load_timespan` reads. `lastNDays` is the day
      count, `startTime` and `endTime` are parsed instants; `None` stands for an
      option that was not given. */
  datatype Args = Args(
    lastNDays: Option<int>, startTime: Option<int>, endTime: Option<int>, definitionsOnly: bool)

  /** The `(start_time, end_time)` pair passed to every query. */
  datatype Window = Window(start: int, end: int)

  /** `if args.last_n_days:` -- a day count of zero is falsy. */
  predicate LastNDaysGiven(args: Args)
  {
    args.lastNDays.Some? && args.lastNDays.value != 0
  }

  /** `load_timespan` (collect_metrics.py:95-108). */
  function Timespan(args: Args, now: int): (w: Window)
    ensures LastNDaysGiven(args) ==> w.start == now - args.lastNDays.value * MicrosPerDay
    ensures !LastNDaysGiven(args) && args.startTime.Some? ==> w.start == args.startTime.value
    ensures !LastNDaysGiven(args) && args.startTime.None? ==> w.start == now - DefaultNDays * MicrosPerDay
    ensures w.end == if args.endTime.Some? then args.endTime.value else now
  {
    var start :=
      if LastNDaysGiven(args) then now - args.lastNDays.value * MicrosPerDay
      else if args.startTime.Some? then args.startTime.value
      else now - DefaultNDays * MicrosPerDay;
    var end := if args.endTime.Some? then args.endTime.value else now;
    Window(start, end)
  }

  /** The number of days the window reaches back from its end when neither
      an explicit start nor an explicit end is given. */
  function EffectiveDays(args: Args): int
  {
    if LastNDaysGiven(args) then args.lastNDays.value else DefaultNDays
  }

  /** Without explicit instants the window ends now and is exactly the
      effective number of days long, so it is non-empty exactly when that
      count is positive; and an explicit start is ignored whenever a non-zero
      day count is given. */
  lemma TimespanLength(args: Args, now: int, explicitStart: Option<int>)
    ensures args.startTime.None? && args.endTime.None? ==>
      Timespan(args, now).end == now &&
      Timespan(args, now).end - Timespan(args, now).start == EffectiveDays(args) * MicrosPerDay &&
      (Timespan(args, now).start < Timespan(args, now).end <==> EffectiveDays(args) > 0)
    ensures LastNDaysGiven(args) ==>
      Timespan(args.(startTime := explicitStart), now).start == Timespan(args, now).start
  {
  }

  /** What stops `load_timespan` as the code stands: argparse stores
      `--last-n-days` as text, since the option has no `type=int`
      (collect_metrics.py:25), and `timedelta(days=text)` raises `TypeError`. */
  datatype TimespanError = DaysNotANumber(text: string)

  /** `load_timespan` as written (collect_metrics.py:95-108), with the day
      count as the text argparse stores: a non-empty text is truthy and fails
      at line 97; without the option, or with an empty one, the window is the
      one `Timespan` chooses when no day count is given. */
  function TimespanAsWritten(daysText: Option<string>, args: Args, now: int): (r: Result<Window, TimespanError>)
    ensures r.Failure? <==> daysText.Some? && daysText.value != ""
    ensures r.Success? ==> r.value == Timespan(args.(lastNDays := None), now)
  {
    if daysText.Some? && daysText.value != "" then Failure(DaysNotANumber(daysText.value))
    else Success(Timespan(args.(lastNDays := None), now))
  }

  /** `--last-n-days 7` without explicit instants: the code as written stops
      with an error, where an integer option gives the seven days before now. */
  lemma LastNDaysAsWritten(args: Args, now: int)
    requires args.startTime.None? && args.endTime.None?
    ensures TimespanAsWritten(Some("7"), args, now) == Failure(DaysNotANumber("7"))
    ensures Timespan(args.(lastNDays := Some(7)), now) == Window(now - 7 * MicrosPerDay, now)
  {
  }

  /** The `granularity` entry of the query file: `{"type": unit, "count": n}`. */
  datatype GranularityConfig = GranularityConfig(unit: string, count: int)

  datatype ConfigError =
    | UnknownUnit(unit: string)   // `timedelta(**{unit: n})` rejects the keyword
    | DurationOverflow            // the duration is outside timedelta's range

  /** The keyword arguments `timedelta` accepts, with their length. */
  function UnitLength(unit: string): Option<int>
  {
    match unit
    case "weeks" => Some(7 * MicrosPerDay)
    case "days" => Some(MicrosPerDay)
    case "hours" => Some(3_600 * MicrosPerSecond)
    case "minutes" => Some(60 * MicrosPerSecond)
    case "seconds" => Some(MicrosPerSecond)
    case "milliseconds" => Some(1_000)
    case "microseconds" => Some(1)
    case _ => None
  }

  /** `timedelta.min` and `timedelta.max`, in microseconds
      (-999999999 days, and 999999999 days plus one day less a microsecond). */
  const MinDuration: int := -999_999_999 * MicrosPerDay
  const MaxDuration: int := 1_000_000_000 * MicrosPerDay - 1

  /** `load_granularity` (collect_metrics.py:111-113): `timedelta(**{unit: count})`. */
  function Granularity(g: GranularityConfig): (r: Result<int, ConfigError>)
    ensures r.Failure? <==> UnitLength(g.unit).None? ||
                            !(MinDuration <= g.count * UnitLength(g.unit).value <= MaxDuration)
    ensures UnitLength(g.unit).None? ==> r == Failure(UnknownUnit(g.unit))
    ensures r.Success? ==> r.value == g.count * UnitLength(g.unit).value
  {
    match UnitLength(g.unit)
    case None => Failure(UnknownUnit(g.unit))
    case Some(len) =>
      var d := g.count * len;
      if MinDuration <= d <= MaxDuration then Success(d) else Failure(DurationOverflow)
  }

  /** `{"type": "minutes", "count": 5}` is five minutes; an unknown unit is an
      error; and the units agree with each other (a week is seven days, a day
      is 24 hours, an hour is 60 minutes, a minute is 60 seconds). */
  lemma GranularityUnits(n: int)
    ensures Granularity(GranularityConfig("minutes", 5)) == Success(300 * MicrosPerSecond)
    ensures Granularity(GranularityConfig("bogus", 1)) == Failure(UnknownUnit("bogus"))
    ensures Granularity(GranularityConfig("weeks", n)) == Granularity(GranularityConfig("days", 7 * n))
    ensures Granularity(GranularityConfig("days", n)) == Granularity(GranularityConfig("hours", 24 * n))
    ensures Granularity(GranularityConfig("hours", n)) == Granularity(GranularityConfig("minutes", 60 * n))
    ensures Granularity(GranularityConfig("minutes", n)) == Granularity(GranularityConfig("seconds", 60 * n))
  {
  }

  /** One configured metric: `{"metric_name": ..., "aggregations": [...]}`. */
  datatype MetricQuery = MetricQuery(metricName: string, aggregations: seq<string>)

  /** The `queries` entry of the query file: provider -> metrics. */
  type Queries = seq<(string, seq<MetricQuery>)>

  datatype MetricsQueryConfig = MetricsQueryConfig(granularity: GranularityConfig, queries: Queries)

  /** aggregation -> metric names */
  type AggregationGroups = Dict<string, seq<string>>
  /** provider -> aggregation -> metric names: `metrics_by_aggregation` */
  type MetricGroups = Dict<string, AggregationGroups>

  /** `metrics_by_aggregation[provider]`: the `defaultdict` gives an empty
      mapping for a provider that has no entry. */
  function ProviderGroups(groups: MetricGroups, provider: string): AggregationGroups
  {
    GetOr(groups, provider, [])
  }

  /** `metrics_by_aggregation[provider][aggregation]`. */
  function GroupOf(groups: MetricGroups, provider: string, aggregation: string): seq<string>
  {
    GetOr(ProviderGroups(groups, provider), aggregation, [])
  }

  /** One execution of `.append(metric['metric_name'])` (collect_metrics.py:120). */
  datatype Append = Append(provider: string, aggregation: string, metricName: string)

  /** The appends of one metric, in loop order. */
  function AggregationAppends(provider: string, name: string, aggregations: seq<string>): seq<Append>
  {
    if aggregations == [] then []
    else
      AggregationAppends(provider, name, aggregations[..|aggregations| - 1])
        + [Append(provider, aggregations[|aggregations| - 1], name)]
  }

  /** The appends of one provider's metrics, in loop order. */
  function MetricAppends(provider: string, metrics: seq<MetricQuery>): seq<Append>
  {
    if metrics == [] then []
    else
      var m := metrics[|metrics| - 1];
      MetricAppends(provider, metrics[..|metrics| - 1]) + AggregationAppends(provider, m.metricName, m.aggregations)
  }

  /** The appends `load_metrics` makes, in loop order. */
  function Appends(queries: Queries): seq<Append>
  {
    if queries == [] then []
    else
      var (provider, metrics) := queries[|queries| - 1];
      Appends(queries[..|queries| - 1]) + MetricAppends(provider, metrics)
  }

  /** `metrics_by_aggregation[p][a].append(name)` on nested `defaultdict`s: a
      missing provider or aggregation is first inserted, last, empty. */
  function AppendName(groups: MetricGroups, e: Append): MetricGroups
  {
    var inner := ProviderGroups(groups, e.provider);
    Put(groups, e.provider, Put(inner, e.aggregation, GetOr(inner, e.aggregation, []) + [e.metricName]))
  }

  /** The groups after the appends `es`, starting from `groups`. */
  function GroupAll(groups: MetricGroups, es: seq<Append>): MetricGroups
  {
    if es == [] then groups else AppendName(GroupAll(groups, es[..|es| - 1]), es[|es| - 1])
  }

  /** The `metrics_by_aggregation` that `load_metrics` builds. */
  function GroupMetrics(queries: Queries): MetricGroups
  {
    GroupAll([], Appends(queries))
  }

  // ---- An independent description of the groups ----

  /** How often `a` is listed in `aggregations`. */
  function Occurrences(aggregations: seq<string>, a: string): nat
  {
    if aggregations == [] then 0
    else Occurrences(aggregations[..|aggregations| - 1], a) + (if aggregations[|aggregations| - 1] == a then 1 else 0)
  }

  /** `name` repeated `n` times. */
  function Repeat(name: string, n: nat): seq<string>
  {
    if n == 0 then [] else Repeat(name, n - 1) + [name]
  }

  /** In order, each metric's name once per listing of `a` among its aggregations. */
  function NamesWith(metrics: seq<MetricQuery>, a: string): seq<string>
  {
    if metrics == [] then []
    else
      var m := metrics[|metrics| - 1];
      NamesWith(metrics[..|metrics| - 1], a) + Repeat(m.metricName, Occurrences(m.aggregations, a))
  }

  /** The metric names configured for provider `p` with aggregation `a`, in
      configuration order, duplicates kept. */
  function Selected(queries: Queries, p: string, a: string): seq<string>
  {
    if queries == [] then []
    else
      var (provider, metrics) := queries[|queries| - 1];
      Selected(queries[..|queries| - 1], p, a) + (if provider == p then NamesWith(metrics, a) else [])
  }

  /** The metric names of the appends `es` to group (p, a), in order. */
  function NamesAppended(es: seq<Append>, p: string, a: string): seq<string>
  {
    if es == [] then []
    else
      var e := es[|es| - 1];
      NamesAppended(es[..|es| - 1], p, a) + (if e.provider == p && e.aggregation == a then [e.metricName] else [])
  }

  lemma {:induction false} NamesAppendedAppend(x: seq<Append>, y: seq<Append>, p: string, a: string)
    ensures NamesAppended(x + y, p, a) == NamesAppended(x, p, a) + NamesAppended(y, p, a)
  {
    if y == [] {
      assert x + y == x;
    } else {
      assert (x + y)[..|x + y| - 1] == x + y[..|y| - 1];
      NamesAppendedAppend(x, y[..|y| - 1], p, a);
    }
  }

  lemma {:induction false} AppendNameGroup(groups: MetricGroups, e: Append, p: string, a: string)
    ensures GroupOf(AppendName(groups, e), p, a) ==
      GroupOf(groups, p, a) + (if e.provider == p && e.aggregation == a then [e.metricName] else [])
  {
    var inner := ProviderGroups(groups, e.provider);
    var inner' := Put(inner, e.aggregation, GetOr(inner, e.aggregation, []) + [e.metricName]);
    PutGet(groups, e.provider, inner', p);
    PutGet(inner, e.aggregation, GetOr(inner, e.aggregation, []) + [e.metricName], a);
  }

  /** Each group ends with the names appended to it, in order. */
  lemma {:induction false} GroupAllGroup(groups: MetricGroups, es: seq<Append>, p: string, a: string)
    ensures GroupOf(GroupAll(groups, es), p, a) == GroupOf(groups, p, a) + NamesAppended(es, p, a)
  {
    if es != [] {
      GroupAllGroup(groups, es[..|es| - 1], p, a);
      AppendNameGroup(GroupAll(groups, es[..|es| - 1]), es[|es| - 1], p, a);
    }
  }

  lemma {:induction false} AggregationAppendsNames(provider: string, name: string, aggs: seq<string>, p: string, a: string)
    ensures NamesAppended(AggregationAppends(provider, name, aggs), p, a) ==
      if provider == p then Repeat(name, Occurrences(aggs, a)) else []
  {
    if aggs != [] {
      var n := |aggs| - 1;
      AggregationAppendsNames(provider, name, aggs[..n], p, a);
      var init := AggregationAppends(provider, name, aggs[..n]);
      var e := Append(provider, aggs[n], name);
      assert AggregationAppends(provider, name, aggs) == init + [e];
      NamesAppendedAppend(init, [e], p, a);
      assert [e][..0] == [];
      assert NamesAppended([e], p, a) == if e.provider == p && e.aggregation == a then [name] else [];
      assert Occurrences(aggs, a) == Occurrences(aggs[..n], a) + (if aggs[n] == a then 1 else 0);
    }
  }

  lemma {:induction false} MetricAppendsNames(provider: string, metrics: seq<MetricQuery>, p: string, a: string)
    ensures NamesAppended(MetricAppends(provider, metrics), p, a) ==
      if provider == p then NamesWith(metrics, a) else []
  {
    if metrics != [] {
      var m := metrics[|metrics| - 1];
      MetricAppendsNames(provider, metrics[..|metrics| - 1], p, a);
      AggregationAppendsNames(provider, m.metricName, m.aggregations, p, a);
      NamesAppendedAppend(MetricAppends(provider, metrics[..|metrics| - 1]),
                          AggregationAppends(provider, m.metricName, m.aggregations), p, a);
    }
  }

  lemma {:induction false} AppendsNames(queries: Queries, p: string, a: string)
    ensures NamesAppended(Appends(queries), p, a) == Selected(queries, p, a)
  {
    if queries != [] {
      var (provider, metrics) := queries[|queries| - 1];
      AppendsNames(queries[..|queries| - 1], p, a);
      MetricAppendsNames(provider, metrics, p, a);
      NamesAppendedAppend(Appends(queries[..|queries| - 1]), MetricAppends(provider, metrics), p, a);
    }
  }

  /** The grouping: for every provider and aggregation, the group built by
      `load_metrics` holds exactly the names of that provider's metrics that
      list the aggregation, in configuration order and once per listing
      (collect_metrics.py:115-120). */
  lemma GroupMetricsGroups(queries: Queries, p: string, a: string)
    ensures GroupOf(GroupMetrics(queries), p, a) == Selected(queries, p, a)
  {
    GroupAllGroup([], Appends(queries), p, a);
    AppendsNames(queries, p, a);
  }

  // ---- Group sizes: a metric with k aggregations fills k places ----

  /** The number of names in all the groups of one provider. */
  function TotalNames(inner: AggregationGroups): nat
  {
    if inner == [] then 0 else |inner[0].1| + TotalNames(inner[1..])
  }

  /** The number of aggregations listed by provider `p`'s metrics. */
  function AggregationCount(queries: Queries, p: string): nat
  {
    if queries == [] then 0
    else
      var (provider, metrics) := queries[|queries| - 1];
      AggregationCount(queries[..|queries| - 1], p) + (if provider == p then MetricsAggregationCount(metrics) else 0)
  }

  function MetricsAggregationCount(metrics: seq<MetricQuery>): nat
  {
    if metrics == [] then 0
    else MetricsAggregationCount(metrics[..|metrics| - 1]) + |metrics[|metrics| - 1].aggregations|
  }

  /** The number of appends `es` makes to provider `p`. */
  function AppendCount(es: seq<Append>, p: string): nat
  {
    if es == [] then 0 else AppendCount(es[..|es| - 1], p) + (if es[|es| - 1].provider == p then 1 else 0)
  }

  lemma {:induction false} AppendCountAppend(x: seq<Append>, y: seq<Append>, p: string)
    ensures AppendCount(x + y, p) == AppendCount(x, p) + AppendCount(y, p)
  {
    if y == [] {
      assert x + y == x;
    } else {
      assert (x + y)[..|x + y| - 1] == x + y[..|y| - 1];
      AppendCountAppend(x, y[..|y| - 1], p);
    }
  }

  lemma {:induction false} TotalNamesPut(inner: AggregationGroups, a: string, names: seq<string>)
    ensures TotalNames(Put(inner, a, names)) == TotalNames(inner) - |GetOr(inner, a, [])| + |names|
  {
    if inner != [] && inner[0].0 != a {
      TotalNamesPut(inner[1..], a, names);
    }
  }

  lemma {:induction false} GroupAllTotal(groups: MetricGroups, es: seq<Append>, p: string)
    ensures TotalNames(ProviderGroups(GroupAll(groups, es), p)) == TotalNames(ProviderGroups(groups, p)) + AppendCount(es, p)
  {
    if es != [] {
      var before := GroupAll(groups, es[..|es| - 1]);
      var e := es[|es| - 1];
      GroupAllTotal(groups, es[..|es| - 1], p);
      var inner := ProviderGroups(before, e.provider);
      var inner' := Put(inner, e.aggregation, GetOr(inner, e.aggregation, []) + [e.metricName]);
      TotalNamesPut(inner, e.aggregation, GetOr(inner, e.aggregation, []) + [e.metricName]);
      PutGet(before, e.provider, inner', p);
    }
  }

  lemma {:induction false} AppendsCount(queries: Queries, p: string)
    ensures AppendCount(Appends(queries), p) == AggregationCount(queries, p)
  {
    if queries != [] {
      var (provider, metrics) := queries[|queries| - 1];
      AppendsCount(queries[..|queries| - 1], p);
      MetricAppendsCount(provider, metrics, p);
      AppendCountAppend(Appends(queries[..|queries| - 1]), MetricAppends(provider, metrics), p);
    }
  }

  lemma {:induction false} MetricAppendsCount(provider: string, metrics: seq<MetricQuery>, p: string)
    ensures AppendCount(MetricAppends(provider, metrics), p) == if provider == p then MetricsAggregationCount(metrics) else 0
  {
    if metrics != [] {
      var m := metrics[|metrics| - 1];
      MetricAppendsCount(provider, metrics[..|metrics| - 1], p);
      AggregationAppendsCount(provider, m.metricName, m.aggregations, p);
      AppendCountAppend(MetricAppends(provider, metrics[..|metrics| - 1]),
                        AggregationAppends(provider, m.metricName, m.aggregations), p);
    }
  }

  lemma {:induction false} AggregationAppendsCount(provider: string, name: string, aggs: seq<string>, p: string)
    ensures AppendCount(AggregationAppends(provider, name, aggs), p) == if provider == p then |aggs| else 0
  {
    if aggs != [] {
      AggregationAppendsCount(provider, name, aggs[..|aggs| - 1], p);
      var init := AggregationAppends(provider, name, aggs[..|aggs| - 1]);
      assert AggregationAppends(provider, name, aggs)[..|init|] == init;
    }
  }

  /** A provider's groups hold, all together, exactly as many names as its
      metrics list aggregations: each listing fills one place. */
  lemma GroupMetricsTotal(queries: Queries, p: string)
    ensures TotalNames(ProviderGroups(GroupMetrics(queries), p)) == AggregationCount(queries, p)
  {
    GroupAllTotal([], Appends(queries), p);
    AppendsCount(queries, p);
  }

  // ---- Keys ----

  /** Appends that never name `p` leave `p` out of the mapping. */
  lemma {:induction false} GroupAllAbsent(groups: MetricGroups, es: seq<Append>, p: string)
    requires Get(groups, p).None?
    requires forall k :: 0 <= k < |es| ==> es[k].provider != p
    ensures Get(GroupAll(groups, es), p).None?
  {
    if es != [] {
      GroupAllAbsent(groups, es[..|es| - 1], p);
      var before := GroupAll(groups, es[..|es| - 1]);
      var e := es[|es| - 1];
      var inner := ProviderGroups(before, e.provider);
      PutGet(before, e.provider, Put(inner, e.aggregation, GetOr(inner, e.aggregation, []) + [e.metricName]), p);
    }
  }

  lemma {:induction false} AppendsProviders(queries: Queries, p: string)
    requires forall i :: 0 <= i < |queries| ==> queries[i].0 != p
    ensures AppendCount(Appends(queries), p) == 0
  {
    if queries != [] {
      var (provider, metrics) := queries[|queries| - 1];
      AppendsProviders(queries[..|queries| - 1], p);
      MetricAppendsCount(provider, metrics, p);
      AppendCountAppend(Appends(queries[..|queries| - 1]), MetricAppends(provider, metrics), p);
    }
  }

  lemma {:induction false} NoAppendsNoProvider(es: seq<Append>, p: string)
    requires AppendCount(es, p) == 0
    ensures forall k :: 0 <= k < |es| ==> es[k].provider != p
  {
    if es != [] {
      NoAppendsNoProvider(es[..|es| - 1], p);
      assert forall k :: 0 <= k < |es| - 1 ==> es[k] == es[..|es| - 1][k];
    }
  }

  /** A provider without an entry in the query file gets no key in
      `metrics_by_aggregation`, so the `defaultdict` lookup in `write_metrics`
      gives it an empty mapping (collect_metrics.py:116, :71). */
  lemma UnconfiguredProvider(queries: Queries, p: string)
    requires forall i :: 0 <= i < |queries| ==> queries[i].0 != p
    ensures Get(GroupMetrics(queries), p).None?
    ensures ProviderGroups(GroupMetrics(queries), p) == []
  {
    AppendsProviders(queries, p);
    NoAppendsNoProvider(Appends(queries), p);
    GroupAllAbsent([], Appends(queries), p);
  }

  /** No provider occurs twice, and no aggregation occurs twice in the
      mapping of any provider: each (provider, aggregation) pair has at most one
      group. */
  ghost predicate WellKeyed(groups: MetricGroups)
  {
    UniqueKeys(groups) && forall p :: UniqueKeys(ProviderGroups(groups, p))
  }

  /** `metrics_by_aggregation` is well keyed. */
  lemma {:induction false} GroupAllWellKeyed(groups: MetricGroups, es: seq<Append>)
    requires WellKeyed(groups)
    ensures WellKeyed(GroupAll(groups, es))
  {
    if es != [] {
      GroupAllWellKeyed(groups, es[..|es| - 1]);
      var before := GroupAll(groups, es[..|es| - 1]);
      var e := es[|es| - 1];
      var inner := ProviderGroups(before, e.provider);
      assert UniqueKeys(inner);
      var inner' := Put(inner, e.aggregation, GetOr(inner, e.aggregation, []) + [e.metricName]);
      PutUnique(inner, e.aggregation, GetOr(inner, e.aggregation, []) + [e.metricName]);
      var after := Put(before, e.provider, inner');
      PutUnique(before, e.provider, inner');
      assert after == GroupAll(groups, es);
      forall p ensures UniqueKeys(ProviderGroups(after, p)) {
        PutGet(before, e.provider, inner', p);
        assert UniqueKeys(ProviderGroups(before, p));
      }
    }
  }

  /** The groups `load_metrics` builds are well keyed: no provider, and no
      aggregation of a provider, is listed twice. */
  lemma GroupMetricsWellKeyed(queries: Queries)
    ensures WellKeyed(GroupMetrics(queries))
  {
    GroupAllWellKeyed([], Appends(queries));
  }

  /** Applying two runs of appends one after the other is applying their
      concatenation. */
  lemma {:induction false} GroupAllAppend(groups: MetricGroups, a: seq<Append>, b: seq<Append>)
    ensures GroupAll(groups, a + b) == GroupAll(GroupAll(groups, a), b)
  {
    if b == [] {
      assert a + b == a;
    } else {
      assert (a + b)[..|a + b| - 1] == a + b[..|b| - 1];
      GroupAllAppend(groups, a, b[..|b| - 1]);
    }
  }

  lemma AggregationAppendsSnoc(provider: string, name: string, aggregations: seq<string>, k: nat)
    requires k < |aggregations|
    ensures AggregationAppends(provider, name, aggregations[..k + 1]) ==
      AggregationAppends(provider, name, aggregations[..k]) + [Append(provider, aggregations[k], name)]
  {
    assert aggregations[..k + 1][..k] == aggregations[..k];
  }

  lemma MetricAppendsSnoc(provider: string, metrics: seq<MetricQuery>, j: nat)
    requires j < |metrics|
    ensures MetricAppends(provider, metrics[..j + 1]) ==
      MetricAppends(provider, metrics[..j]) + AggregationAppends(provider, metrics[j].metricName, metrics[j].aggregations)
  {
    assert metrics[..j + 1][..j] == metrics[..j];
  }

  lemma AppendsSnoc(queries: Queries, i: nat)
    requires i < |queries|
    ensures Appends(queries[..i + 1]) == Appends(queries[..i]) + MetricAppends(queries[i].0, queries[i].1)
  {
    assert queries[..i + 1][..i] == queries[..i];
  }

  /** The innermost loop of `load_metrics`: one metric's name appended under
      each of its aggregations. */
  method AppendAggregations(groups: MetricGroups, provider: string, name: string, aggregations: seq<string>)
    returns (r: MetricGroups)
    ensures r == GroupAll(groups, AggregationAppends(provider, name, aggregations))
  {
    r := groups;
    var k := 0;
    assert aggregations[..0] == [];
    while k < |aggregations|
      invariant 0 <= k <= |aggregations|
      invariant r == GroupAll(groups, AggregationAppends(provider, name, aggregations[..k]))
    {
      var e := Append(provider, aggregations[k], name);
      AggregationAppendsSnoc(provider, name, aggregations, k);
      GroupAllAppend(groups, AggregationAppends(provider, name, aggregations[..k]), [e]);
      r := AppendName(r, e);
      k := k + 1;
    }
    assert aggregations[..k] == aggregations;
  }

  /** The middle loop of `load_metrics`: the metrics of one provider. */
  method AppendMetrics(groups: MetricGroups, provider: string, metrics: seq<MetricQuery>)
    returns (r: MetricGroups)
    ensures r == GroupAll(groups, MetricAppends(provider, metrics))
  {
    r := groups;
    var j := 0;
    assert metrics[..0] == [];
    while j < |metrics|
      invariant 0 <= j <= |metrics|
      invariant r == GroupAll(groups, MetricAppends(provider, metrics[..j]))
    {
      var metric := metrics[j];
      r := AppendAggregations(r, provider, metric.metricName, metric.aggregations);
      MetricAppendsSnoc(provider, metrics, j);
      GroupAllAppend(groups, MetricAppends(provider, metrics[..j]),
        AggregationAppends(provider, metric.metricName, metric.aggregations));
      j := j + 1;
    }
    assert metrics[..j] == metrics;
  }

  // ---- The object ----

  class QuerySettings {
    var startTime: int
    var endTime: int
    var granularity: int
    var metricsByAggregation: MetricGroups
    var printDefinitionsOnly: bool

    /** The object before `__init__` has filled in any field. */
    constructor ()
      ensures metricsByAggregation == [] && !printDefinitionsOnly
    {
      metricsByAggregation := [];
      printDefinitionsOnly := false;
    }

    /** The end-points of the window, as `query_resource` receives them. */
    function Span(): Window
      reads this
    {
      Window(startTime, endTime)
    }

    /** `load_timespan` (collect_metrics.py:95-108). */
    method LoadTimespan(args: Args, now: int)
      modifies this`startTime, this`endTime
      ensures Span() == Timespan(args, now)
    {
      if LastNDaysGiven(args) {
        startTime := now - args.lastNDays.value * MicrosPerDay;
      } else if args.startTime.Some? {
        startTime := args.startTime.value;
      } else {
        startTime := now - DefaultNDays * MicrosPerDay;
      }
      if args.endTime.Some? {
        endTime := args.endTime.value;
      } else {
        endTime := now;
      }
    }

    /** `load_granularity` (collect_metrics.py:111-113); an error is what the
        `timedelta` call raises. */
    method LoadGranularity(config: GranularityConfig) returns (err: Option<ConfigError>)
      modifies this`granularity
      ensures Granularity(config).Success? ==> err.None? && granularity == Granularity(config).value
      ensures Granularity(config).Failure? ==> err == Some(Granularity(config).error)
    {
      var len := UnitLength(config.unit);
      if len.None? {
        return Some(UnknownUnit(config.unit));
      }
      var d := config.count * len.value;
      if !(MinDuration <= d <= MaxDuration) {
        return Some(DurationOverflow);
      }
      granularity := d;
      return None;
    }

    /** `load_metrics` (collect_metrics.py:115-120). */
    method LoadMetrics(queries: Queries)
      modifies this`metricsByAggregation
      ensures metricsByAggregation == GroupMetrics(queries)
    {
      var groups: MetricGroups := [];
      var i := 0;
      assert queries[..0] == [];
      while i < |queries|
        invariant 0 <= i <= |queries|
        invariant groups == GroupAll([], Appends(queries[..i]))
      {
        var (provider, metrics) := queries[i];
        groups := AppendMetrics(groups, provider, metrics);
        AppendsSnoc(queries, i);
        GroupAllAppend([], Appends(queries[..i]), MetricAppends(provider, metrics));
        i := i + 1;
      }
      assert queries[..i] == queries;
      metricsByAggregation := groups;
    }
  }

  /** `QuerySettings(args, metrics_query_settings)` (collect_metrics.py:89-93):
      the window, then the granularity (whose error aborts the construction),
      then the groups and the definitions-only flag. */
  method NewQuerySettings(args: Args, config: MetricsQueryConfig, now: int)
    returns (r: Result<QuerySettings, ConfigError>)
    ensures Granularity(config.granularity).Failure? <==> r.Failure?
    ensures r.Failure? ==> r.error == Granularity(config.granularity).error
    ensures r.Success? ==>
      && fresh(r.value)
      && r.value.Span() == Timespan(args, now)
      && r.value.granularity == Granularity(config.granularity).value
      && r.value.metricsByAggregation == GroupMetrics(config.queries)
      && r.value.printDefinitionsOnly == args.definitionsOnly
  {
    var settings := new QuerySettings();
    settings.LoadTimespan(args, now);
    var err := settings.LoadGranularity(config.granularity);
    if err.Some? {
      return Failure(err.value);
    }
    settings.LoadMetrics(config.queries);
    settings.printDefinitionsOnly := args.definitionsOnly;
    return Success(settings);
  }
}
