# Azure metrics and profile collectors, modelled in Dafny

The repository has two command-line collectors for Azure resources. Both walk
an inventory of subscription → resource group → provider → resource names.

- `collect_metrics.py` builds query settings: a time window, a granularity,
  and the configured metric names grouped by provider and aggregation. For
  each resource it queries the metrics service in batches of at most 20
  names. It keeps the data points whose aggregated value is truthy and
  writes one 9-field CSV row per point. Each resource's rows are sorted as
  one block, after a single header line.
- `collect_profiles.py` fetches a record per resource: a MySQL server with
  its configuration parameters, an SQL database, or a storage account with
  its containers and file shares. It flattens each record into dot-joined
  keys with string and integer leaves only. It writes them as sorted,
  tab-separated `property` rows, plus `parameter` rows for MySQL. Management
  clients are built lazily, one per provider and subscription, from a fixed
  table. A provider missing from that table stops the run with `KeyError`.

The model takes the source's own form:

- The loops that write to the output stream are methods on an output
  `Sink`, a class holding the text written so far.
- `QuerySettings` and the client table are classes whose methods update
  their fields.
- Record flattening, row formatting, batching and grouping are functions.
- Every method is proved against a specification function of its inputs,
  and the properties the code promises are proved about those functions as
  lemmas.

The remote services are not modelled as calls:

- The metrics service is an oracle from a request to the metrics it
  returns.
- The management clients are a `Service` value of oracle functions, each
  taking a client.

Python dicts are ordered association lists. Instants and durations are
integers counting microseconds, and "now" is a parameter.

Modules (one per file):

- `Wrappers`: `Option` and `Result`.
- `Text`: `join`, `split`, `''.join`, and `str`/`int` of integers.
- `Sorting`: a stable sort by a string key, with lexicographic order.
- `OrderedDict`: dict lookup and assignment.
- `Output`: the output stream.
- `Inventory`: the inventory and its walk, and the text written resource by
  resource.
- `MetricsConfig`: `QuerySettings`.
- `Metrics`: `get_metrics` and `write_metrics`.
- `Flatten`: `flatten_data`.
- `Profiles`: `write_key_values`, the three profile writers and
  `write_profiles`.

## Model

| member | source | states |
|---|---|---|
| MetricsConfig.Timespan | collect_metrics.py:95-108 | A truthy day count gives start = now − n days; otherwise an explicit start is used; otherwise start = now − 14 days. End is the explicit end if given, else now. |
| MetricsConfig.TimespanLength | collect_metrics.py:95-106 | With no explicit instants, the window ends now and spans exactly the effective number of days, so it is non-empty iff that count is positive. An explicit start is ignored whenever a non-zero day count is given. |
| MetricsConfig.TimespanAsWritten | collect_metrics.py:95-108 | As written, a non-empty `--last-n-days` text fails, and only then. Otherwise the window is the one chosen without a day count: an explicit `--start-time`, else 14 days before now, ending at `--end-time` or now. |
| MetricsConfig.LastNDaysAsWritten | collect_metrics.py:25 | With no `--start-time` and no `--end-time`, `--last-n-days 7` fails as written. The integer reading gives `[now − 7 days, now]`. |
| MetricsConfig.Granularity | collect_metrics.py:111-113 | It fails iff the unit is not a `timedelta` keyword or the duration is out of `timedelta`'s range. An unknown unit gives `UnknownUnit`. Otherwise the result is count × unit length. |
| MetricsConfig.GranularityUnits | collect_metrics.py:111-113 | Five minutes is 300 s and an unknown unit is an error. Weeks, days, hours, minutes and seconds agree with one another (7, 24, 60, 60). |
| MetricsConfig.GroupMetricsGroups | collect_metrics.py:115-120 | The group for (provider, aggregation) is the names of that provider's metrics listing the aggregation, in config order, each repeated as often as it lists it. |
| MetricsConfig.GroupMetricsTotal | collect_metrics.py:115-120 | A provider's groups hold as many names in total as its metrics list aggregations, so a metric with k aggregations lands k times. |
| MetricsConfig.UnconfiguredProvider | collect_metrics.py:116-120 | A provider absent from the query config has no entry, so its aggregation mapping is empty. |
| MetricsConfig.GroupAllWellKeyed | collect_metrics.py:116-120 | Appending keeps providers, and each provider's aggregations, distinct. |
| MetricsConfig.GroupMetricsWellKeyed | collect_metrics.py:115-120 | The groups `load_metrics` builds list no provider twice, and no aggregation of a provider twice. |
| MetricsConfig.GroupAllAppend | collect_metrics.py:117-120 | Grouping two runs of appends is grouping the first, then the second. |
| MetricsConfig.AppendAggregations | collect_metrics.py:119-120 | The innermost loop appends the name to each of its aggregations' groups, as the grouping function says. |
| MetricsConfig.AppendMetrics | collect_metrics.py:118-120 | The loop over a provider's metrics does the grouping function's appends. |
| MetricsConfig.QuerySettings.LoadTimespan | collect_metrics.py:95-108 | The stored window is `Timespan(args, now)`. |
| MetricsConfig.QuerySettings.LoadGranularity | collect_metrics.py:111-113 | It stores the duration, or reports the error, exactly as `Granularity` says. |
| MetricsConfig.QuerySettings.LoadMetrics | collect_metrics.py:115-120 | The stored groups are `GroupMetrics(queries)`. |
| MetricsConfig.NewQuerySettings | collect_metrics.py:89-93 | Construction fails iff the granularity does, with its error. Otherwise the object holds the window, the granularity, the groups and the definitions-only flag. |
| Metrics.RowShape | collect_metrics.py:57 | A row is nine comma-separated fields in header order, ending in a newline. When no field holds a comma, it splits back into those fields. |
| Metrics.PointRowsMembers | collect_metrics.py:53-57 | A row comes from a data point iff that point's aggregated value is truthy, so zero and `None` are dropped. There are at most as many rows as points. |
| Metrics.MetricRowsMembers | collect_metrics.py:48-57 | The answer's rows are those of the first time series of each metric that has a time series. Metrics with no time series yield nothing. |
| Metrics.PointLoop | collect_metrics.py:53-57 | The loop over one time series appends a row for each data point whose aggregated value is truthy, in the order of the points. |
| Metrics.GetMetrics | collect_metrics.py:40-57 | The generator's rows are the rows of the oracle's answer to the query. |
| Metrics.BatchesConcat | collect_metrics.py:72-74 | The batches concatenate back to the name list, in order. |
| Metrics.BatchesShape | collect_metrics.py:72-74 | There are ceil(n/20) batches, each of 1 to 20 names; batch k is the slice starting at 20k. An empty list has no batch. |
| Metrics.AggregationRequestsShape | collect_metrics.py:71-84 | One request per batch, carrying the window, granularity and aggregation. An empty name list issues no request. |
| Metrics.QueryBatches | collect_metrics.py:72-84 | The batching loop collects the rows of every batch's request, in order. |
| Metrics.ResourceMetrics | collect_metrics.py:70-84 | The loop over aggregations collects the rows of every request of the resource, in order. |
| Metrics.UnconfiguredResource | collect_metrics.py:71 | A resource whose provider is not configured issues no query, and its block is empty, with no error. |
| Metrics.ResourceBlockSorted | collect_metrics.py:85 | Outside definitions-only mode, a resource's block is its rows in ascending order, whatever order they came in. |
| Metrics.DefinitionsOnlyOutput | collect_metrics.py:62-68 | In definitions-only mode the output is the header alone. |
| Metrics.MetricsOutputOrder | collect_metrics.py:62-85 | The output is the header, then the blocks of the resources in inventory order. Nothing is sorted across resources. |
| Metrics.WriteProvider | collect_metrics.py:66-85 | It appends the blocks of one provider's resources. |
| Metrics.WriteGroup | collect_metrics.py:65-85 | It appends the blocks of one resource group's resources. |
| Metrics.WriteSubscription | collect_metrics.py:64-85 | It appends the blocks of one subscription's resources. |
| Metrics.WriteMetrics | collect_metrics.py:59-85 | It appends `MetricsOutput`: the header once, first, then each resource's sorted block in inventory order. |
| Inventory.WalkCount | collect_metrics.py:63-66 | The walk visits exactly one resource per resource name listed in the inventory. |
| Inventory.BlocksAppend | collect_metrics.py:63-85 | The text for two runs of resources is the first run's text followed by the second's. |
| Sorting.SortBySpec | collect_metrics.py:85 | The sort is a permutation of its input into ascending key order. |
| Sorting.SortByStable | collect_profiles.py:41 | The sort is stable: elements with equal keys keep their order. |
| Sorting.SortedStringsUnique | collect_metrics.py:85 | Two ascending permutations of the same rows are equal. |
| Sorting.SortedDistinctUnique | collect_profiles.py:30 | Two ascending permutations of entries with distinct keys are equal. |
| Text.JoinSplit | collect_profiles.py:48 | Joining the pieces of a split gives back the string. |
| Text.SplitJoin | collect_profiles.py:32 | Splitting a join of one or more separator-free pieces gives back the pieces. |
| Text.SplitPiecesFree | collect_profiles.py:48 | No piece of a split contains the separator. |
| Text.IntToStringRoundTrip | collect_profiles.py:31 | `str` of an integer is digits with an optional leading minus sign, and `int` reads it back. |
| OrderedDict.PutGet | collect_profiles.py:23 | After an assignment the key maps to the new value, and every other key is unchanged. |
| OrderedDict.PutUnique | collect_profiles.py:23 | Assignment keeps keys distinct. |
| Flatten.AsScalar | collect_profiles.py:22 | A leaf is kept iff it is a string or an integer, not a bool, float, list or `None`. |
| Flatten.EmitLeaves | collect_profiles.py:20-26 | The recursive flattening is the sequence of assignments listed by the reference definition `Leaves`. |
| Flatten.LeavesMembers | collect_profiles.py:20-25 | A (key, leaf) is listed iff some entry's value reaches a string or integer leaf along a path of dicts. The key is then prefix + name + entry key + path, joined by dots. |
| Flatten.PutAllGet | collect_profiles.py:23 | The last assignment to a key wins. |
| Flatten.FlattenDataLast | collect_profiles.py:18-27 | Each key maps to the last leaf written for it, and keys are distinct. |
| Flatten.FlattenDataMembers | collect_profiles.py:18-27 | If a key maps to a leaf, some path of dicts reaches that leaf and the key is its dot-joined path. Each such path's key is present. |
| Flatten.FlattenDataPrefix | collect_profiles.py:23 | For a non-empty prefix, every key starts with the dot-joined prefix and a dot. |
| Flatten.FlattenDataEmpty | collect_profiles.py:18-27 | The result is empty iff no leaf is kept, so an empty dict, or one with only dropped leaves, gives an empty map. |
| Flatten.FlattenDataExample | collect_profiles.py:18-27 | `{"a":{"b":1,"c":"x","d":1.5,"e":[1,2],"f":true}}` under prefix `account` flattens to `account.a.b = 1`, `account.a.c = "x"`. |
| Profiles.KeyValueRowShape | collect_profiles.py:31-33 | A row is the prefix fields, the type, the name and `str(value)`, tab-joined with a newline: the prefix fields plus 3, which split back when no field holds a tab. With a resource's 4 prefix fields that is 7. An integer value reads back. |
| Profiles.KeyValueTextSorted | collect_profiles.py:30 | The rows come in ascending key order: any ascending permutation of the entries writes the same text. |
| Profiles.WriteKeyValues | collect_profiles.py:29-33 | It appends one row per entry, sorted by key. |
| Profiles.ParameterRowShape | collect_profiles.py:42-44 | A parameter row has the prefix fields plus 4 tab-separated fields, ending in the description; with a resource's 4 prefix fields that is 8. When no field holds a tab, it splits back into those fields. |
| Profiles.WriteMySqlProfile | collect_profiles.py:35-44 | It appends the server's property rows, then one parameter row per configuration, sorted by name. |
| Profiles.SqlNames | collect_profiles.py:48-50 | The server name is the first `/`-piece and the database name the last; neither holds `/`. They are a prefix and a suffix of the name, and both equal it when it has no `/`. |
| Profiles.SqlNamesRoundTrip | collect_profiles.py:48-50 | When neither name contains `/`, `server/database` splits back into its server and its database. |
| Profiles.WriteSqlProfile | collect_profiles.py:46-53 | It appends the database's property rows, fetched by server and database name. |
| Profiles.WriteNamed | collect_profiles.py:59-64 | It appends the sorted property block of each container or file share, in listing order. |
| Profiles.WriteStorageProfile | collect_profiles.py:55-64 | It appends the account block, then a block per container, then a block per file share, each sorted on its own. |
| Profiles.AccountKeys | collect_profiles.py:57 | Every account key starts with `account.`. |
| Profiles.NamedKeys | collect_profiles.py:60 | Every container or file-share key starts with `<kind>.<name>.`. |
| Profiles.MySqlDispatch | collect_profiles.py:95-96 | Both MySQL provider kinds go to the MySQL writer, each with its own client class. |
| Profiles.AcquireBuild | collect_profiles.py:91-93 | Building a client for a new pair keeps the table consistent: each client is of its provider's class and for its subscription, with a fresh serial number. |
| Profiles.StepOutcome | collect_profiles.py:90-100 | A provider visit fails iff its provider has no entry, and then builds and writes nothing. Otherwise the table afterwards holds the visited pair's client and the step writes with it. Clients already built are unchanged. |
| Profiles.RunSticky | collect_profiles.py:91 | Once the run has failed, later visits change nothing. |
| Profiles.RunFails | collect_profiles.py:91-92 | The run fails iff some visited provider has no entry, and the error names such a provider. |
| Profiles.RunUnknown | collect_profiles.py:91-92 | An unknown provider stops the run where it is met, before any client or row for it. |
| Profiles.RunValid | collect_profiles.py:91-93 | The table stays consistent: one client per pair, each of the right class, with distinct serials. The count equals the number of pairs. |
| Profiles.RunExtends | collect_profiles.py:91-93 | A client, once built, is kept unchanged for the rest of the run. |
| Profiles.RunCache | collect_profiles.py:91-93 | After a successful run, the table holds a client for exactly the visited (provider, subscription) pairs, including pairs with no resources. |
| Profiles.RunText | collect_profiles.py:93-100 | In a run without error, every visit writes with the client the final table holds for its pair, so a pair's client is built once and reused. |
| Profiles.ClientCache.ClientFor | collect_profiles.py:91-93 | It returns the pair's client, building it on first use, or fails on an unknown provider with the table unchanged. |
| Profiles.WriteProfile | collect_profiles.py:95-100 | It appends the profile of one resource by provider. Other providers write nothing. |
| Profiles.WriteResources | collect_profiles.py:94-100 | It appends the profiles of one provider's resources in order. |
| Profiles.VisitProvider | collect_profiles.py:90-100 | One provider visit advances the output, the table and the error as one `Step` of the run. |
| Profiles.WriteGroupProfiles | collect_profiles.py:89-100 | The loop over a resource group's providers advances the output, table and error as the run does, stopping at an error. |
| Profiles.WriteSubscriptionProfiles | collect_profiles.py:89-100 | The loop over a subscription's resource groups advances the state in the same way, also stopping at an error. |
| Profiles.WriteProfiles | collect_profiles.py:66-100 | It appends the header once, first, then the whole run's text, and stops with the run's error. |

## Left out

- The Azure SDK and credentials are not modelled: `AzureCliCredential`,
  `MetricsQueryClient`, the `azure.mgmt.*` clients and their `serialize`/
  `as_dict`. They are remote calls, so their answers are oracle inputs. A
  management client is identified by its class, subscription and creation
  serial number.
- Remote errors are not modelled, and neither is any other exception
  except these:
  - the profile collector's `KeyError` (`Profiles.RunFails`);
  - `load_granularity`'s two `timedelta` errors, an unknown keyword and a
    duration out of range (`MetricsConfig.Granularity`);
  - `load_timespan`'s `TypeError` on a day count given as text
    (`MetricsConfig.TimespanAsWritten`).
- `print_metric_names` (collect_metrics.py:29-38) only prints remote
  metadata to standard output. In definitions-only mode the model writes
  nothing to the output file for a resource.
- `parse_args`, `json.load`, opening and closing files, standard output and
  the urllib3 warning suppression are I/O and setup. The `print` of the
  window (collect_metrics.py:127) is left out for the same reason.
- `datetime.now`, `fromisoformat`, `isoformat` and time zones are left out.
  Instants are integers and "now" is a parameter.
  - One `now` stands for both `datetime.now` calls of `load_timespan`: the
    one for the start (line 97 or 101) and the one for the end (line 106).
    The model does not capture the time that passes between them.
    `TimespanLength`'s exact window length rests on this.
  - The `timespan_isoformat` field (collect_metrics.py:109) is left out,
    since only that `print` reads it.
  - A data point's timestamp is opaque text.
- MetricsConfig.Timespan: the day count is an optional integer, the reading
  the code evidently intends. The code as written passes the raw text to
  `timedelta` (see Findings).
  - `Timespan` always succeeds. It does not model the `OverflowError` that
    `timedelta` or `datetime` raises for a day count beyond ±999999999 or
    a start outside years 1 to 9999.
- Float metric values and how `str` renders them are not modelled. A value
  is opaque text with its Python truth value. Likewise a configuration's
  `str(value)` is opaque text, and floats in a record are dropped without
  their value being modelled.
- A configuration whose `description` is `None` makes the join raise
  `TypeError`. That depends on SDK objects, so the description is always
  text.
- `getattr(metric_data, aggregation)` becomes a lookup of the aggregation
  name in the data point's values. An aggregation that is not an attribute
  gives `None`, so the point is dropped, rather than raising
  `AttributeError`.
- Python's `sorted` on rows, on `(name, value)` pairs and on configurations
  by name are one stable insertion sort by a string key, in code-point
  order.
  - Sorting dict items by name equals sorting the pairs, because flattened
    keys are distinct.
  - Sorting is proved to give the unique ascending permutation but is not
    written as an in-place algorithm, because `sorted` returns a new list.
- Both headers are string literals equal to the joins in the source
  (collect_metrics.py:62, collect_profiles.py:67-69).
- Each nested loop of the two walks is its own method, so that each loop
  carries its own invariant.
- convert_to_excel.py is not part of this model. It is a pandas/openpyxl
  wrapper whose column widths depend on float formatting.

## Findings

| source | as written | input that shows it | evidently intended | confidence | as-written member | corrected member |
|---|---|---|---|---|---|---|
| collect_metrics.py:25 | `--last-n-days` has no `type=int`, so `load_timespan` passes the text to `timedelta(days=...)` at line 97, which raises `TypeError` | `--last-n-days 7` | the window of the 7 days before now, as the option's help text and default suggest | high (not executed) | MetricsConfig.LastNDaysAsWritten | MetricsConfig.TimespanLength |

Two behaviours of the code around unexpected providers:

- In the metrics collector, an unconfigured provider yields nothing and
  raises no error. This is because of the `defaultdict`
  (collect_metrics.py:71, 116; `Metrics.UnconfiguredResource`).
- In the profile collector, an unknown provider raises the client table's
  `KeyError` (collect_profiles.py:91; `Profiles.RunFails`). A provider with a
  table entry but no writer cannot occur, because all four entries have
  writers.
