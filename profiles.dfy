/** The profile collector's writers (collect_profiles.py:29-100): after a
    header, one tab-separated row per flattened property of each MySQL
    server, SQL database and storage account of the inventory, and one row
    per configuration parameter of each MySQL server. Management clients are
    built lazily, one per provider and subscription. */
module Profiles {
  import opened Wrappers
  import opened Text
  import opened Sorting
  import opened OrderedDict
  import opened Inventory
  import opened Flatten
  import opened Output

  // ---- write_key_values ----

  /** `str(value)` for a kept leaf. */
  function ScalarText(v: Scalar): string
  {
    match v
    case SStr(s) => s
    case SInt(n) => IntToString(n)
  }

  /** The four leading fields of every row about resource `r`. */
  function PrefixFields(r: Resource): seq<string>
  {
    [r.subscription, r.resourceGroup, r.provider, r.name]
  }

  function EntryFields(prefixFields: seq<string>, dataType: string, entry: (string, Scalar)): seq<string>
  {
    prefixFields + [dataType, entry.0, ScalarText(entry.1)]
  }

  /** One row of `write_key_values`. */
  function KeyValueRow(prefixFields: seq<string>, dataType: string, entry: (string, Scalar)): string
  {
    Join('\t', EntryFields(prefixFields, dataType, entry)) + "\n"
  }

  function EntryName(entry: (string, Scalar)): string
  {
    entry.0
  }

  /** The rows for `entries`, in order. */
  function KeyValueLines(prefixFields: seq<string>, dataType: string, entries: seq<(string, Scalar)>): string
  {
    if entries == [] then ""
    else
      KeyValueLines(prefixFields, dataType, entries[..|entries| - 1])
      + KeyValueRow(prefixFields, dataType, entries[|entries| - 1])
  }

  /** Everything `write_key_values` writes: one row per entry, by ascending
      name. Python sorts the (name, value) pairs, but the names of a `dict`
      are distinct, so the values are never compared. */
  function KeyValueText(prefixFields: seq<string>, data: Flat, dataType: string): string
  {
    KeyValueLines(prefixFields, dataType, SortBy(data, EntryName))
  }

  /** `write_key_values` (collect_profiles.py:29-33). */
  method WriteKeyValues(out: Sink, prefixFields: seq<string>, data: Flat, dataType: string)
    modifies out
    ensures out.text == old(out.text) + KeyValueText(prefixFields, data, dataType)
  {
    var entries := SortBy(data, EntryName);
    var i := 0;
    while i < |entries|
      invariant 0 <= i <= |entries|
      invariant out.text == old(out.text) + KeyValueLines(prefixFields, dataType, entries[..i])
    {
      ghost var done := KeyValueLines(prefixFields, dataType, entries[..i]);
      var (name, value) := entries[i];
      var fields := prefixFields + [dataType, name, ScalarText(value)];
      var line := Join('\t', fields);
      out.Write(line + "\n");
      assert entries[..i + 1][..i] == entries[..i];
      AppendAssoc(old(out.text), done, KeyValueRow(prefixFields, dataType, entries[i]));
      i := i + 1;
    }
    assert entries[..i] == entries;
  }

  /** A row splits back into its fields at the tabs when no field holds a
      tab; an integer value reads back as the integer. */
  lemma KeyValueRowShape(prefixFields: seq<string>, dataType: string, entry: (string, Scalar))
    requires forall i :: 0 <= i < |prefixFields| ==> '\t' !in prefixFields[i]
    requires '\t' !in dataType && '\t' !in entry.0
    requires entry.1.SStr? ==> '\t' !in entry.1.s
    ensures var row := KeyValueRow(prefixFields, dataType, entry);
      && |row| >= 1 && row[|row| - 1] == '\n'
      && Split(row[..|row| - 1], '\t') == prefixFields + [dataType, entry.0, ScalarText(entry.1)]
    ensures entry.1.SInt? ==> ParseInt(ScalarText(entry.1)) == entry.1.i
  {
    var fields := EntryFields(prefixFields, dataType, entry);
    if entry.1.SInt? {
      IntToStringRoundTrip(entry.1.i);
    }
    assert '\t' !in ScalarText(entry.1);
    assert forall i :: 0 <= i < |fields| ==> '\t' !in fields[i] by {
      forall i | 0 <= i < |fields| ensures '\t' !in fields[i] {
        if i < |prefixFields| {
          assert fields[i] == prefixFields[i];
        }
      }
    }
    var row := KeyValueRow(prefixFields, dataType, entry);
    assert row[..|row| - 1] == Join('\t', fields);
    SplitJoin(fields, '\t');
  }

  /** The rows are fixed by the entries and their order: any ordering of the
      entries of a `dict` by ascending name, such as Python's sort of its
      (name, value) pairs, writes the same text, because the names of a
      `dict` are distinct. */
  lemma KeyValueTextSorted(prefixFields: seq<string>, data: Flat, dataType: string, entries: seq<(string, Scalar)>)
    requires DistinctKeys(entries, EntryName)
    requires multiset(entries) == multiset(data) && SortedBy(entries, EntryName)
    ensures KeyValueLines(prefixFields, dataType, entries) == KeyValueText(prefixFields, data, dataType)
  {
    SortBySpec(data, EntryName);
    SortedDistinctUnique(entries, SortBy(data, EntryName), EntryName);
  }

  // ---- The management service ----

  /** A configuration parameter of a MySQL server: its name, `str(config.value)`
      and its description. */
  datatype Config = Config(name: string, valueText: string, description: string)

  /** A blob container or file share: its name and `as_dict()`. */
  datatype Named = Named(name: string, record: Record)

  /** The management client classes of the `clients` table. */
  datatype ClientClass = MySqlManagement | MySqlFlexibleManagement | SqlManagement | StorageManagement

  /** A management client: its class, the subscription it was built for, and
      the number of clients built before it, which tells clients apart. */
  datatype Client = Client(cls: ClientClass, subscription: string, serial: nat)

  /** What the management service returns to a client, by resource group and
      resource name. */
  datatype Service = Service(
    server: (Client, string, string) -> Record,             // client.servers.get(...).serialize()
    configurations: (Client, string, string) -> seq<Config>, // client.configurations.list_by_server(...)
    database: (Client, string, string, string) -> Record,   // client.databases.get(...).as_dict()
    accountProperties: (Client, string, string) -> Record,  // client.storage_accounts.get_properties(...).as_dict()
    containers: (Client, string, string) -> seq<Named>,     // client.blob_containers.list(...)
    fileShares: (Client, string, string) -> seq<Named>)     // client.file_shares.list(...)

  // ---- write_mysql_profile ----

  function ConfigName(c: Config): string
  {
    c.name
  }

  function ParameterFields(prefixFields: seq<string>, c: Config): seq<string>
  {
    prefixFields + ["parameter", c.name, c.valueText, c.description]
  }

  /** One parameter row of `write_mysql_profile`. */
  function ParameterRow(prefixFields: seq<string>, c: Config): string
  {
    Join('\t', ParameterFields(prefixFields, c)) + "\n"
  }

  /** The parameter rows for `configs`, in order. */
  function ParameterLines(prefixFields: seq<string>, configs: seq<Config>): string
  {
    if configs == [] then ""
    else ParameterLines(prefixFields, configs[..|configs| - 1]) + ParameterRow(prefixFields, configs[|configs| - 1])
  }

  /** Everything `write_mysql_profile` writes for server `r`: its flattened
      properties, then its configuration parameters by ascending name, those
      with equal names in the order the service listed them. */
  function MySqlProfile(svc: Service, client: Client, r: Resource): string
  {
    var p := PrefixFields(r);
    KeyValueText(p, FlattenData(svc.server(client, r.resourceGroup, r.name), []), "property")
    + ParameterLines(p, SortBy(svc.configurations(client, r.resourceGroup, r.name), ConfigName))
  }

  /** `write_mysql_profile` (collect_profiles.py:35-44). */
  method WriteMySqlProfile(out: Sink, svc: Service, client: Client, sub: string, rg: string, provider: string,
                           name: string)
    modifies out
    ensures out.text == old(out.text) + MySqlProfile(svc, client, Resource(sub, rg, provider, name))
  {
    var prefixFields := [sub, rg, provider, name];
    var serverInfo := FlattenData(svc.server(client, rg, name), []);
    WriteKeyValues(out, prefixFields, serverInfo, "property");
    ghost var done := out.text;
    var configs := SortBy(svc.configurations(client, rg, name), ConfigName);
    var i := 0;
    while i < |configs|
      invariant 0 <= i <= |configs|
      invariant out.text == done + ParameterLines(prefixFields, configs[..i])
    {
      ghost var lines := ParameterLines(prefixFields, configs[..i]);
      var parameterFields := prefixFields + ["parameter", configs[i].name, configs[i].valueText, configs[i].description];
      var parameterString := Join('\t', parameterFields);
      out.Write(parameterString + "\n");
      assert configs[..i + 1][..i] == configs[..i];
      AppendAssoc(done, lines, ParameterRow(prefixFields, configs[i]));
      i := i + 1;
    }
    assert configs[..i] == configs;
    AppendAssoc(old(out.text), KeyValueText(prefixFields, serverInfo, "property"), ParameterLines(prefixFields, configs));
  }

  /** A parameter row has the prefix fields and four more, the description
      last, when no field holds a tab. */
  lemma ParameterRowShape(prefixFields: seq<string>, c: Config)
    requires forall i :: 0 <= i < |prefixFields| ==> '\t' !in prefixFields[i]
    requires '\t' !in c.name && '\t' !in c.valueText && '\t' !in c.description
    ensures var row := ParameterRow(prefixFields, c);
      && |row| >= 1 && row[|row| - 1] == '\n'
      && Split(row[..|row| - 1], '\t') == prefixFields + ["parameter", c.name, c.valueText, c.description]
  {
    var fields := ParameterFields(prefixFields, c);
    assert forall i :: 0 <= i < |fields| ==> '\t' !in fields[i] by {
      forall i | 0 <= i < |fields| ensures '\t' !in fields[i] {
        if i < |prefixFields| {
          assert fields[i] == prefixFields[i];
        }
      }
    }
    var row := ParameterRow(prefixFields, c);
    assert row[..|row| - 1] == Join('\t', fields);
    SplitJoin(fields, '\t');
  }

  // ---- write_sql_profile ----

  /** `resource_name.split('/')[0]`. */
  function ServerName(resourceName: string): string
  {
    Split(resourceName, '/')[0]
  }

  /** `resource_name.split('/')[-1]`. */
  function DatabaseName(resourceName: string): string
  {
    var fields := Split(resourceName, '/');
    fields[|fields| - 1]
  }

  /** Everything `write_sql_profile` writes for database `r`: the flattened
      properties of the database named by the last piece of its name on the
      server named by the first. */
  function SqlProfile(svc: Service, client: Client, r: Resource): string
  {
    var database := svc.database(client, r.resourceGroup, ServerName(r.name), DatabaseName(r.name));
    KeyValueText(PrefixFields(r), FlattenData(database, []), "property")
  }

  /** `write_sql_profile` (collect_profiles.py:46-53). */
  method WriteSqlProfile(out: Sink, svc: Service, client: Client, sub: string, rg: string, provider: string,
                         name: string)
    modifies out
    ensures out.text == old(out.text) + SqlProfile(svc, client, Resource(sub, rg, provider, name))
  {
    var prefixFields := [sub, rg, provider, name];
    var resourceFields := Split(name, '/');
    var serverName := resourceFields[0];
    var databaseName := resourceFields[|resourceFields| - 1];
    var databaseInfo := FlattenData(svc.database(client, rg, serverName, databaseName), []);
    WriteKeyValues(out, prefixFields, databaseInfo, "property");
  }

  /** The server name is the text before the first '/', the database name
      the text after the last; a name without '/' is both. */
  lemma {:induction false} SqlNames(resourceName: string)
    ensures '/' !in ServerName(resourceName) && '/' !in DatabaseName(resourceName)
    ensures |ServerName(resourceName)| <= |resourceName|
    ensures resourceName[..|ServerName(resourceName)|] == ServerName(resourceName)
    ensures |DatabaseName(resourceName)| <= |resourceName|
    ensures resourceName[|resourceName| - |DatabaseName(resourceName)|..] == DatabaseName(resourceName)
    ensures '/' !in resourceName ==> ServerName(resourceName) == resourceName == DatabaseName(resourceName)
  {
    var fields := Split(resourceName, '/');
    var m := |fields|;
    SplitPiecesFree(resourceName, '/');
    JoinSplit(resourceName, '/');
    if m == 1 {
    } else {
      assert resourceName == fields[0] + ['/'] + Join('/', fields[1..]);
      assert fields == fields[..m - 1] + [fields[m - 1]];
      JoinAppend('/', fields[..m - 1], [fields[m - 1]]);
      assert resourceName == Join('/', fields[..m - 1]) + ['/'] + fields[m - 1];
      assert '/' in resourceName by {
        assert resourceName[|fields[0]|] == '/';
      }
    }
  }

  /** A name `server/database` names that server and database. */
  lemma SqlNamesRoundTrip(server: string, database: string)
    requires '/' !in server && '/' !in database
    ensures ServerName(server + "/" + database) == server
    ensures DatabaseName(server + "/" + database) == database
  {
    assert Join('/', [server, database]) == server + "/" + database by {
      assert [server, database][1..] == [database];
    }
    SplitJoin([server, database], '/');
  }

  // ---- write_storage_profile ----

  /** The rows of the containers or file shares `items`, each flattened under
      `[kind, item.name]`, in the order the service listed them. */
  function NamedLines(prefixFields: seq<string>, kind: string, items: seq<Named>): string
  {
    if items == [] then ""
    else
      var item := items[|items| - 1];
      NamedLines(prefixFields, kind, items[..|items| - 1])
      + KeyValueText(prefixFields, FlattenData(item.record, [kind, item.name]), "property")
  }

  /** Everything `write_storage_profile` writes for account `r`: its
      properties under `account`, then each blob container's under
      `container.<name>`, then each file share's under `fileshare.<name>`. */
  function StorageProfile(svc: Service, client: Client, r: Resource): string
  {
    var p := PrefixFields(r);
    KeyValueText(p, FlattenData(svc.accountProperties(client, r.resourceGroup, r.name), ["account"]), "property")
    + NamedLines(p, "container", svc.containers(client, r.resourceGroup, r.name))
    + NamedLines(p, "fileshare", svc.fileShares(client, r.resourceGroup, r.name))
  }

  /** One of the two loops of `write_storage_profile`. */
  method WriteNamed(out: Sink, prefixFields: seq<string>, kind: string, items: seq<Named>)
    modifies out
    ensures out.text == old(out.text) + NamedLines(prefixFields, kind, items)
  {
    var i := 0;
    while i < |items|
      invariant 0 <= i <= |items|
      invariant out.text == old(out.text) + NamedLines(prefixFields, kind, items[..i])
    {
      ghost var done := NamedLines(prefixFields, kind, items[..i]);
      var properties := FlattenData(items[i].record, [kind, items[i].name]);
      WriteKeyValues(out, prefixFields, properties, "property");
      assert items[..i + 1][..i] == items[..i];
      AppendAssoc(old(out.text), done, KeyValueText(prefixFields, properties, "property"));
      i := i + 1;
    }
    assert items[..i] == items;
  }

  /** `write_storage_profile` (collect_profiles.py:55-64). */
  method WriteStorageProfile(out: Sink, svc: Service, client: Client, sub: string, rg: string, provider: string,
                             name: string)
    modifies out
    ensures out.text == old(out.text) + StorageProfile(svc, client, Resource(sub, rg, provider, name))
  {
    var prefixFields := [sub, rg, provider, name];
    var accountProperties := FlattenData(svc.accountProperties(client, rg, name), ["account"]);
    WriteKeyValues(out, prefixFields, accountProperties, "property");
    ghost var afterAccount := out.text;
    WriteNamed(out, prefixFields, "container", svc.containers(client, rg, name));
    ghost var afterContainers := out.text;
    WriteNamed(out, prefixFields, "fileshare", svc.fileShares(client, rg, name));
    ghost var account := KeyValueText(prefixFields, accountProperties, "property");
    ghost var containers := NamedLines(prefixFields, "container", svc.containers(client, rg, name));
    ghost var shares := NamedLines(prefixFields, "fileshare", svc.fileShares(client, rg, name));
    AppendAssoc(old(out.text), account, containers);
    AppendAssoc(old(out.text), account + containers, shares);
  }

  /** The keys of a container's or file share's properties all start with
      its kind and name. */
  lemma NamedKeys(kind: string, item: Named, key: string)
    requires Get(FlattenData(item.record, [kind, item.name]), key).Some?
    ensures |key| > |kind| + 1 + |item.name|
    ensures key[..|kind| + 1 + |item.name| + 1] == kind + "." + item.name + "."
  {
    FlattenDataPrefix(item.record, [kind, item.name], key);
    assert Join('.', [kind, item.name]) == kind + "." + item.name by {
      assert [kind, item.name][1..] == [item.name];
    }
  }

  /** The keys of an account's properties all start with `account.`. */
  lemma AccountKeys(record: Record, key: string)
    requires Get(FlattenData(record, ["account"]), key).Some?
    ensures |key| >= 8 && key[..8] == "account."
  {
    FlattenDataPrefix(record, ["account"], key);
    assert Join('.', ["account"]) == "account";
    assert "account" + "." == "account.";
  }

  // ---- write_profiles ----

  const MySqlServers: string := "Microsoft.DBforMySQL/servers"
  const MySqlFlexibleServers: string := "Microsoft.DBforMySQL/flexibleServers"
  const SqlServers: string := "Microsoft.Sql/servers"
  const StorageAccounts: string := "Microsoft.Storage/storageAccounts"

  /** The first line `write_profiles` writes (collect_profiles.py:67-69). */
  const ProfilesHeader: string := "subscription\tresource_group_name\tprovider\tresource_name\ttype\tname\tvalue\tdescription\n"

  /** The client class of each provider in the `clients` table
      (collect_profiles.py:70-87). */
  const ClientClasses: map<string, ClientClass> :=
    map[MySqlServers := MySqlManagement, MySqlFlexibleServers := MySqlFlexibleManagement,
        SqlServers := SqlManagement, StorageAccounts := StorageManagement]

  /** The body of the innermost loop (collect_profiles.py:95-100): the writer
      chosen by the provider. */
  function Profile(svc: Service, client: Client, r: Resource): string
  {
    if r.provider == MySqlServers || r.provider == MySqlFlexibleServers then MySqlProfile(svc, client, r)
    else if r.provider == SqlServers then SqlProfile(svc, client, r)
    else if r.provider == StorageAccounts then StorageProfile(svc, client, r)
    else ""
  }

  function ProfileOf(svc: Service, client: Client): Resource -> string
  {
    r => Profile(svc, client, r)
  }

  /** Both MySQL providers go to the MySQL writer, each with a client of its
      own class. */
  lemma MySqlDispatch(svc: Service, client: Client, sub: string, rg: string, name: string)
    ensures Profile(svc, client, Resource(sub, rg, MySqlServers, name)) == MySqlProfile(svc, client, Resource(sub, rg, MySqlServers, name))
    ensures Profile(svc, client, Resource(sub, rg, MySqlFlexibleServers, name))
         == MySqlProfile(svc, client, Resource(sub, rg, MySqlFlexibleServers, name))
    ensures ClientClasses[MySqlServers] == MySqlManagement && ClientClasses[MySqlFlexibleServers] == MySqlFlexibleManagement
  {
  }

  /** The error `write_profiles` stops with: `KeyError` for a provider that
      has no entry in `clients`. */
  datatype ProfileError = UnknownProvider(provider: string)

  /** The client table of `write_profiles`, one entry per provider: its
      client class, and the map `'client'` from subscription to client is
      `clients` keyed by (provider, subscription); `built` counts the clients
      built. */
  datatype CacheState = CacheState(clients: map<(string, string), Client>, built: nat)

  /** Lines 91-93: the client for `provider` in `subscription`, built on first
      use; `KeyError` when `table` has no entry for `provider`. */
  function Acquire(table: map<string, ClientClass>, st: CacheState, provider: string, subscription: string)
    : Result<(CacheState, Client), ProfileError>
  {
    if provider !in table then Failure(UnknownProvider(provider))
    else
      var key := (provider, subscription);
      if key in st.clients then Success((st, st.clients[key]))
      else
        var c := Client(table[provider], subscription, st.built);
        Success((CacheState(st.clients[key := c], st.built + 1), c))
  }

  /** The state of `write_profiles` after some provider visits: the client
      table, the rows written after the header, and the error that stopped it,
      if any. */
  datatype Outcome = Outcome(state: CacheState, text: string, error: Option<ProfileError>)

  /** What one provider visit writes with a given client. */
  type VisitWriter = (Client, ProviderVisit) -> string

  /** The rows `write_profiles` writes for one provider visit with `client`
      (lines 93-100). */
  function VisitText(svc: Service, client: Client, v: ProviderVisit): string
  {
    Blocks(ProfileOf(svc, client), Located(v.subscription, v.resourceGroup, v.provider, v.resourceNames))
  }

  function WriterOf(svc: Service): VisitWriter
  {
    (c, v) => VisitText(svc, c, v)
  }

  /** One pass of the third loop of `write_profiles` (lines 90-100). */
  function Step(table: map<string, ClientClass>, write: VisitWriter, o: Outcome, v: ProviderVisit): Outcome
  {
    if o.error.Some? then o
    else
      match Acquire(table, o.state, v.provider, v.subscription)
      case Failure(e) => Outcome(o.state, o.text, Some(e))
      case Success((st, client)) => Outcome(st, o.text + write(client, v), None)
  }

  /** `write_profiles` over `visits`, after the header. */
  function Run(table: map<string, ClientClass>, write: VisitWriter, visits: seq<ProviderVisit>): Outcome
  {
    if visits == [] then Outcome(CacheState(map[], 0), "", None)
    else Step(table, write, Run(table, write, visits[..|visits| - 1]), visits[|visits| - 1])
  }

  /** Everything `write_profiles` writes after the header, and how it ends. */
  function ProfilesRun(svc: Service, inv: Inventory): Outcome
  {
    Run(ClientClasses, WriterOf(svc), Visits(inv))
  }

  /** The client table stays consistent: each client is of its provider's
      class and for its subscription, the clients have distinct serial
      numbers below the count, and the count is the number of pairs. */
  ghost predicate CacheValid(table: map<string, ClientClass>, st: CacheState)
  {
    && (forall key :: key in st.clients ==>
          key.0 in table && table[key.0] == st.clients[key].cls && st.clients[key].subscription == key.1
          && st.clients[key].serial < st.built)
    && (forall k1, k2 :: k1 in st.clients && k2 in st.clients && k1 != k2 ==>
          st.clients[k1].serial != st.clients[k2].serial)
    && |st.clients.Keys| == st.built
  }

  /** `st` holds every client of `st0`, unchanged. */
  ghost predicate Extends(st: CacheState, st0: CacheState)
  {
    forall key :: key in st0.clients ==> key in st.clients && st.clients[key] == st0.clients[key]
  }

  /** Building a client for a new pair keeps the table consistent. */
  lemma AcquireBuild(table: map<string, ClientClass>, st: CacheState, provider: string, subscription: string)
    requires CacheValid(table, st) && provider in table && (provider, subscription) !in st.clients
    ensures CacheValid(table, Acquire(table, st, provider, subscription).value.0)
  {
    var key := (provider, subscription);
    var c := Client(table[provider], subscription, st.built);
    var m := st.clients[key := c];
    assert Acquire(table, st, provider, subscription).value.0 == CacheState(m, st.built + 1);
    assert m.Keys == st.clients.Keys + {key};
    forall k | k in m
      ensures k.0 in table && table[k.0] == m[k].cls && m[k].subscription == k.1 && m[k].serial < st.built + 1
    {
      if k != key {
        assert m[k] == st.clients[k];
      }
    }
    forall k1, k2 | k1 in m && k2 in m && k1 != k2
      ensures m[k1].serial != m[k2].serial
    {
      if k1 != key && k2 != key {
        assert m[k1] == st.clients[k1] && m[k2] == st.clients[k2];
      }
    }
  }

  /** One step fails exactly when its provider has no entry, and then
      builds nothing and writes nothing; otherwise the table afterwards holds
      a client for the visited pair, the one the step wrote with. */
  lemma StepOutcome(table: map<string, ClientClass>, write: VisitWriter, o: Outcome, v: ProviderVisit)
    ensures var o' := Step(table, write, o, v);
      && Extends(o'.state, o.state)
      && (o.error.Some? ==> o' == o)
      && (o.error.None? && v.provider !in table ==>
            o' == Outcome(o.state, o.text, Some(UnknownProvider(v.provider))))
      && (o.error.None? && v.provider in table ==>
            && o'.error.None?
            && o'.state.clients.Keys == o.state.clients.Keys + {(v.provider, v.subscription)}
            && o'.text == o.text + write(o'.state.clients[(v.provider, v.subscription)], v))
  {
  }

  /** One step keeps the table consistent. */
  lemma StepValid(table: map<string, ClientClass>, write: VisitWriter, o: Outcome, v: ProviderVisit)
    requires CacheValid(table, o.state)
    ensures CacheValid(table, Step(table, write, o, v).state)
  {
    var key := (v.provider, v.subscription);
    if o.error.None? && v.provider in table && key !in o.state.clients {
      var a := Acquire(table, o.state, v.provider, v.subscription);
      assert Step(table, write, o, v).state == a.value.0;
      AcquireBuild(table, o.state, v.provider, v.subscription);
    } else {
      assert Step(table, write, o, v).state == o.state;
    }
  }

  /** Once a visit's provider has no entry, nothing follows. */
  lemma {:induction false} RunSticky(table: map<string, ClientClass>, write: VisitWriter,
                                     a: seq<ProviderVisit>, b: seq<ProviderVisit>)
    requires Run(table, write, a).error.Some?
    ensures Run(table, write, a + b) == Run(table, write, a)
    decreases |b|
  {
    if b == [] {
      assert a + b == a;
    } else {
      var n := |b| - 1;
      assert (a + b)[..|a + b| - 1] == a + b[..n];
      RunSticky(table, write, a, b[..n]);
    }
  }

  /** The client table stays consistent throughout. */
  lemma {:induction false} RunValid(table: map<string, ClientClass>, write: VisitWriter, visits: seq<ProviderVisit>)
    ensures CacheValid(table, Run(table, write, visits).state)
  {
    if visits != [] {
      var n := |visits| - 1;
      RunValid(table, write, visits[..n]);
      StepValid(table, write, Run(table, write, visits[..n]), visits[n]);
    }
  }

  /** The run stops with an error exactly when some visited provider has no
      entry, and the error names such a provider. */
  lemma {:induction false} RunFails(table: map<string, ClientClass>, write: VisitWriter, visits: seq<ProviderVisit>)
    ensures Run(table, write, visits).error.None? <==> forall i :: 0 <= i < |visits| ==> visits[i].provider in table
    ensures Run(table, write, visits).error.Some? ==>
      var p := Run(table, write, visits).error.value.provider;
      p !in table && exists i :: 0 <= i < |visits| && visits[i].provider == p
  {
    if visits != [] {
      var n := |visits| - 1;
      var init := visits[..n];
      RunFails(table, write, init);
      StepOutcome(table, write, Run(table, write, init), visits[n]);
      assert forall i :: 0 <= i < n ==> init[i] == visits[i];
    }
  }

  /** A client, once built, is kept and reused for the rest of the run. */
  lemma {:induction false} RunExtends(table: map<string, ClientClass>, write: VisitWriter,
                                      a: seq<ProviderVisit>, b: seq<ProviderVisit>)
    ensures Extends(Run(table, write, a + b).state, Run(table, write, a).state)
    decreases |b|
  {
    if b == [] {
      assert a + b == a;
    } else {
      var n := |b| - 1;
      assert (a + b)[..|a + b| - 1] == a + b[..n];
      RunExtends(table, write, a, b[..n]);
      StepOutcome(table, write, Run(table, write, a + b[..n]), b[n]);
    }
  }

  /** After a run without error, the table holds a client for exactly the
      (provider, subscription) pairs visited, including those whose resource
      list was empty. */
  lemma {:induction false} RunCache(table: map<string, ClientClass>, write: VisitWriter,
                                    visits: seq<ProviderVisit>, key: (string, string))
    requires Run(table, write, visits).error.None?
    ensures key in Run(table, write, visits).state.clients <==>
      exists i :: 0 <= i < |visits| && visits[i].provider == key.0 && visits[i].subscription == key.1
  {
    if visits != [] {
      var n := |visits| - 1;
      var init := visits[..n];
      StepOutcome(table, write, Run(table, write, init), visits[n]);
      RunCache(table, write, init, key);
      assert forall i :: 0 <= i < n ==> init[i] == visits[i];
      if exists i :: 0 <= i < |visits| && visits[i].provider == key.0 && visits[i].subscription == key.1 {
        var i :| 0 <= i < |visits| && visits[i].provider == key.0 && visits[i].subscription == key.1;
        if i < n {
          assert init[i] == visits[i];
        }
      }
    }
  }

  /** The rows of `visits`, each written with the client that `clients` holds
      for its provider and subscription. */
  function VisitsText(write: VisitWriter, clients: map<(string, string), Client>, visits: seq<ProviderVisit>): string
  {
    if visits == [] then ""
    else
      var v := visits[|visits| - 1];
      var key := (v.provider, v.subscription);
      VisitsText(write, clients, visits[..|visits| - 1]) + (if key in clients then write(clients[key], v) else "")
  }

  lemma {:induction false} VisitsTextExtends(write: VisitWriter, st: CacheState, st0: CacheState, visits: seq<ProviderVisit>)
    requires Extends(st, st0)
    requires forall i :: 0 <= i < |visits| ==> (visits[i].provider, visits[i].subscription) in st0.clients
    ensures VisitsText(write, st.clients, visits) == VisitsText(write, st0.clients, visits)
  {
    if visits != [] {
      var n := |visits| - 1;
      assert forall i :: 0 <= i < n ==> visits[..n][i] == visits[i];
      VisitsTextExtends(write, st, st0, visits[..n]);
    }
  }

  /** A run without error writes, for every visit in order, the profiles of
      its resources with the one client the table holds for its provider and
      subscription. */
  lemma {:induction false} RunText(table: map<string, ClientClass>, write: VisitWriter, visits: seq<ProviderVisit>)
    requires Run(table, write, visits).error.None?
    ensures Run(table, write, visits).text == VisitsText(write, Run(table, write, visits).state.clients, visits)
  {
    if visits != [] {
      var n := |visits| - 1;
      var init := visits[..n];
      var o := Run(table, write, init);
      StepOutcome(table, write, o, visits[n]);
      RunText(table, write, init);
      forall i | 0 <= i < |init| ensures (init[i].provider, init[i].subscription) in o.state.clients {
        RunCache(table, write, init, (init[i].provider, init[i].subscription));
      }
      VisitsTextExtends(write, Run(table, write, visits).state, o.state, init);
    }
  }

  /** A provider without an entry stops the run where it is met: no client is
      built for it and nothing more is written. */
  lemma RunUnknown(table: map<string, ClientClass>, write: VisitWriter,
                   a: seq<ProviderVisit>, v: ProviderVisit, b: seq<ProviderVisit>)
    requires Run(table, write, a).error.None? && v.provider !in table
    ensures Run(table, write, a + [v] + b)
         == Outcome(Run(table, write, a).state, Run(table, write, a).text, Some(UnknownProvider(v.provider)))
  {
    assert (a + [v])[..|a|] == a;
    RunSticky(table, write, a + [v], b);
  }

  // ---- The walk of write_profiles ----

  /** The `clients` table of `write_profiles` (collect_profiles.py:70-87):
      the client class of each provider, and the clients built so far. */
  class ClientCache {
    const table: map<string, ClientClass>
    var clients: map<(string, string), Client>
    var built: nat

    constructor (table: map<string, ClientClass>)
      ensures this.table == table && clients == map[] && built == 0
    {
      this.table := table;
      clients := map[];
      built := 0;
    }

    function State(): CacheState
      reads this
    {
      CacheState(clients, built)
    }

    /** Lines 91-93: `clients[provider]['client'][subscription]`, built first
        when missing. */
    method ClientFor(provider: string, subscription: string) returns (r: Result<Client, ProfileError>)
      modifies this
      ensures var a := Acquire(table, old(State()), provider, subscription);
        && (a.Failure? ==> r == Failure(a.error) && State() == old(State()))
        && (a.Success? ==> r == Success(a.value.1) && State() == a.value.0)
    {
      if provider !in table {
        return Failure(UnknownProvider(provider));
      }
      var key := (provider, subscription);
      if key !in clients {
        clients := clients[key := Client(table[provider], subscription, built)];
        built := built + 1;
      }
      r := Success(clients[key]);
    }
  }

  /** The dispatch of lines 95-100 for one resource. */
  method WriteProfile(out: Sink, svc: Service, client: Client, sub: string, rg: string, provider: string,
                      name: string)
    modifies out
    ensures out.text == old(out.text) + Profile(svc, client, Resource(sub, rg, provider, name))
  {
    if provider == MySqlServers || provider == MySqlFlexibleServers {
      WriteMySqlProfile(out, svc, client, sub, rg, provider, name);
    } else if provider == SqlServers {
      WriteSqlProfile(out, svc, client, sub, rg, provider, name);
    } else if provider == StorageAccounts {
      WriteStorageProfile(out, svc, client, sub, rg, provider, name);
    } else {
      assert out.text == old(out.text) + "";
    }
  }

  /** The loop over the resources of one provider visit (line 94). */
  method WriteResources(out: Sink, svc: Service, client: Client, sub: string, rg: string, provider: string,
                        names: seq<string>)
    modifies out
    ensures out.text == old(out.text) + VisitText(svc, client, ProviderVisit(sub, rg, provider, names))
  {
    var l := 0;
    while l < |names|
      invariant 0 <= l <= |names|
      invariant out.text == old(out.text) + Blocks(ProfileOf(svc, client), Located(sub, rg, provider, names[..l]))
    {
      var r := Resource(sub, rg, provider, names[l]);
      ghost var done := Blocks(ProfileOf(svc, client), Located(sub, rg, provider, names[..l]));
      LocatedStep(sub, rg, provider, names, l);
      BlocksSnoc(ProfileOf(svc, client), Located(sub, rg, provider, names[..l]), r);
      WriteProfile(out, svc, client, sub, rg, provider, names[l]);
      assert ProfileOf(svc, client)(r) == Profile(svc, client, r);
      AppendAssoc(old(out.text), done, Profile(svc, client, r));
      l := l + 1;
    }
    assert names[..l] == names;
  }

  lemma RunSnoc(table: map<string, ClientClass>, write: VisitWriter, a: seq<ProviderVisit>, v: ProviderVisit)
    ensures Run(table, write, a + [v]) == Step(table, write, Run(table, write, a), v)
  {
    assert (a + [v])[..|a|] == a;
  }

  /** Lines 91-100 for one provider visit, after the visits `seen`. */
  method VisitProvider(out: Sink, cache: ClientCache, svc: Service, ghost seen: seq<ProviderVisit>,
                       ghost base: string, sub: string, rg: string, provider: string, names: seq<string>)
      returns (err: Option<ProfileError>)
    modifies out, cache
    requires Run(cache.table, WriterOf(svc), seen).error.None?
    requires cache.State() == Run(cache.table, WriterOf(svc), seen).state
    requires out.text == base + Run(cache.table, WriterOf(svc), seen).text
    ensures var o := Run(cache.table, WriterOf(svc), seen + [ProviderVisit(sub, rg, provider, names)]);
      cache.State() == o.state && out.text == base + o.text && err == o.error
  {
    ghost var v := ProviderVisit(sub, rg, provider, names);
    ghost var o := Run(cache.table, WriterOf(svc), seen);
    RunSnoc(cache.table, WriterOf(svc), seen, v);
    var r := cache.ClientFor(provider, sub);
    if r.Failure? {
      return Some(r.error);
    }
    var client := r.value;
    WriteResources(out, svc, client, sub, rg, provider, names);
    assert WriterOf(svc)(client, v) == VisitText(svc, client, v);
    AppendAssoc(base, o.text, VisitText(svc, client, v));
    err := None;
  }

  /** Visits `before` followed by the providers of one resource group. */
  lemma GroupSeen(before: seq<ProviderVisit>, sub: string, rg: string, providers: Providers, k: nat)
    requires k < |providers|
    ensures before + GroupVisits(sub, rg, providers[..k + 1])
         == before + GroupVisits(sub, rg, providers[..k]) + [ProviderVisit(sub, rg, providers[k].0, providers[k].1)]
  {
    assert providers[..k + 1][..k] == providers[..k];
  }

  /** An error after `before + a` stops the run before `b`. */
  lemma RunStickyJoin(table: map<string, ClientClass>, write: VisitWriter, before: seq<ProviderVisit>,
                      a: seq<ProviderVisit>, b: seq<ProviderVisit>, whole: seq<ProviderVisit>)
    requires whole == a + b
    requires Run(table, write, before + a).error.Some?
    ensures Run(table, write, before + whole) == Run(table, write, before + a)
  {
    AppendAssoc(before, a, b);
    RunSticky(table, write, before + a, b);
  }

  /** An error stops the walk of a resource group. */
  lemma GroupRest(table: map<string, ClientClass>, write: VisitWriter, before: seq<ProviderVisit>,
                  sub: string, rg: string, providers: Providers, k: nat)
    requires k < |providers|
    requires Run(table, write, before + GroupVisits(sub, rg, providers[..k + 1])).error.Some?
    ensures Run(table, write, before + GroupVisits(sub, rg, providers))
         == Run(table, write, before + GroupVisits(sub, rg, providers[..k + 1]))
  {
    assert providers[..k + 1] + providers[k + 1..] == providers;
    GroupVisitsAppend(sub, rg, providers[..k + 1], providers[k + 1..]);
    RunStickyJoin(table, write, before, GroupVisits(sub, rg, providers[..k + 1]), GroupVisits(sub, rg, providers[k + 1..]),
                  GroupVisits(sub, rg, providers));
  }

  /** The loop over the providers of one resource group (line 90), after the
      visits `before`. */
  method WriteGroupProfiles(out: Sink, cache: ClientCache, svc: Service, ghost before: seq<ProviderVisit>,
                            ghost base: string, sub: string, rg: string, providers: Providers)
      returns (err: Option<ProfileError>)
    modifies out, cache
    requires Run(cache.table, WriterOf(svc), before).error.None?
    requires cache.State() == Run(cache.table, WriterOf(svc), before).state
    requires out.text == base + Run(cache.table, WriterOf(svc), before).text
    ensures var o := Run(cache.table, WriterOf(svc), before + GroupVisits(sub, rg, providers));
      cache.State() == o.state && out.text == base + o.text && err == o.error
  {
    var k := 0;
    assert before + GroupVisits(sub, rg, providers[..0]) == before;
    while k < |providers|
      invariant 0 <= k <= |providers|
      invariant Run(cache.table, WriterOf(svc), before + GroupVisits(sub, rg, providers[..k])).error.None?
      invariant cache.State() == Run(cache.table, WriterOf(svc), before + GroupVisits(sub, rg, providers[..k])).state
      invariant out.text == base + Run(cache.table, WriterOf(svc), before + GroupVisits(sub, rg, providers[..k])).text
    {
      var (provider, names) := providers[k];
      GroupSeen(before, sub, rg, providers, k);
      err := VisitProvider(out, cache, svc, before + GroupVisits(sub, rg, providers[..k]), base, sub, rg, provider, names);
      if err.Some? {
        GroupRest(cache.table, WriterOf(svc), before, sub, rg, providers, k);
        return;
      }
      k := k + 1;
    }
    assert providers[..k] == providers;
    err := None;
  }

  lemma SubscriptionSeen(before: seq<ProviderVisit>, sub: string, groups: ResourceGroups, j: nat)
    requires j < |groups|
    ensures before + SubscriptionVisits(sub, groups[..j + 1])
         == before + SubscriptionVisits(sub, groups[..j]) + GroupVisits(sub, groups[j].0, groups[j].1)
  {
    assert groups[..j + 1][..j] == groups[..j];
    AppendAssoc(before, SubscriptionVisits(sub, groups[..j]), GroupVisits(sub, groups[j].0, groups[j].1));
  }

  /** An error stops the walk of a subscription. */
  lemma SubscriptionRest(table: map<string, ClientClass>, write: VisitWriter, before: seq<ProviderVisit>,
                         sub: string, groups: ResourceGroups, j: nat)
    requires j < |groups|
    requires Run(table, write, before + SubscriptionVisits(sub, groups[..j + 1])).error.Some?
    ensures Run(table, write, before + SubscriptionVisits(sub, groups))
         == Run(table, write, before + SubscriptionVisits(sub, groups[..j + 1]))
  {
    assert groups[..j + 1] + groups[j + 1..] == groups;
    SubscriptionVisitsAppend(sub, groups[..j + 1], groups[j + 1..]);
    RunStickyJoin(table, write, before, SubscriptionVisits(sub, groups[..j + 1]), SubscriptionVisits(sub, groups[j + 1..]),
                  SubscriptionVisits(sub, groups));
  }

  /** The loop over the resource groups of one subscription (line 89), after
      the visits `before`. */
  method WriteSubscriptionProfiles(out: Sink, cache: ClientCache, svc: Service, ghost before: seq<ProviderVisit>,
                                   ghost base: string, sub: string, groups: ResourceGroups)
      returns (err: Option<ProfileError>)
    modifies out, cache
    requires Run(cache.table, WriterOf(svc), before).error.None?
    requires cache.State() == Run(cache.table, WriterOf(svc), before).state
    requires out.text == base + Run(cache.table, WriterOf(svc), before).text
    ensures var o := Run(cache.table, WriterOf(svc), before + SubscriptionVisits(sub, groups));
      cache.State() == o.state && out.text == base + o.text && err == o.error
  {
    var j := 0;
    assert before + SubscriptionVisits(sub, groups[..0]) == before;
    while j < |groups|
      invariant 0 <= j <= |groups|
      invariant Run(cache.table, WriterOf(svc), before + SubscriptionVisits(sub, groups[..j])).error.None?
      invariant cache.State() == Run(cache.table, WriterOf(svc), before + SubscriptionVisits(sub, groups[..j])).state
      invariant out.text == base + Run(cache.table, WriterOf(svc), before + SubscriptionVisits(sub, groups[..j])).text
    {
      var (rg, providers) := groups[j];
      SubscriptionSeen(before, sub, groups, j);
      err := WriteGroupProfiles(out, cache, svc, before + SubscriptionVisits(sub, groups[..j]), base, sub, rg, providers);
      if err.Some? {
        SubscriptionRest(cache.table, WriterOf(svc), before, sub, groups, j);
        return;
      }
      j := j + 1;
    }
    assert groups[..j] == groups;
    err := None;
  }

  /** An error stops the walk of the inventory. */
  lemma InventoryRest(table: map<string, ClientClass>, write: VisitWriter, inv: Inventory, i: nat)
    requires i < |inv|
    requires Run(table, write, Visits(inv[..i + 1])).error.Some?
    ensures Run(table, write, Visits(inv)) == Run(table, write, Visits(inv[..i + 1]))
  {
    assert inv[..i + 1] + inv[i + 1..] == inv;
    VisitsAppend(inv[..i + 1], inv[i + 1..]);
    RunSticky(table, write, Visits(inv[..i + 1]), Visits(inv[i + 1..]));
  }

  /** `write_profiles` (collect_profiles.py:66-100): the header, then the
      profiles of the inventory's resources in inventory order, until a
      provider without a client class stops it with `KeyError`. */
  method WriteProfiles(out: Sink, svc: Service, inv: Inventory) returns (err: Option<ProfileError>)
    modifies out
    ensures out.text == old(out.text) + ProfilesHeader + ProfilesRun(svc, inv).text
    ensures err == ProfilesRun(svc, inv).error
  {
    out.Write(ProfilesHeader);
    ghost var base := out.text;
    var cache := new ClientCache(ClientClasses);
    var i := 0;
    assert Visits(inv[..0]) == [];
    while i < |inv|
      invariant 0 <= i <= |inv|
      invariant Run(cache.table, WriterOf(svc), Visits(inv[..i])).error.None?
      invariant cache.State() == Run(cache.table, WriterOf(svc), Visits(inv[..i])).state
      invariant out.text == base + Run(cache.table, WriterOf(svc), Visits(inv[..i])).text
    {
      var (sub, groups) := inv[i];
      assert inv[..i + 1][..i] == inv[..i];
      err := WriteSubscriptionProfiles(out, cache, svc, Visits(inv[..i]), base, sub, groups);
      if err.Some? {
        InventoryRest(cache.table, WriterOf(svc), inv, i);
        return;
      }
      i := i + 1;
    }
    assert inv[..i] == inv;
    err := None;
  }
}
