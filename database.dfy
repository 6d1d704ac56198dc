/** `databaseConnect`: picks a backend connector by name from a credential
    set, forwards `select` and `insert` to it after checking the arguments
    that backend needs, and closes it on exit. */
module DatabaseDispatch {
  import opened PyObjects
  import opened PooledDb
  import opened MysqlDriver
  import LegacyMariaConnector
  import MongoConnector
  import MongoStore
  import AzureConnector
  import Text

  const InvalidArguments := "Invalid input arguments"
  /** `mariaConnect.select`'s default `chunk_size`. */
  const DefaultChunkSize := 1000000
  const AzureHasNoClose := "'AzureTable' object has no attribute 'close'"

  /** The kinds of connector. */
  datatype Kind = MariaKind | MongoKind | AzureKind

  /** The connector `__post_init__` builds for a name, if it accepts it. */
  function KindOf(name: string): (k: Option<Kind>)
    ensures k == Some(MariaKind) <==> name == "signal" || name == "record"
    ensures k == Some(MongoKind) <==> name == "sequence"
    ensures k == Some(AzureKind) <==> name == "azure"
  {
    if name == "signal" || name == "record" then Some(MariaKind)
    else if name == "sequence" then Some(MongoKind)
    else if name == "azure" then Some(AzureKind)
    else None
  }

  /** The branch `select` and `insert` take, as the source writes them: they
      test the name against "mariadb", "mongodb" and "azure". */
  function BranchAsWritten(name: string): Option<Kind>
  {
    if name == "mariadb" then Some(MariaKind)
    else if name == "mongodb" then Some(MongoKind)
    else if name == "azure" then Some(AzureKind)
    else None
  }

  /** As written, only the Azure connector is ever reached: every other name
      `__post_init__` accepts falls through both methods, which then do
      nothing and return `None`. */
  lemma AcceptedNamesMissBranches(name: string)
    requires KindOf(name).Some?
    ensures BranchAsWritten(name).Some? <==> name == "azure"
    ensures BranchAsWritten(name).Some? ==> BranchAsWritten(name) == KindOf(name)
  {
  }

  /** How a call hands its arguments to
      `get_secret(secret_name, *, override=False, path=False)`: how many go
      by position, and the names of those given by keyword, in order. */
  datatype ArgCall = ArgCall(positional: nat, keywords: seq<string>)

  const GetSecretParams := ["secret_name", "override", "path"]
  const MissingSecretName := "get_secret() missing 1 required positional argument: 'secret_name'"
  const SecretNameTwice := "get_secret() got multiple values for argument 'secret_name'"

  /** The call `__post_init__` makes: `get_secret(self.name, self.override)`. */
  const PostInitCall := ArgCall(2, [])
  /** The call it evidently means: `get_secret(self.name, override=self.override)`. */
  const IntendedCall := ArgCall(1, ["override"])

  /** The first keyword the signature does not name, if any. */
  function UnknownKeyword(keywords: seq<string>): (r: Option<string>)
    ensures r.None? <==> forall k :: k in keywords ==> k in GetSecretParams
    ensures r.Some? ==> r.value in keywords && r.value !in GetSecretParams
    decreases |keywords|
  {
    if keywords == [] then None
    else if keywords[0] !in GetSecretParams then Some(keywords[0])
    else UnknownKeyword(keywords[1..])
  }

  /** How many of the keywords are keyword-only parameters. */
  function KeywordOnlyGiven(keywords: seq<string>): nat
    decreases |keywords|
  {
    if keywords == [] then 0
    else (if keywords[0] == "override" || keywords[0] == "path" then 1 else 0) + KeywordOnlyGiven(keywords[1..])
  }

  function Plural(n: nat): string
  {
    if n == 1 then "" else "s"
  }

  /** Python's message for more positional arguments than the one allowed. */
  function TooManyPositional(given: nat, keywordOnly: nat): string
  {
    if keywordOnly == 0 then
      "get_secret() takes 1 positional argument but " + Text.IntToString(given) + " were given"
    else
      "get_secret() takes 1 positional argument but " + Text.IntToString(given) + " positional argument"
      + Plural(given) + " (and " + Text.IntToString(keywordOnly) + " keyword-only argument"
      + Plural(keywordOnly) + ") were given"
  }

  /** Binding a call to the signature of `get_secret`, as Python does before
      the body runs: an unknown keyword is reported first, then a
      `secret_name` given twice, then surplus positional arguments, then a
      missing `secret_name`. `None` means the call binds. */
  function BindGetSecret(call: ArgCall): Option<Error>
  {
    match UnknownKeyword(call.keywords)
    case Some(k) => Some(TypeError("get_secret() got an unexpected keyword argument '" + k + "'"))
    case None =>
      if call.positional >= 1 && "secret_name" in call.keywords then Some(TypeError(SecretNameTwice))
      else if call.positional > 1 then Some(TypeError(TooManyPositional(call.positional, KeywordOnlyGiven(call.keywords))))
      else if call.positional == 0 && "secret_name" !in call.keywords then Some(TypeError(MissingSecretName))
      else None
  }

  /** A call binds exactly when it names only parameters of the signature
      and gives `secret_name` once, by position or by keyword; every other
      call raises `TypeError`. */
  lemma BindGetSecretMeans(call: ArgCall)
    ensures BindGetSecret(call).None? <==>
              (forall k :: k in call.keywords ==> k in GetSecretParams)
              && ((call.positional == 1 && "secret_name" !in call.keywords)
                  || (call.positional == 0 && "secret_name" in call.keywords))
    ensures BindGetSecret(call).Some? ==> BindGetSecret(call).value.TypeError?
  {
  }

  /** `__post_init__` as written, up to the connector it picks: the secret
      is fetched first, and only then is the name looked at. */
  function OpenAsWritten(name: string): Result<Kind>
  {
    match BindGetSecret(PostInitCall)
    case Some(e) => Err(e)
    case None =>
      if KindOf(name).None? then Err(TypeError("Invalid database: " + name)) else Ok(KindOf(name).value)
  }

  /** As written, no name builds a facade: the two positional arguments
      handed to `get_secret` raise `TypeError` before the name is read, and
      the `log` wrapper re-raises it. The intended call binds. */
  lemma NoNameBuildsFacade(name: string)
    ensures OpenAsWritten(name) == Err(TypeError("get_secret() takes 1 positional argument but 2 were given"))
    ensures BindGetSecret(IntendedCall).None?
  {
    assert Text.DigitChar(2) == '2';
    assert Text.IntToString(2) == "2";
    assert UnknownKeyword(PostInitCall.keywords).None? && KeywordOnlyGiven(PostInitCall.keywords) == 0;
    assert BindGetSecret(PostInitCall) == Some(TypeError(TooManyPositional(2, 0)));
    assert TooManyPositional(2, 0) == "get_secret() takes 1 positional argument but " + "2" + " were given";
    assert TooManyPositional(2, 0) == "get_secret() takes 1 positional argument but 2 were given";
    BindGetSecretMeans(IntendedCall);
  }

  datatype Backend =
    | Maria(maria: LegacyMariaConnector.MariaConnect)
    | Mongo(mongo: MongoConnector.MongoConnect)
    | Azure(azure: AzureConnector.AzureTable)
  {
    function Kind(): Kind
    {
      match this
      case Maria(_) => MariaKind
      case Mongo(_) => MongoKind
      case Azure(_) => AzureKind
    }
  }

  /** An Azure call made but not awaited: the coroutine `query_entity` or
      `insert_entity` returns, with the arguments it was given. */
  datatype Pending =
    | QueryEntity(select: Obj, parameters: Obj, nameFilter: string, tableName: Option<string>)
    | InsertEntity(entity: Obj, table: string)

  /** What `select` and `insert` return. */
  datatype Answer = NoneValue | Found(rows: seq<Row>) | Awaitable(call: Pending)

  /** What each backend meets during one call. */
  datatype Env = Env(maria: Server, mongo: MongoConnector.MongoServer)

  /** `pooledDB(secret)` as the medium handed to `mariaConnect`. */
  function PoolMedium(secret: Row): Medium
  {
    match PooledDB(secret)
    case None => NoMedium
    case Some(s) => Pool(s)
  }

  class DatabaseConnect {
    const name: string
    const override: bool
    const backend: Backend

    constructor (name: string, override: bool, backend: Backend)
      ensures this.name == name && this.override == override && this.backend == backend
    {
      this.name := name;
      this.override := override;
      this.backend := backend;
    }

    function Footprint(): set<object>
    {
      match backend
      case Maria(m) => {m}
      case Mongo(c) => {c}
      case Azure(a) => {a}
    }

    /** `databaseConnect(name, override)` with the credential set `secret`
        that `get_secret` returns, called as intended (`IntendedCall`);
        `mongoData`/`refused` and `tables` stand for the MongoDB server and
        the storage account. */
    static method Open(name: string, override: bool, secret: Row, server: Server,
                       mongoData: MongoStore.Databases, refused: Option<string>,
                       tables: map<string, AzureConnector.Table>) returns (r: Result<DatabaseConnect>)
      ensures KindOf(name).None? ==> r == Err(TypeError("Invalid database: " + name))
      ensures r.Ok? ==> fresh(r.value) && r.value.name == name && r.value.override == override
                        && KindOf(name) == Some(r.value.backend.Kind())
      ensures KindOf(name) == Some(MariaKind) ==>
                (r.Ok? <==> Connect(PoolMedium(secret), true, server).Ok?)
                && (r.Ok? ==> fresh(r.value.backend.maria) && r.value.backend.maria.medium == PoolMedium(secret)
                              && r.value.backend.maria.pool)
      ensures KindOf(name) == Some(MongoKind) ==>
                (r.Ok? <==> refused.None?)
                && (r.Ok? ==> fresh(r.value.backend.mongo) && r.value.backend.mongo.medium == secret)
      ensures KindOf(name) == Some(AzureKind) ==>
                r.Ok? && fresh(r.value.backend.azure)
                && r.value.backend.azure.connectionString == AzureConnector.ConnectionString(secret)
    {
      // The secret is fetched by the intended call, which binds.
      assert BindGetSecret(IntendedCall).None?;
      var backend: Backend;
      if name == "signal" || name == "record" {
        var m :- LegacyMariaConnector.MariaConnect.Open(PoolMedium(secret), true, server);
        backend := Maria(m);
      } else if name == "sequence" {
        var c :- MongoConnector.MongoConnect.Open(secret, mongoData, refused);
        backend := Mongo(c);
      } else if name == "azure" {
        var a := new AzureConnector.AzureTable(secret, tables);
        backend := Azure(a);
      } else {
        return Err(TypeError("Invalid database: " + name));
      }
      var d := new DatabaseConnect(name, override, backend);
      r := Ok(d);
    }

    /** `select(...)`, routed to the connector this object holds: every
        failure, a missing argument included, becomes one `ValueError`. */
    method Select(query: Obj, database: Option<string>, features: Obj, parameters: Obj,
                  nameFilter: Option<string>, collectionName: Option<string>, env: Env)
      returns (r: Result<Answer>)
      modifies Footprint()
      ensures r.Err? ==> r.error == ValueError(InvalidArguments)
      ensures backend.Maria? ==>
                (r.Ok? <==> query.Scalar? && query.v.Str?
                            && LegacyMariaConnector.HasVerbLegacy(query.v.s, "select")
                            && Usable(old(backend.maria.conn)) && env.maria.reply.Rows?)
                && (r.Ok? ==> r.value == Found(env.maria.reply.rows))
      ensures backend.Mongo? ==>
                (r.Ok? ==> Truthy(query) && Given(collectionName) && query.Dict? && env.mongo.fault.None?)
                && (r.Ok? ==> r.value.Found?)
      ensures backend.Azure? ==>
                (r.Ok? <==> Truthy(features) && Truthy(parameters) && Given(nameFilter))
                && (r.Ok? ==> r.value == Awaitable(QueryEntity(features, parameters, nameFilter.value, database)))
      ensures backend.Azure? ==> backend.azure.tables == old(backend.azure.tables)
    {
      match backend
      case Maria(m) =>
        if !(query.Scalar? && query.v.Str? && query.v.s != "") {
          return Err(ValueError(InvalidArguments));
        }
        var rows := m.Select(query.v.s, database, DefaultChunkSize, env.maria);
        if rows.Err? {
          return Err(ValueError(InvalidArguments));
        }
        r := Ok(Found(rows.value));
      case Mongo(c) =>
        if !(Truthy(query) && Given(collectionName) && query.Dict?) {
          return Err(ValueError(InvalidArguments));
        }
        var docs := c.Find(query.row, collectionName.value, Some(MongoConnector.DefaultDatabase), env.mongo);
        if docs.Err? {
          return Err(ValueError(InvalidArguments));
        }
        r := Ok(Found(docs.value));
      case Azure(_) =>
        if !(Truthy(features) && Truthy(parameters) && Given(nameFilter)) {
          return Err(ValueError(InvalidArguments));
        }
        r := Ok(Awaitable(QueryEntity(features, parameters, nameFilter.value, database)));
    }

    /** `insert(...)`, routed to the connector this object holds: `merge`
        or `insert` on MariaDB, `insert` (with the default database when
        none is given) on MongoDB, an `insert_entity` coroutine on Azure. */
    method Insert(data: Obj, tableName: Option<string>, collectionName: Option<string>,
                  database: Option<string>, isMergeMode: bool, env: Env)
      returns (r: Result<Answer>)
      modifies Footprint()
      ensures r.Err? ==> r.error == ValueError(InvalidArguments)
      ensures backend.Maria? || backend.Mongo? ==> (r.Ok? ==> r.value == NoneValue)
      ensures backend.Maria? ==>
                (r.Ok? ==> Truthy(data) && Given(tableName)
                           && LegacyMariaConnector.WellShaped(data) && Usable(old(backend.maria.conn)))
      ensures backend.Mongo? ==>
                (r.Ok? ==> Truthy(data) && Given(collectionName) && env.mongo.fault.None?)
      ensures backend.Azure? ==>
                (r.Ok? <==> Truthy(data) && Given(database))
                && (r.Ok? ==> r.value == Awaitable(InsertEntity(data, database.value)))
      ensures backend.Azure? ==> backend.azure.tables == old(backend.azure.tables)
    {
      match backend
      case Maria(m) =>
        if !(Truthy(data) && Given(tableName)) {
          return Err(ValueError(InvalidArguments));
        }
        var w;
        if isMergeMode {
          w := m.Merge(data, tableName.value, database, Scalar(Null), env.maria);
        } else {
          w := m.Insert(data, tableName.value, database, env.maria);
        }
        if w.Err? {
          return Err(ValueError(InvalidArguments));
        }
        r := Ok(NoneValue);
      case Mongo(c) =>
        if !(Truthy(data) && Given(collectionName)) {
          return Err(ValueError(InvalidArguments));
        }
        var db := if Given(database) then database else Some(MongoConnector.DefaultDatabase);
        var w := c.Insert(data, collectionName.value, db, isMergeMode, env.mongo);
        if w.Err? {
          return Err(ValueError(InvalidArguments));
        }
        r := Ok(NoneValue);
      case Azure(_) =>
        if !(Truthy(data) && Given(database)) {
          return Err(ValueError(InvalidArguments));
        }
        r := Ok(Awaitable(InsertEntity(data, database.value)));
    }

    /** `close()`: `AzureTable` has no `close`. */
    method Close() returns (r: Result<()>)
      modifies Footprint()
      ensures r.Err? <==> backend.Azure?
      ensures r.Err? ==> r.error == AttributeError(AzureHasNoClose)
      ensures backend.Maria? ==> backend.maria.conn.None?
      ensures backend.Mongo? ==> backend.mongo.closed
    {
      match backend
      case Maria(m) =>
        m.Close();
        r := Ok(());
      case Mongo(c) =>
        c.Close();
        r := Ok(());
      case Azure(_) =>
        r := Err(AttributeError(AzureHasNoClose));
    }

    /** `__exit__`: closes the connector, then returns `True` after a clean
        block and raises otherwise; `exception` is the text of the
        exception the block raised, if any. */
    method Exit(exception: Option<string>) returns (r: Result<bool>)
      modifies Footprint()
      ensures backend.Azure? ==> r == Err(AttributeError(AzureHasNoClose))
      ensures !backend.Azure? && exception.None? ==> r == Ok(true)
      ensures !backend.Azure? && exception.Some? ==> r == Err(BaseError("Exit error: " + exception.value))
      ensures backend.Maria? ==> backend.maria.conn.None?
      ensures backend.Mongo? ==> backend.mongo.closed
    {
      var c := Close();
      if c.Err? {
        return Err(c.error);
      }
      if exception.Some? {
        return Err(BaseError("Exit error: " + exception.value));
      }
      r := Ok(true);
    }
  }
}
