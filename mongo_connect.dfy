/** `mongoConnect`: a pymongo client that pings before each call, checks
    that the database and the collection exist, then finds, inserts
    (optionally merging on `_id`) or deletes documents. */
module MongoConnector {
  import opened PyObjects
  import opened MongoStore

  /** The database `find` and `insert` use when the caller names none. */
  const DefaultDatabase := "ift_sequence"

  const ConnectError := "Error connection to the database: "
  const PingError := "Error encountered: "
  const NoDatabase := "Please check your database name"
  const NoCollection := "Please check your collection name"
  const NoDbAttribute := "'mongoConnect' object has no attribute 'db_'"
  const NoQuery := "Please set your query"
  const NotAList := "Please set your data as list"
  const NoData := "Please set your data"
  const FetchError := "Error while fetching data from the database: "
  const InsertError := "Error while inserting data from the database: "
  const DeleteError := "Error while deleting data from the database: "
  const OtherError := "Error: "
  /** pymongo's refusal of a batch item that is not a mapping. */
  const NotADocument := "document must be an instance of dict, bson.son.SON, bson.raw_bson.RawBSONDocument, or a type that inherits from collections.MutableMapping"
  /** What pymongo's `BulkWriteError` prints. */
  const BulkWriteMessage := "batch op errors occurred"
  /** Raised when the non-merge branch formats the exception variable `e`,
      which that `except` clause never binds. */
  const UnboundE := "cannot access local variable 'e' where it is not associated with a value"

  /** The server's answer to `admin.command('ping')`. */
  datatype PingReply = Pong | ConnectionFailure | OperationFailure(message: string)

  /** An error pymongo raises from the main call of an operation:
      `OperationFailure` or any other `PyMongoError`. */
  datatype Fault = OperationFault(message: string) | ClientFault(message: string)

  /** What the server does during one operation: its ping reply, an
      optional failure of the main call, and the `ObjectId`s pymongo would
      give to the i-th document of a batch that lacks an `_id`. */
  datatype MongoServer = MongoServer(ping: PingReply, fault: Option<Fault>, objectId: nat -> Value)

  /** How an operation reports a fault: `OperationFailure` behind the
      operation's own prefix, anything else behind `otherPrefix`. */
  function FaultError(f: Fault, prefix: string, otherPrefix: string): (e: Error)
    ensures e.RuntimeError?
    ensures f.OperationFault? ==> e.message == prefix + f.message
    ensures f.ClientFault? ==> e.message == otherPrefix + f.message
  {
    match f
    case OperationFault(m) => RuntimeError(prefix + m)
    case ClientFault(m) => RuntimeError(otherPrefix + m)
  }

  /** The database and collection checks every operation runs after its
      ping, from the database attribute `db` held before the call: the
      database in use, or the exception raised. */
  function Route(data: Databases, db: Option<string>, database: Option<string>,
                 collectionName: string, reply: PingReply): (r: Result<string>)
    ensures r.Ok? <==> !reply.OperationFailure?
                       && (Given(database) ==> database.value in data)
                       && (var d := if Given(database) then database else db;
                           d.Some? && d.value in data && collectionName in data[d.value])
    ensures r.Ok? ==> r.value in data && collectionName in data[r.value]
    ensures r.Ok? && Given(database) ==> r.value == database.value
    ensures reply.OperationFailure? ==> r == Err(RuntimeError(PingError + reply.message))
    ensures !reply.OperationFailure? && Given(database) && database.value !in data
            ==> r == Err(AssertionError(NoDatabase))
    ensures !reply.OperationFailure? && !Given(database) && db.None? ==> r == Err(AttributeError(NoDbAttribute))
  {
    if reply.OperationFailure? then Err(RuntimeError(PingError + reply.message))
    else if Given(database) && database.value !in data then Err(AssertionError(NoDatabase))
    else
      var d := if Given(database) then database else db;
      if d.None? then Err(AttributeError(NoDbAttribute))
      else if d.value !in data || collectionName !in data[d.value] then Err(AssertionError(NoCollection))
      else Ok(d.value)
  }

  /** The batch items as documents, or `None` when one is not a dict. */
  function AsDocs(items: seq<Obj>): (r: Option<seq<Doc>>)
    ensures r.Some? <==> forall i :: 0 <= i < |items| ==> items[i].Dict?
    ensures r.Some? ==> |r.value| == |items| && forall i :: 0 <= i < |items| ==> r.value[i] == items[i].row
    decreases |items|
  {
    if items == [] then Some([])
    else if !items[0].Dict? then None
    else
      match AsDocs(items[1..])
      case None => None
      case Some(rest) => Some([items[0].row] + rest)
  }

  /** A document after `insert_many` has given it an `_id` in place. */
  function WithId(row: Doc, v: Value): (d: Doc)
    ensures IdOf(d) == if Get(row, "_id").Some? then Get(row, "_id").value else v
  {
    if Get(row, "_id").Some? then row
    else
      GetNone(row, "_id");
      GetAt(row + [("_id", v)], |row|, "_id");
      row + [("_id", v)]
  }

  function AssignIds(rows: seq<Doc>, objectId: nat -> Value): (docs: seq<Doc>)
    ensures |docs| == |rows|
    ensures forall i :: 0 <= i < |rows| ==> docs[i] == WithId(rows[i], objectId(i))
  {
    seq(|rows|, i requires 0 <= i < |rows| => WithId(rows[i], objectId(i)))
  }

  /** The `_id`s `insert_many` leaves on a batch: a row keeps the `_id` it
      carries, and when the carried `_id`s are distinct, the generated ones
      are distinct and none of them is carried by another row, every
      document of the batch has its own `_id`. */
  lemma AssignIdsDistinct(rows: seq<Doc>, objectId: nat -> Value)
    requires forall i, j :: 0 <= i < j < |rows| && Get(rows[i], "_id").Some? && Get(rows[j], "_id").Some?
                            ==> Get(rows[i], "_id") != Get(rows[j], "_id")
    requires forall i, j :: 0 <= i < j < |rows| ==> objectId(i) != objectId(j)
    requires forall i, j :: 0 <= i < |rows| && 0 <= j < |rows| && i != j && Get(rows[i], "_id").Some?
                            ==> Get(rows[i], "_id").value != objectId(j)
    ensures forall i :: 0 <= i < |rows| && Get(rows[i], "_id").Some? ==>
              IdOf(AssignIds(rows, objectId)[i]) == Get(rows[i], "_id").value
    ensures DistinctIds(AssignIds(rows, objectId))
  {
    var docs := AssignIds(rows, objectId);
    forall i, j | 0 <= i < j < |rows| ensures IdOf(docs[i]) != IdOf(docs[j]) {
      assert docs[i] == WithId(rows[i], objectId(i)) && docs[j] == WithId(rows[j], objectId(j));
    }
  }

  /** The collection after `insert` and what the call returns or raises,
      once the checks have passed and the batch is made of documents. */
  function InsertOutcome(c: Collection, docs: seq<Doc>, isMergeMode: bool): (Collection, Result<()>)
  {
    if !isMergeMode then
      var k := FirstStale(c, docs, 0);
      (c + docs[..k], if k == |docs| then Ok(()) else Err(UnboundLocalError(UnboundE)))
    else
      var m := MergeInsert(c, docs);
      (m.0, if m.1 then Err(DriverError(BulkWriteMessage)) else Ok(()))
  }

  /** Without merge mode an insert succeeds exactly when every `_id` is new
      and distinct; a duplicate leaves the rows before it inserted. With
      merge mode and distinct `_id`s it succeeds and stores every row. */
  lemma InsertOutcomeMeans(c: Collection, docs: seq<Doc>, isMergeMode: bool)
    requires UniqueIds(c)
    ensures !isMergeMode ==>
              (InsertOutcome(c, docs, false).1.Ok? <==> forall i :: 0 <= i < |docs| ==> Fresh(c, docs, i))
    ensures !isMergeMode ==>
              exists k :: 0 <= k <= |docs| && InsertOutcome(c, docs, false).0 == c + docs[..k]
    ensures isMergeMode && DistinctIds(docs) ==>
              InsertOutcome(c, docs, true).1 == Ok(())
              && UniqueIds(InsertOutcome(c, docs, true).0)
              && (forall i :: 0 <= i < |docs| ==> Lookup(InsertOutcome(c, docs, true).0, IdOf(docs[i])) == Some(docs[i]))
              && (forall id :: id !in Ids(docs) ==> Lookup(InsertOutcome(c, docs, true).0, id) == Lookup(c, id))
  {
    var k := FirstStale(c, docs, 0);
    assert InsertOutcome(c, docs, false).0 == c + docs[..k];
    if isMergeMode && DistinctIds(docs) {
      MergeInsertStoresRows(c, docs);
    }
  }

  /** The merge handler's two loops: the `_id`s found again, then one
      request per row. */
  method MergeRequests(c: Collection, docs: seq<Doc>) returns (ops: seq<WriteOp>)
    ensures ops == Classify(docs, Found(c, docs))
  {
    var handle := WithIdIn(c, Ids(docs));
    var found: set<Value> := {};
    for j := 0 to |handle|
      invariant found == set t | 0 <= t < j :: IdOf(handle[t])
    {
      found := found + {IdOf(handle[j])};
    }
    ops := [];
    for j := 0 to |docs|
      invariant ops == Classify(docs[..j], found)
    {
      var op := if IdOf(docs[j]) in found then ReplaceOne(IdOf(docs[j]), docs[j]) else InsertOne(docs[j]);
      assert docs[..j + 1] == docs[..j] + [docs[j]];
      ops := ops + [op];
    }
    assert docs[..|docs|] == docs;
  }

  /** A call to `insert` or `delete` as their signatures are written: the
      line break after `*` joins it to the next name, so `rows` (and
      `query`) gathers the positional arguments into a tuple, and passing it
      by keyword is refused. `named` is the value passed by keyword, if any. */
  datatype StarredCall = StarredCall(positional: seq<Obj>, named: Option<Obj>)

  const UnexpectedRows := "mongoConnect.insert() got an unexpected keyword argument 'rows'"
  const UnexpectedQuery := "mongoConnect.delete() got an unexpected keyword argument 'query'"
  /** pymongo's refusal of a filter that is not a mapping. */
  const NotAFilter := "filter must be an instance of dict, bson.son.SON, or any other type that inherits from collections.Mapping"

  /** `insert` as written, up to its first check: a keyword `rows` is
      refused by the call itself, and a positional one arrives as a tuple,
      which `type(rows) == list` rejects. */
  function InsertAsWritten(call: StarredCall): Result<()>
  {
    if call.named.Some? then Err(TypeError(UnexpectedRows))
    else Err(AssertionError(NotAList))
  }

  /** As written, no call of `insert` reaches the server, whatever it
      passes; the facade's keyword call is refused outright. */
  lemma InsertAsWrittenNeverRuns(call: StarredCall)
    ensures InsertAsWritten(call).Err?
    ensures call.named.Some? ==> InsertAsWritten(call) == Err(TypeError(UnexpectedRows))
    ensures call.named.None? ==> InsertAsWritten(call) == Err(AssertionError(NotAList))
  {
  }

  /** `delete` as written, given the outcome of the shared steps: a keyword
      `query` is refused; a positional one is a tuple, truthy when it holds
      anything, which `delete_many` then rejects as a filter before sending. */
  function DeleteAsWritten(call: StarredCall, route: Result<string>, override: bool): Result<()>
  {
    if call.named.Some? then Err(TypeError(UnexpectedQuery))
    else if call.positional == [] then Err(AssertionError(NoQuery))
    else if route.Err? then Err(route.error)
    else if override then Err(TypeError(NotAFilter))
    else Ok(())
  }

  /** As written, a `delete` that asks for removal never succeeds: only a
      call without `override`, which removes nothing, returns normally. */
  lemma DeleteAsWrittenNeverDeletes(call: StarredCall, route: Result<string>, override: bool)
    ensures DeleteAsWritten(call, route, override).Ok? ==> !override && route.Ok? && call.named.None?
    ensures override && route.Ok? && call.named.None? && call.positional != [] ==>
              DeleteAsWritten(call, route, override) == Err(TypeError(NotAFilter))
  {
  }

  /** The database attribute `db` after the shared steps: the named
      database once its check passes, the one held before otherwise. */
  function Selected(data: Databases, db: Option<string>, database: Option<string>, reply: PingReply): (d: Option<string>)
    ensures forall c :: Route(data, db, database, c, reply).Ok? ==> d == Some(Route(data, db, database, c, reply).value)
    ensures reply.OperationFailure? || !Given(database) ==> d == db
  {
    if !reply.OperationFailure? && Given(database) && database.value in data then database else db
  }

  class MongoConnect {
    /** The keyword arguments given to `MongoClient`. */
    const medium: Row
    /** How many clients were built: one, plus one per lost connection. */
    var clients: nat
    var closed: bool
    /** The database and collection attributes (`db_`, `col_`). */
    var db: Option<string>
    var col: Option<string>
    /** What the server holds. */
    var data: Databases

    constructor (medium: Row, data: Databases)
      ensures this.medium == medium && this.data == data
      ensures clients == 1 && !closed && db.None? && col.None?
    {
      this.medium := medium;
      this.data := data;
      clients := 1;
      closed := false;
      db := None;
      col := None;
    }

    /** `mongoConnect(conn_medium_)`; `refused` is the `PyMongoError` the
        client constructor raises, if any. */
    static method Open(medium: Row, data: Databases, refused: Option<string>) returns (r: Result<MongoConnect>)
      ensures refused.Some? ==> r == Err(RuntimeError(ConnectError + refused.value))
      ensures refused.None? ==> r.Ok? && fresh(r.value)
      ensures r.Ok? ==> r.value.medium == medium && r.value.data == data && r.value.clients == 1
                        && !r.value.closed && r.value.db.None? && r.value.col.None?
    {
      if refused.Some? {
        return Err(RuntimeError(ConnectError + refused.value));
      }
      var m := new MongoConnect(medium, data);
      r := Ok(m);
    }

    /** `close()`. */
    method Close()
      modifies this
      ensures closed
      ensures clients == old(clients) && db == old(db) && col == old(col) && data == old(data)
    {
      closed := true;
    }

    /** `ping()`: a lost connection is replaced by a new client; a refused
        command is raised as a `RuntimeError`. */
    method Ping(reply: PingReply) returns (r: Result<()>)
      modifies this
      ensures r.Ok? <==> !reply.OperationFailure?
      ensures reply.OperationFailure? ==> r == Err(RuntimeError(PingError + reply.message))
      ensures clients == old(clients) + (if reply.ConnectionFailure? then 1 else 0)
      ensures closed == old(closed) && db == old(db) && col == old(col) && data == old(data)
    {
      match reply
      case Pong =>
        r := Ok(());
      case ConnectionFailure =>
        clients := clients + 1;
        r := Ok(());
      case OperationFailure(m) =>
        r := Err(RuntimeError(PingError + m));
    }

    /** `check_database(database)`. */
    function CheckDatabase(database: string): (r: Result<()>)
      reads this
      ensures r.Ok? <==> database in data
      ensures r.Err? ==> r.error == AssertionError(NoDatabase)
    {
      if database in data then Ok(()) else Err(AssertionError(NoDatabase))
    }

    /** `check_collection(collection_name, is_create_mode)`. */
    function CheckCollection(collectionName: string, isCreateMode: bool): (r: Result<()>)
      reads this
      ensures r.Ok? <==> isCreateMode || (db.Some? && db.value in data && collectionName in data[db.value])
      ensures !isCreateMode && db.None? ==> r == Err(AttributeError(NoDbAttribute))
      ensures r.Err? && db.Some? ==> r.error == AssertionError(NoCollection)
    {
      if isCreateMode then Ok(())
      else if db.None? then Err(AttributeError(NoDbAttribute))
      else if db.value in data && collectionName in data[db.value] then Ok(())
      else Err(AssertionError(NoCollection))
    }

    /** The steps every operation shares: ping, check and select the
        database when one is named, check and select the collection. */
    method Target(collectionName: string, database: Option<string>, reply: PingReply) returns (r: Result<string>)
      modifies this
      ensures r == Route(old(data), old(db), database, collectionName, reply)
      ensures db == Selected(old(data), old(db), database, reply)
      ensures r.Ok? ==> db == Some(r.value) && col == Some(collectionName)
      ensures r.Err? ==> col == old(col)
      ensures clients == old(clients) + (if reply.ConnectionFailure? then 1 else 0)
      ensures closed == old(closed) && data == old(data)
    {
      var p := Ping(reply);
      if p.Err? {
        return Err(p.error);
      }
      if Given(database) {
        var c := CheckDatabase(database.value);
        if c.Err? {
          return Err(c.error);
        }
        db := database;
      }
      var c := CheckCollection(collectionName, false);
      if c.Err? {
        return Err(c.error);
      }
      col := Some(collectionName);
      r := Ok(db.value);
    }

    /** `find(query, collection_name, database)`: the matching documents, in
        the collection's order. */
    method Find(query: Row, collectionName: string, database: Option<string>, server: MongoServer)
      returns (r: Result<seq<Doc>>)
      modifies this
      ensures query == [] ==> r == Err(AssertionError(NoQuery))
      ensures query != [] ==>
        match Route(old(data), old(db), database, collectionName, server.ping)
        case Err(e) => r == Err(e)
        case Ok(d) =>
          (server.fault.Some? ==> r == Err(FaultError(server.fault.value, FetchError, "")))
          && (server.fault.None? ==> r == Ok(Filter(old(data)[d][collectionName], query)))
      ensures data == old(data) && closed == old(closed)
      ensures query == [] ==> db == old(db) && col == old(col) && clients == old(clients)
      ensures !(query == []) ==>
                db == Selected(old(data), old(db), database, server.ping)
                && col == (if Route(old(data), old(db), database, collectionName, server.ping).Ok?
                           then Some(collectionName) else old(col))
                && clients == old(clients) + (if server.ping.ConnectionFailure? then 1 else 0)
    {
      if query == [] {
        return Err(AssertionError(NoQuery));
      }
      var t := Target(collectionName, database, server.ping);
      if t.Err? {
        return Err(t.error);
      }
      if server.fault.Some? {
        return Err(FaultError(server.fault.value, FetchError, ""));
      }
      var handle := Filter(data[t.value][collectionName], query);
      var result: seq<Doc> := [];
      for i := 0 to |handle|
        invariant result == handle[..i]
      {
        result := result + [handle[i]];
      }
      assert handle[..|handle|] == handle;
      r := Ok(result);
    }

    /** `insert(rows, collection_name, database, is_merge_mode)`. The ordered
        `insert_many` keeps what it wrote before a duplicate `_id`; without
        merge mode the handler then fails on its own unbound variable; with
        it, rows whose `_id` is found again are replaced and the others
        inserted. */
    method Insert(rows: Obj, collectionName: string, database: Option<string>, isMergeMode: bool,
                  server: MongoServer) returns (r: Result<()>)
      modifies this
      ensures !rows.List? ==> r == Err(AssertionError(NotAList)) && data == old(data)
      ensures rows == List([]) ==> r == Err(AssertionError(NoData)) && data == old(data)
      ensures rows.List? && rows.items != [] ==>
        match Route(old(data), old(db), database, collectionName, server.ping)
        case Err(e) => r == Err(e) && data == old(data)
        case Ok(d) =>
          var c := old(data)[d][collectionName];
          match AsDocs(rows.items)
          case None => r == Err(TypeError(NotADocument)) && data == old(data)
          case Some(rs) =>
            (server.fault.Some? ==>
               r == Err(FaultError(server.fault.value, InsertError, OtherError)) && data == old(data))
            && (server.fault.None? ==>
               var out := InsertOutcome(c, AssignIds(rs, server.objectId), isMergeMode);
               r == out.1 && data == old(data)[d := old(data)[d][collectionName := out.0]])
      ensures closed == old(closed)
      ensures !rows.List? || rows.items == [] ==> db == old(db) && col == old(col) && clients == old(clients)
      ensures !(!rows.List? || rows.items == []) ==>
                db == Selected(old(data), old(db), database, server.ping)
                && col == (if Route(old(data), old(db), database, collectionName, server.ping).Ok?
                           then Some(collectionName) else old(col))
                && clients == old(clients) + (if server.ping.ConnectionFailure? then 1 else 0)
    {
      if !rows.List? {
        return Err(AssertionError(NotAList));
      }
      if rows.items == [] {
        return Err(AssertionError(NoData));
      }
      var t := Target(collectionName, database, server.ping);
      if t.Err? {
        return Err(t.error);
      }
      var d := t.value;
      var c := data[d][collectionName];
      var asDocs := AsDocs(rows.items);
      if asDocs.None? {
        return Err(TypeError(NotADocument));
      }
      if server.fault.Some? {
        return Err(FaultError(server.fault.value, InsertError, OtherError));
      }
      var docs := AssignIds(asDocs.value, server.objectId);
      r := WriteBatch(d, collectionName, docs, isMergeMode);
    }

    /** `insert_many`, and the merge handler when it raises. */
    method WriteBatch(d: string, collectionName: string, docs: seq<Doc>, isMergeMode: bool) returns (r: Result<()>)
      requires d in data && collectionName in data[d]
      modifies this
      ensures var out := InsertOutcome(old(data)[d][collectionName], docs, isMergeMode);
              r == out.1 && data == old(data)[d := old(data)[d][collectionName := out.0]]
      ensures closed == old(closed) && db == old(db) && col == old(col) && clients == old(clients)
    {
      var c := data[d][collectionName];
      var k := FirstStale(c, docs, 0);
      InsertManyOutcome(c, docs, k);
      var c1 := c + docs[..k];
      if k == |docs| || !isMergeMode {
        data := data[d := data[d][collectionName := c1]];
        r := if k == |docs| then Ok(()) else Err(UnboundLocalError(UnboundE));
        return;
      }
      var ops := MergeRequests(c1, docs);
      var w := BulkWrite(c1, ops);
      assert MergeInsert(c, docs) == w;
      data := data[d := data[d][collectionName := w.0]];
      r := if w.1 then Err(DriverError(BulkWriteMessage)) else Ok(());
    }

    /** `delete(query, collection_name, database, override)`: nothing is
        removed unless `override` is set. */
    method Delete(query: Row, collectionName: string, database: Option<string>, override: bool,
                  server: MongoServer) returns (r: Result<()>)
      modifies this
      ensures query == [] ==> r == Err(AssertionError(NoQuery)) && data == old(data)
      ensures query != [] ==>
        match Route(old(data), old(db), database, collectionName, server.ping)
        case Err(e) => r == Err(e) && data == old(data)
        case Ok(d) =>
          (!override ==> r == Ok(()) && data == old(data))
          && (override && server.fault.Some? ==>
                r == Err(FaultError(server.fault.value, DeleteError, OtherError)) && data == old(data))
          && (override && server.fault.None? ==>
                r == Ok(()) && data == old(data)[d := old(data)[d][collectionName := Without(old(data)[d][collectionName], query)]])
      ensures closed == old(closed)
      ensures query == [] ==> db == old(db) && col == old(col) && clients == old(clients)
      ensures !(query == []) ==>
                db == Selected(old(data), old(db), database, server.ping)
                && col == (if Route(old(data), old(db), database, collectionName, server.ping).Ok?
                           then Some(collectionName) else old(col))
                && clients == old(clients) + (if server.ping.ConnectionFailure? then 1 else 0)
    {
      if query == [] {
        return Err(AssertionError(NoQuery));
      }
      var t := Target(collectionName, database, server.ping);
      if t.Err? {
        return Err(t.error);
      }
      if override {
        if server.fault.Some? {
          return Err(FaultError(server.fault.value, DeleteError, OtherError));
        }
        var d := t.value;
        data := data[d := data[d][collectionName := Without(data[d][collectionName], query)]];
      }
      r := Ok(());
    }
  }
}
