/** `mariaConnect` (current revision): a MariaDB connector holding one
    connection (`conn_`) and its `DictCursor`, with validated `delete`,
    `truncate`, paged `select`, and `insert`/`merge` statements built from
    the first row's keys. */
module MariaConnector {
  import opened PyObjects
  import opened Text
  import opened SqlText
  import opened MysqlDriver

  const FetchError: string := "Error while fetching data from the database: "
  const DeleteError: string := "Error while deleting data from the database: "
  const InsertError: string := "Error while inserting data from the database: "
  const AllFieldsIdentical: string := "All fields must be identical."
  const NoOpenAttribute: string := "'NoneType' object has no attribute 'open'"

  /** `except pymysql.MySQLError as e: raise RuntimeError(f"{onDriver}{e}")`
      followed by `except Exception as e: raise RuntimeError(f"{onOther}{e}")`. */
  function Rewrap(e: Error, onDriver: string, onOther: string): (w: Error)
    ensures w.RuntimeError?
    ensures w.message == (if e.DriverError? then onDriver else onOther) + e.message
  {
    if e.DriverError? then RuntimeError(onDriver + e.message) else RuntimeError(onOther + e.message)
  }

  /** `(not self.pool_ and not self.conn_.open) or not self.conn_`, for a
      connector where `conn_.open` can be read. */
  predicate NeedsPing(pool: bool, conn: Option<Link>)
  {
    (!pool && conn.Some? && !conn.value.open) || conn.None?
  }

  /** The connection after the reconnect check: a new one when the check
      asks for it (and the reconnect may fail), the same one otherwise. */
  function Refresh(medium: Medium, pool: bool, conn: Option<Link>, server: Server): (r: Result<Option<Link>>)
    ensures !NeedsPing(pool, conn) ==> r == Ok(conn)
    ensures NeedsPing(pool, conn) && r.Ok? ==> r.value == Some(Link(true, None))
    ensures r.Ok? ==> Usable(r.value) || (pool && conn.Some? && !conn.value.open)
  {
    if NeedsPing(pool, conn) then
      match Connect(medium, pool, server)
      case Ok(l) => Ok(Some(l))
      case Err(e) => Err(e)
    else Ok(conn)
  }

  /** The query starts, ignoring case, with the given verb. */
  predicate HasVerb(query: string, verb: string)
  {
    query != "" && StartsWith(Lower(query), verb)
  }

  /** The `ON DUPLICATE KEY UPDATE` clause of `merge`: `target=target+1` in
      increment mode, `f=VALUES(f)` for the listed fields otherwise, or for
      every field when no target is given. */
  function UpdateClause(fields: seq<string>, updateTargets: Obj, increment: bool): (r: Result<string>)
    ensures increment ==> (r.Ok? <==> updateTargets.Scalar? && updateTargets.v.Str?)
    ensures increment && r.Ok? ==> r.value == IncrementUpdate(updateTargets.v.s)
    ensures r.Err? ==> r.error.AssertionError?
    ensures !increment && !Truthy(updateTargets) ==> r == Ok(UpdateList(fields))
    ensures !increment && Truthy(updateTargets) ==> (r.Ok? <==> updateTargets.List?)
    ensures !increment && Truthy(updateTargets) && r.Ok? ==>
              exists names :: r.value == UpdateList(names) && Subsequence(names, fields)
                              && forall x :: x in names <==> x in fields && Scalar(Str(x)) in updateTargets.items
  {
    if increment then
      if updateTargets.Scalar? && updateTargets.v.Str? then Ok(IncrementUpdate(updateTargets.v.s))
      else Err(AssertionError("update_targets must be a string"))
    else if Truthy(updateTargets) then
      if !updateTargets.List? then Err(AssertionError("update_targets must be a list"))
      else
        FieldsInMeans(fields, updateTargets);
        Ok(UpdateList(FieldsIn(fields, updateTargets).value))
    else Ok(UpdateList(fields))
  }

  /** The list and key checks of `insert` and `merge` pass: a non-empty list
      of dicts that all carry the first row's keys. */
  ghost predicate RowsAgree(data: Obj)
  {
    data.List? && data.items != [] && data.items[0].Dict? && AllSameKeys(data.items[0].row, data.items[1..])
  }

  class MariaConnect {
    /** `conn_medium_` and `pool_`. */
    const medium: Medium
    const pool: bool
    /** `conn_`; `None` once closed. */
    var conn: Option<Link>
    /** What the server completed on `cur_`, oldest first. */
    var calls: seq<CursorCall>

    constructor (medium: Medium, pool: bool, link: Link)
      ensures this.medium == medium && this.pool == pool
      ensures conn == Some(link) && calls == []
    {
      this.medium := medium;
      this.pool := pool;
      conn := Some(link);
      calls := [];
    }

    /** `mariaConnect(conn_medium_, pool_)`: connect, switch autocommit on and
        open a `DictCursor`; a refused connection becomes `RuntimeError`. */
    static method Open(medium: Medium, pool: bool, server: Server) returns (r: Result<MariaConnect>)
      ensures r.Ok? <==> Connect(medium, pool, server).Ok?
      ensures r.Ok? ==> fresh(r.value) && r.value.medium == medium && r.value.pool == pool
                        && r.value.conn == Some(Link(true, None)) && r.value.calls == []
      ensures r.Err? ==> r.error == Rewrap(Connect(medium, pool, server).error, "Error connection to the database: ", "")
                         || (!Connect(medium, pool, server).error.DriverError? && r.error == Connect(medium, pool, server).error)
      ensures r.Err? && Connect(medium, pool, server).error.DriverError? ==>
                r.error == RuntimeError("Error connection to the database: " + Connect(medium, pool, server).error.message)
    {
      match Connect(medium, pool, server)
      case Err(e) =>
        if e.DriverError? {
          return Err(RuntimeError("Error connection to the database: " + e.message));
        }
        return Err(e);
      case Ok(link) =>
        var c := new MariaConnect(medium, pool, link);
        return Ok(c);
    }

    /** `close`: closes the connection, if any, and forgets it. */
    method Close()
      modifies this
      ensures conn == None && calls == old(calls)
    {
      if conn.Some? {
        conn := None;
      }
    }

    /** `ping`: replaces `conn_` and `cur_` with a fresh connection from the
        medium; a failed reconnect raises and leaves them as they were. */
    method Ping(server: Server) returns (r: Result<()>)
      modifies this
      ensures r.Ok? <==> Connect(medium, pool, server).Ok?
      ensures r.Ok? ==> conn == Some(Link(true, None))
      ensures r.Err? ==> r.error == Connect(medium, pool, server).error && conn == old(conn)
      ensures calls == old(calls)
    {
      match Connect(medium, pool, server)
      case Err(e) => return Err(e);
      case Ok(link) =>
        conn := Some(link);
        return Ok(());
    }

    /** Not a method of the connector: the server or the network drops the
        connection, which the connector then sees as `conn_.open == False`. */
    method Disconnect()
      modifies this
      ensures conn == (if old(conn).Some? then Some(old(conn).value.(open := false)) else None)
      ensures calls == old(calls)
    {
      if conn.Some? {
        conn := Some(conn.value.(open := false));
      }
    }

    /** `cur_.execute(query)`. */
    method CursorExecute(query: string, server: Server) returns (r: Result<seq<Row>>)
      modifies this
      ensures conn == old(conn)
      ensures !Usable(conn) ==> r == Err(MySqlError(ClosedMessage)) && calls == old(calls)
      ensures Usable(conn) && server.reply.Fails? ==>
                r == Err(MySqlError(server.reply.message)) && calls == old(calls)
      ensures Usable(conn) && server.reply.Rows? ==>
                r == Ok(server.reply.rows) && calls == old(calls) + [Execute(query)]
    {
      if !Usable(conn) {
        return Err(MySqlError(ClosedMessage));
      }
      match server.reply
      case Fails(m) => return Err(MySqlError(m));
      case Rows(rows) =>
        calls := calls + [Execute(query)];
        return Ok(rows);
    }

    /** `cur_.executemany(template, rows)`: every row is bound first; then
        the statements go to the server. */
    method CursorExecuteMany(template: string, rows: seq<Row>, server: Server) returns (r: Result<()>)
      modifies this
      ensures conn == old(conn)
      ensures r.Ok? <==> BindError(template, rows, server.literal).None? && Usable(conn) && server.reply.Rows?
      ensures r.Ok? ==> calls == old(calls) + [ExecuteMany(template, rows)]
      ensures r.Err? ==> calls == old(calls)
      ensures BindError(template, rows, server.literal).Some? ==> r == Err(BindError(template, rows, server.literal).value)
      ensures BindError(template, rows, server.literal).None? && !Usable(conn) ==> r == Err(MySqlError(ClosedMessage))
      ensures BindError(template, rows, server.literal).None? && Usable(conn) && server.reply.Fails? ==>
                r == Err(MySqlError(server.reply.message))
    {
      var bad := BindError(template, rows, server.literal);
      if bad.Some? {
        return Err(bad.value);
      }
      if !Usable(conn) {
        return Err(MySqlError(ClosedMessage));
      }
      match server.reply
      case Fails(m) => return Err(MySqlError(m));
      case Rows(_) =>
        calls := calls + [ExecuteMany(template, rows)];
        return Ok(());
    }

    /** `delete`: the query must be non-empty and start with `delete`; the
        database attribute is set before the statement runs. */
    method Delete(query: string, database: Option<string>, server: Server) returns (r: Result<bool>)
      modifies this
      ensures query == "" ==> r == Err(AssertionError("Please set your query"))
      ensures query != "" && !HasVerb(query, "delete") ==> r == Err(AssertionError("Please set your delete query"))
      ensures HasVerb(query, "delete") && Given(database) && old(conn).None? ==> r == Err(AttributeError(NoDatabaseAttribute))
      ensures !HasVerb(query, "delete") || (Given(database) && old(conn).None?) ==> conn == old(conn) && calls == old(calls)
      ensures HasVerb(query, "delete") && !(Given(database) && old(conn).None?) ==>
                conn == WithDatabase(old(conn), database)
                && r == (if !Usable(old(conn)) then Err(RuntimeError(DeleteError + ClosedMessage))
                         else if server.reply.Fails? then Err(RuntimeError(DeleteError + server.reply.message))
                         else Ok(true))
                && calls == (if r.Ok? then old(calls) + [Execute(query)] else old(calls))
    {
      if query == "" {
        return Err(AssertionError("Please set your query"));
      }
      if !StartsWith(Lower(query), "delete") {
        return Err(AssertionError("Please set your delete query"));
      }
      if Given(database) {
        if conn.None? {
          return Err(AttributeError(NoDatabaseAttribute));
        }
        conn := WithDatabase(conn, database);
      }
      var done := CursorExecute(query, server);
      if done.Err? {
        return Err(Rewrap(done.error, DeleteError, "Error: "));
      }
      return Ok(true);
    }

    /** `truncate`: `TRUNCATE TABLE {database}.{table};` when a database is
        given, `TRUNCATE TABLE {table};` otherwise. */
    method Truncate(tableName: string, database: Option<string>, server: Server) returns (r: Result<bool>)
      modifies this
      ensures conn == old(conn)
      ensures tableName == "" ==> r == Err(AssertionError("Please set your table name")) && calls == old(calls)
      ensures tableName != "" ==>
                var target := if Given(database) then database.value + "." + tableName else tableName;
                r == (if !Usable(conn) then Err(RuntimeError(DeleteError + ClosedMessage))
                      else if server.reply.Fails? then Err(RuntimeError(DeleteError + server.reply.message))
                      else Ok(true))
                && calls == (if r.Ok? then old(calls) + [Execute("TRUNCATE TABLE " + target + ";")] else old(calls))
    {
      if tableName == "" {
        return Err(AssertionError("Please set your table name"));
      }
      var target := tableName;
      if Given(database) {
        target := database.value + "." + tableName;
      }
      var done := CursorExecute("TRUNCATE TABLE " + target + ";", server);
      if done.Err? {
        return Err(Rewrap(done.error, DeleteError, ""));
      }
      return Ok(true);
    }

    /** `select`: validates the query, sets the database attribute,
        reconnects when the connection is missing (or, unpooled, closed),
        runs the query and collects `fetchmany(size=chunk_size)` pages until
        a page comes back short. A `chunk_size` below one never ends the
        loop, so callers must pass a positive one. */
    method Select(query: string, database: Option<string>, chunkSize: int, server: Server)
      returns (r: Result<seq<Row>>)
      requires 0 < chunkSize
      modifies this
      ensures query == "" ==> r == Err(AssertionError("Please set your query"))
      ensures query != "" && !HasVerb(query, "select") ==> r == Err(AssertionError("Please set your select query"))
      ensures HasVerb(query, "select") && Given(database) && old(conn).None? ==>
                r == Err(AttributeError(NoDatabaseAttribute))
      ensures HasVerb(query, "select") && !pool && old(conn).None? && !Given(database) ==>
                r == Err(RuntimeError(NoOpenAttribute))
      ensures !HasVerb(query, "select") || (old(conn).None? && (Given(database) || !pool)) ==>
                conn == old(conn) && calls == old(calls)
      ensures HasVerb(query, "select") && (old(conn).Some? || (pool && !Given(database))) ==>
                var c1 := WithDatabase(old(conn), database);
                match Refresh(medium, pool, c1, server)
                case Err(e) => r == Err(Rewrap(e, FetchError, "")) && conn == c1 && calls == old(calls)
                case Ok(c2) =>
                  conn == c2
                  && (!Usable(c2) ==> r == Err(RuntimeError(FetchError + ClosedMessage)) && calls == old(calls))
                  && (Usable(c2) && server.reply.Fails? ==>
                        r == Err(RuntimeError(FetchError + server.reply.message)) && calls == old(calls))
                  && (Usable(c2) && server.reply.Rows? ==>
                        r == Ok(server.reply.rows)
                        && calls == old(calls) + [Execute(query)]
                                    + Fetches(chunkSize, Pages(|server.reply.rows|, chunkSize)))
    {
      if query == "" {
        return Err(AssertionError("Please set your query"));
      }
      if !StartsWith(Lower(query), "select") {
        return Err(AssertionError("Please set your select query"));
      }
      if Given(database) {
        if conn.None? {
          return Err(AttributeError(NoDatabaseAttribute));
        }
        conn := WithDatabase(conn, database);
      }
      // inside the try block
      if !pool && conn.None? {
        return Err(RuntimeError(NoOpenAttribute));
      }
      if NeedsPing(pool, conn) {
        var p := Ping(server);
        if p.Err? {
          return Err(Rewrap(p.error, FetchError, ""));
        }
      }
      var done := CursorExecute(query, server);
      if done.Err? {
        return Err(Rewrap(done.error, FetchError, ""));
      }
      var rows := done.value;
      ghost var start, link := calls, conn;
      var pending := rows;
      var result: seq<Row> := [];
      var complete := false;
      ghost var pages: nat := 0;
      while !complete
        invariant result + pending == rows && conn == link
        invariant calls == start + Fetches(chunkSize, pages)
        invariant !complete ==> pages + Pages(|pending|, chunkSize) == Pages(|rows|, chunkSize)
        invariant complete ==> pending == [] && pages == Pages(|rows|, chunkSize)
        decreases |pending| + (if complete then 0 else 1)
      {
        var page := Page(pending, chunkSize);
        pending := pending[|page|..];
        calls := calls + [FetchMany(chunkSize)];
        result := result + page;
        pages := pages + 1;
        complete := |page| < chunkSize;
      }
      assert result == rows;
      return Ok(result);
    }

    /** `insert`: a non-empty list of dicts sharing the first row's keys is
        written with one `INSERT IGNORE` over all rows; once the list checks
        pass, every failure leaves as `TypeError("All fields must be identical.")`. */
    method Insert(data: Obj, tableName: string, database: Option<string>, server: Server) returns (r: Result<()>)
      modifies this
      ensures !data.List? ==> r == Err(AssertionError("Input data != type(list)"))
      ensures data.List? && data.items == [] ==> r == Err(AssertionError("Input data is empty"))
      ensures r.Err? && data.List? && data.items != [] ==> r.error == TypeError(AllFieldsIdentical)
      ensures r.Err? ==> calls == old(calls)
      ensures r.Ok? <==>
                RowsAgree(data)
                && (old(conn).Some? || pool)
                && Refresh(medium, pool, old(conn), server).Ok?
                && Usable(Refresh(medium, pool, old(conn), server).value)
                && BindError(InsertIgnore(tableName, KeysOf(data.items[0].row), Pyformat),
                             RowsOf(data.items), server.literal).None?
                && server.reply.Rows?
      ensures r.Ok? ==>
                calls == old(calls) + [ExecuteMany(InsertIgnore(tableName, KeysOf(data.items[0].row), Pyformat),
                                                   RowsOf(data.items))]
      ensures conn == (if RowsAgree(data) && (old(conn).Some? || pool)
                          && Refresh(medium, pool, old(conn), server).Ok?
                       then WithDatabase(Refresh(medium, pool, old(conn), server).value, database)
                       else old(conn))
    {
      if !data.List? {
        return Err(AssertionError("Input data != type(list)"));
      }
      if data.items == [] {
        return Err(AssertionError("Input data is empty"));
      }
      // inside the outer try block: every failure becomes TypeError
      var items := data.items;
      if !items[0].Dict? {
        return Err(TypeError(AllFieldsIdentical));
      }
      var first := items[0].row;
      KeysAgreeMeans(first, items[1..]);
      if KeysAgree(first, items[1..]) != Ok(true) {
        return Err(TypeError(AllFieldsIdentical));
      }
      assert AllSameKeys(first, items) by {
        forall i | 0 <= i < |items| ensures items[i].Dict? && KeySet(items[i].row) == KeySet(first) {
          if i > 0 {
            assert items[i] == items[1..][i - 1];
          }
        }
      }
      if !pool && conn.None? {
        return Err(TypeError(AllFieldsIdentical));
      }
      if NeedsPing(pool, conn) {
        var p := Ping(server);
        if p.Err? {
          return Err(TypeError(AllFieldsIdentical));
        }
      }
      conn := WithDatabase(conn, database);
      var template := InsertIgnore(tableName, KeysOf(first), Pyformat);
      var done := CursorExecuteMany(template, RowsOf(items), server);
      if done.Err? {
        return Err(TypeError(AllFieldsIdentical));
      }
      return Ok(());
    }

    /** `merge`: like `insert`, followed by an `ON DUPLICATE KEY UPDATE`
        clause. The list, key and connection checks run outside the try block
        and raise as they are; failures inside it become `RuntimeError`. */
    method Merge(data: Obj, tableName: string, database: Option<string>, updateTargets: Obj,
                 increment: bool, server: Server)
      returns (r: Result<()>)
      modifies this
      ensures !data.List? ==> r == Err(AssertionError("Input data != type(list)"))
      ensures data.List? && data.items == [] ==> r == Err(AssertionError("Input data is empty"))
      ensures data.List? && data.items != [] && !data.items[0].Dict? ==>
                r == Err(AttributeError("'" + TypeName(data.items[0]) + "' object has no attribute 'keys'"))
      ensures data.List? && data.items != [] && data.items[0].Dict?
              && KeysAgree(data.items[0].row, data.items[1..]).Err? ==>
                r == Err(KeysAgree(data.items[0].row, data.items[1..]).error)
      ensures data.List? && data.items != [] && data.items[0].Dict?
              && KeysAgree(data.items[0].row, data.items[1..]) == Ok(false) ==>
                r == Err(AssertionError(AllFieldsIdentical))
      ensures r.Err? ==> calls == old(calls)
      ensures RowsAgree(data) && !pool && old(conn).None? ==> r == Err(AttributeError(NoOpenAttribute))
      ensures RowsAgree(data) && (old(conn).Some? || pool) && Refresh(medium, pool, old(conn), server).Err? ==>
                r == Err(Refresh(medium, pool, old(conn), server).error)
      ensures conn == (if RowsAgree(data) && (old(conn).Some? || pool) && Refresh(medium, pool, old(conn), server).Ok?
                       then WithDatabase(Refresh(medium, pool, old(conn), server).value, database)
                       else old(conn))
      ensures RowsAgree(data) && (old(conn).Some? || pool) && Refresh(medium, pool, old(conn), server).Ok? ==>
                var fields := KeysOf(data.items[0].row);
                var link := Refresh(medium, pool, old(conn), server).value;
                match UpdateClause(fields, updateTargets, increment)
                case Err(e) => r == Err(Rewrap(e, InsertError, "Error: "))
                case Ok(update) =>
                  var bad := BindError(Upsert(tableName, fields, Pyformat, update), RowsOf(data.items), server.literal);
                  (bad.Some? ==> r == Err(Rewrap(bad.value, InsertError, "Error: ")))
                  && (bad.None? && !Usable(link) ==> r == Err(RuntimeError(InsertError + ClosedMessage)))
                  && (bad.None? && Usable(link) && server.reply.Fails? ==>
                        r == Err(RuntimeError(InsertError + server.reply.message)))
                  && (bad.None? && Usable(link) && server.reply.Rows? ==>
                        r == Ok(()) && calls == old(calls) + [ExecuteMany(Upsert(tableName, fields, Pyformat, update),
                                                                          RowsOf(data.items))])
    {
      if !data.List? {
        return Err(AssertionError("Input data != type(list)"));
      }
      if data.items == [] {
        return Err(AssertionError("Input data is empty"));
      }
      var items := data.items;
      if !items[0].Dict? {
        return Err(AttributeError("'" + TypeName(items[0]) + "' object has no attribute 'keys'"));
      }
      var first := items[0].row;
      var fields := KeysOf(first);
      KeysAgreeMeans(first, items[1..]);
      var agree := KeysAgree(first, items[1..]);
      if agree.Err? {
        return Err(agree.error);
      }
      if !agree.value {
        return Err(AssertionError(AllFieldsIdentical));
      }
      assert AllSameKeys(first, items) by {
        forall i | 0 <= i < |items| ensures items[i].Dict? && KeySet(items[i].row) == KeySet(first) {
          if i > 0 {
            assert items[i] == items[1..][i - 1];
          }
        }
      }
      if !pool && conn.None? {
        return Err(AttributeError(NoOpenAttribute));
      }
      if NeedsPing(pool, conn) {
        var p := Ping(server);
        if p.Err? {
          return Err(p.error);
        }
      }
      conn := WithDatabase(conn, database);
      // inside the try block
      var update := UpdateClause(fields, updateTargets, increment);
      if update.Err? {
        return Err(Rewrap(update.error, InsertError, "Error: "));
      }
      var template := Upsert(tableName, fields, Pyformat, update.value);
      var done := CursorExecuteMany(template, RowsOf(items), server);
      if done.Err? {
        return Err(Rewrap(done.error, InsertError, "Error: "));
      }
      return Ok(());
    }
  }
}
