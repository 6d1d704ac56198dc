/** The older `mariaConnect` revision: the same connector, except that
    `ping` asks the existing connection to reconnect, `select`, `insert` and
    `merge` reconnect only when `conn_` is missing, every failure of an
    operation is replaced by one `ValueError`, placeholders are written
    `%(f)` without a conversion character, and `merge` has no increment
    mode. */
module LegacyMariaConnector {
  import opened PyObjects
  import opened Text
  import opened SqlText
  import opened MysqlDriver

  const QueryNotSet: string := "Please set your query"
  const TableNotSet: string := "Please set your table name"
  const BadInput: string := "Input data != type(list) or empty"

  /** The update clause of the older `merge`: `f=VALUES(f)` for the fields
      found `in update_targets` (a substring of a string, an element of a
      list, a key of a dict), or for every field when no target is given;
      a number as target cannot be searched. */
  function LegacyUpdateClause(fields: seq<string>, updateTargets: Obj): (r: Result<string>)
    ensures !Truthy(updateTargets) ==> r == Ok(UpdateList(fields))
    ensures r.Err? <==> Truthy(updateTargets) && updateTargets.Scalar? && !updateTargets.v.Str? && fields != []
    ensures Truthy(updateTargets) && r.Ok? ==>
              exists names :: r.value == UpdateList(names) && Subsequence(names, fields)
                              && forall x :: x in names <==> x in fields && PyIn(x, updateTargets) == Ok(true)
  {
    if Truthy(updateTargets) then
      FieldsInMeans(fields, updateTargets);
      var names :- FieldsIn(fields, updateTargets);
      Ok(UpdateList(names))
    else Ok(UpdateList(fields))
  }

  /** The rows passed to the older `insert` or `merge` are a non-empty list
      of dicts sharing the first row's keys. */
  ghost predicate WellShaped(data: Obj)
  {
    data.List? && data.items != [] && data.items[0].Dict?
    && AllSameKeys(data.items[0].row, data.items[1..])
  }

  /** The first row's keys, in order. */
  function FieldsOf(data: Obj): seq<string>
    requires data.List? && data.items != [] && data.items[0].Dict?
  {
    KeysOf(data.items[0].row)
  }

  class MariaConnect {
    const medium: Medium
    const pool: bool
    var conn: Option<Link>
    var calls: seq<CursorCall>

    constructor (medium: Medium, pool: bool, link: Link)
      ensures this.medium == medium && this.pool == pool
      ensures conn == Some(link) && calls == []
    {
      this.medium := medium;
      this.pool := pool;
      conn := Some(link);
      calls := [];
    }

    /** `mariaConnect(conn_medium_, pool_)`, as in the current revision. */
    static method Open(medium: Medium, pool: bool, server: Server) returns (r: Result<MariaConnect>)
      ensures r.Ok? <==> Connect(medium, pool, server).Ok?
      ensures r.Ok? ==> fresh(r.value) && r.value.medium == medium && r.value.pool == pool
                        && r.value.conn == Some(Link(true, None)) && r.value.calls == []
      ensures r.Err? && Connect(medium, pool, server).error.DriverError? ==>
                r.error == RuntimeError("Error connection to the database: " + Connect(medium, pool, server).error.message)
      ensures r.Err? && !Connect(medium, pool, server).error.DriverError? ==>
                r.error == Connect(medium, pool, server).error
    {
      match Connect(medium, pool, server)
      case Err(e) =>
        if e.DriverError? {
          return Err(RuntimeError("Error connection to the database: " + e.message));
        }
        return Err(e);
      case Ok(link) =>
        var c := new MariaConnect(medium, pool, link);
        return Ok(c);
    }

    /** `close`: closes the connection, if any, and forgets it. */
    method Close()
      modifies this
      ensures conn == None && calls == old(calls)
    {
      if conn.Some? {
        conn := None;
      }
    }

    /** `ping`: `conn_.ping(reconnect=True)` on the existing connection, which
        reopens it in place (its `database` attribute survives); without a
        connection there is nothing to call `ping` on. */
    method Ping(server: Server) returns (r: Result<()>)
      modifies this
      ensures old(conn).None? ==> r == Err(AttributeError("'NoneType' object has no attribute 'ping'"))
      ensures old(conn).Some? && old(conn).value.open ==> r == Ok(())
      ensures old(conn).Some? && !old(conn).value.open && server.connectError.Some? ==>
                r == Err(MySqlError(server.connectError.value))
      ensures r.Ok? ==> conn == Some(Link(true, old(conn).value.database))
      ensures r.Err? ==> conn == old(conn)
      ensures calls == old(calls)
    {
      if conn.None? {
        return Err(AttributeError("'NoneType' object has no attribute 'ping'"));
      }
      if !conn.value.open {
        if server.connectError.Some? {
          return Err(MySqlError(server.connectError.value));
        }
        conn := Some(conn.value.(open := true));
      }
      return Ok(());
    }

    /** Not a method of the connector: the server or the network drops the connection. */
    method Disconnect()
      modifies this
      ensures conn == (if old(conn).Some? then Some(old(conn).value.(open := false)) else None)
      ensures calls == old(calls)
    {
      if conn.Some? {
        conn := Some(conn.value.(open := false));
      }
    }

    /** `cur_.execute(query)`. */
    method CursorExecute(query: string, server: Server) returns (r: Result<seq<Row>>)
      modifies this
      ensures conn == old(conn)
      ensures !Usable(conn) ==> r == Err(MySqlError(ClosedMessage)) && calls == old(calls)
      ensures Usable(conn) && server.reply.Fails? ==>
                r == Err(MySqlError(server.reply.message)) && calls == old(calls)
      ensures Usable(conn) && server.reply.Rows? ==>
                r == Ok(server.reply.rows) && calls == old(calls) + [Execute(query)]
    {
      if !Usable(conn) {
        return Err(MySqlError(ClosedMessage));
      }
      match server.reply
      case Fails(m) => return Err(MySqlError(m));
      case Rows(rows) =>
        calls := calls + [Execute(query)];
        return Ok(rows);
    }

    /** `cur_.executemany(template, rows)`. */
    method CursorExecuteMany(template: string, rows: seq<Row>, server: Server) returns (r: Result<()>)
      modifies this
      ensures conn == old(conn)
      ensures r.Ok? <==> BindError(template, rows, server.literal).None? && Usable(conn) && server.reply.Rows?
      ensures r.Ok? ==> calls == old(calls) + [ExecuteMany(template, rows)]
      ensures r.Err? ==> calls == old(calls)
    {
      var bad := BindError(template, rows, server.literal);
      if bad.Some? {
        return Err(bad.value);
      }
      if !Usable(conn) {
        return Err(MySqlError(ClosedMessage));
      }
      match server.reply
      case Fails(m) => return Err(MySqlError(m));
      case Rows(_) =>
        calls := calls + [ExecuteMany(template, rows)];
        return Ok(());
    }

    /** `delete`: any failure, including the server's, becomes
        `ValueError("Please set your query")`. */
    method Delete(query: string, database: Option<string>, server: Server) returns (r: Result<bool>)
      modifies this
      ensures r.Err? ==> r.error == ValueError(QueryNotSet) && calls == old(calls)
      ensures r.Ok? <==> HasVerbLegacy(query, "delete") && Usable(old(conn)) && server.reply.Rows?
      ensures r.Ok? ==> r.value && calls == old(calls) + [Execute(query)]
      ensures conn == (if HasVerbLegacy(query, "delete") then WithDatabase(old(conn), database) else old(conn))
    {
      if query == "" || !StartsWith(Lower(query), "delete") {
        return Err(ValueError(QueryNotSet));
      }
      if Given(database) {
        if conn.None? {
          return Err(ValueError(QueryNotSet));
        }
        conn := WithDatabase(conn, database);
      }
      var done := CursorExecute(query, server);
      if done.Err? {
        return Err(ValueError(QueryNotSet));
      }
      return Ok(true);
    }

    /** `truncate`: as in the current revision, with every failure replaced
        by `ValueError("Please set your table name")`. */
    method Truncate(tableName: string, database: Option<string>, server: Server) returns (r: Result<bool>)
      modifies this
      ensures conn == old(conn)
      ensures r.Err? ==> r.error == ValueError(TableNotSet) && calls == old(calls)
      ensures r.Ok? <==> tableName != "" && Usable(conn) && server.reply.Rows?
      ensures r.Ok? ==>
                var target := if Given(database) then database.value + "." + tableName else tableName;
                r.value && calls == old(calls) + [Execute("TRUNCATE TABLE " + target + ";")]
    {
      if tableName == "" {
        return Err(ValueError(TableNotSet));
      }
      var target := tableName;
      if Given(database) {
        target := database.value + "." + tableName;
      }
      var done := CursorExecute("TRUNCATE TABLE " + target + ";", server);
      if done.Err? {
        return Err(ValueError(TableNotSet));
      }
      return Ok(true);
    }

    /** `select`: reconnects only when `conn_` is missing, which fails, since
        there is then no connection to ping; pages through the rows as the
        current revision does; every failure becomes
        `ValueError("Please set your query")`. */
    method Select(query: string, database: Option<string>, chunkSize: int, server: Server)
      returns (r: Result<seq<Row>>)
      requires 0 < chunkSize
      modifies this
      ensures r.Err? ==> r.error == ValueError(QueryNotSet) && calls == old(calls)
      ensures r.Ok? <==> HasVerbLegacy(query, "select") && Usable(old(conn)) && server.reply.Rows?
      ensures r.Ok? ==> r.value == server.reply.rows
                        && calls == old(calls) + [Execute(query)]
                                    + Fetches(chunkSize, Pages(|server.reply.rows|, chunkSize))
      ensures conn == (if HasVerbLegacy(query, "select") then WithDatabase(old(conn), database) else old(conn))
    {
      if query == "" || !StartsWith(Lower(query), "select") {
        return Err(ValueError(QueryNotSet));
      }
      if Given(database) {
        if conn.None? {
          return Err(ValueError(QueryNotSet));
        }
        conn := WithDatabase(conn, database);
      }
      if conn.None? {
        var p := Ping(server);
        return Err(ValueError(QueryNotSet));
      }
      var done := CursorExecute(query, server);
      if done.Err? {
        return Err(ValueError(QueryNotSet));
      }
      var rows := done.value;
      ghost var start, link := calls, conn;
      var pending := rows;
      var result: seq<Row> := [];
      var complete := false;
      ghost var pages: nat := 0;
      while !complete
        invariant result + pending == rows && conn == link
        invariant calls == start + Fetches(chunkSize, pages)
        invariant !complete ==> pages + Pages(|pending|, chunkSize) == Pages(|rows|, chunkSize)
        invariant complete ==> pending == [] && pages == Pages(|rows|, chunkSize)
        decreases |pending| + (if complete then 0 else 1)
      {
        var page := Page(pending, chunkSize);
        pending := pending[|page|..];
        calls := calls + [FetchMany(chunkSize)];
        result := result + page;
        pages := pages + 1;
        complete := |page| < chunkSize;
      }
      assert result == rows;
      return Ok(result);
    }

    /** `insert`: every failure becomes `ValueError("Input data != type(list)
        or empty")`. Binding a row to the `%(f)` placeholders always fails,
        so only rows without fields ever reach the server. */
    method Insert(data: Obj, tableName: string, database: Option<string>, server: Server) returns (r: Result<()>)
      modifies this
      ensures r.Err? ==> r.error == ValueError(BadInput) && calls == old(calls)
      ensures r.Ok? <==>
                WellShaped(data) && Usable(old(conn))
                && BindError(InsertIgnore(tableName, FieldsOf(data), BareKey), RowsOf(data.items), server.literal).None?
                && server.reply.Rows?
      ensures r.Ok? ==>
                calls == old(calls) + [ExecuteMany(InsertIgnore(tableName, FieldsOf(data), BareKey), RowsOf(data.items))]
      ensures r.Ok? && '%' !in tableName && PlainKeys(FieldsOf(data)) ==> FieldsOf(data) == []
      ensures conn == (if WellShaped(data) && old(conn).Some? then WithDatabase(old(conn), database) else old(conn))
    {
      if !data.List? || data.items == [] {
        return Err(ValueError(BadInput));
      }
      var items := data.items;
      if !items[0].Dict? {
        return Err(ValueError(BadInput));
      }
      var first := items[0].row;
      KeysAgreeMeans(first, items[1..]);
      if KeysAgree(first, items[1..]) != Ok(true) {
        return Err(ValueError(BadInput));
      }
      AllSameKeysWhole(first, items);
      if conn.None? {
        var p := Ping(server);
        return Err(ValueError(BadInput));
      }
      conn := WithDatabase(conn, database);
      var template := InsertIgnore(tableName, KeysOf(first), BareKey);
      var done := CursorExecuteMany(template, RowsOf(items), server);
      if done.Err? {
        return Err(ValueError(BadInput));
      }
      assert template + "" == template;
      NoBareKeyRowBinds(tableName, KeysOf(first), "", RowsOf(items), server.literal);
      return Ok(());
    }

    /** `merge`: like the older `insert`, with the update clause appended. */
    method Merge(data: Obj, tableName: string, database: Option<string>, updateTargets: Obj, server: Server)
      returns (r: Result<()>)
      modifies this
      ensures r.Err? ==> r.error == ValueError(BadInput) && calls == old(calls)
      ensures r.Ok? <==>
                WellShaped(data) && Usable(old(conn))
                && LegacyUpdateClause(FieldsOf(data), updateTargets).Ok?
                && BindError(Upsert(tableName, FieldsOf(data), BareKey,
                                    LegacyUpdateClause(FieldsOf(data), updateTargets).value),
                             RowsOf(data.items), server.literal).None?
                && server.reply.Rows?
      ensures r.Ok? ==>
                calls == old(calls)
                         + [ExecuteMany(Upsert(tableName, FieldsOf(data), BareKey,
                                               LegacyUpdateClause(FieldsOf(data), updateTargets).value),
                                        RowsOf(data.items))]
      ensures r.Ok? && '%' !in tableName && PlainKeys(FieldsOf(data)) ==> FieldsOf(data) == []
      ensures conn == (if WellShaped(data) && old(conn).Some? then WithDatabase(old(conn), database) else old(conn))
    {
      if !data.List? || data.items == [] {
        return Err(ValueError(BadInput));
      }
      var items := data.items;
      if !items[0].Dict? {
        return Err(ValueError(BadInput));
      }
      var first := items[0].row;
      var fields := KeysOf(first);
      KeysAgreeMeans(first, items[1..]);
      if KeysAgree(first, items[1..]) != Ok(true) {
        return Err(ValueError(BadInput));
      }
      AllSameKeysWhole(first, items);
      if conn.None? {
        var p := Ping(server);
        return Err(ValueError(BadInput));
      }
      conn := WithDatabase(conn, database);
      var update := LegacyUpdateClause(fields, updateTargets);
      if update.Err? {
        return Err(ValueError(BadInput));
      }
      var template := Upsert(tableName, fields, BareKey, update.value);
      var done := CursorExecuteMany(template, RowsOf(items), server);
      if done.Err? {
        return Err(ValueError(BadInput));
      }
      var after := " ON DUPLICATE KEY UPDATE " + update.value + ";";
      assert template == InsertIgnore(tableName, fields, BareKey) + after;
      NoBareKeyRowBinds(tableName, fields, after, RowsOf(items), server.literal);
      return Ok(());
    }
  }

  /** `query and query.lower().startswith(verb)`. */
  predicate HasVerbLegacy(query: string, verb: string)
  {
    query != "" && StartsWith(Lower(query), verb)
  }

  lemma AllSameKeysWhole(first: Row, items: seq<Obj>)
    requires items != [] && items[0].Dict? && items[0].row == first
    requires AllSameKeys(first, items[1..])
    ensures AllSameKeys(first, items)
  {
    forall i | 0 <= i < |items| ensures items[i].Dict? && KeySet(items[i].row) == KeySet(first) {
      if i > 0 {
        assert items[i] == items[1..][i - 1];
      }
    }
  }

  /** With at least one row and one field, some row fails to bind to the
      older revision's statement, whatever follows the `VALUES` group. */
  lemma NoBareKeyRowBinds(table: string, fields: seq<string>, after: string, rows: seq<Row>, literal: Value -> string)
    requires rows != [] && BindError(InsertIgnore(table, fields, BareKey) + after, rows, literal).None?
    ensures '%' !in table && PlainKeys(fields) ==> fields == []
  {
    if '%' !in table && PlainKeys(fields) && fields != [] {
      BareKeysNeverBind(table, fields, after, rows[0], literal);
    }
  }
}
