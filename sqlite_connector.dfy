/** `SQLiteConnector`: statements built from table names, column maps and
    rows, run on one cursor and committed on its connection. */
module SqliteConnector {
  import opened PyObjects
  import opened Text

  const NoValues := "No values to insert"
  const NotAList := "Values must be list"
  const NotADict := "Elements must be dictionary"

  /** What the connector asks of sqlite3, in order. */
  datatype SqlCall = Execute(sql: string) | ExecuteMany(sql: string, params: seq<seq<Value>>) | FetchAll | Commit

  /** What the database does with the next statement: an `sqlite3.Error`
      message, or the rows it returns. */
  datatype SqlServer = SqlServer(failure: Option<string>, rows: seq<seq<Value>>)

  /** `[k]` for every name. */
  function Brackets(names: seq<string>): (r: seq<string>)
    ensures |r| == |names|
    ensures forall i :: 0 <= i < |names| ==> r[i] == "[" + names[i] + "]"
  {
    seq(|names|, i requires 0 <= i < |names| => "[" + names[i] + "]")
  }

  /** `','.join(f"[{k}]" for k in names)`. */
  function ColumnList(names: seq<string>): string
  {
    Join(",", Brackets(names))
  }

  /** `','.join(["?"] * n)`. */
  function Placeholders(n: nat): string
  {
    Join(",", seq(n, _ => "?"))
  }

  /** `f"[{k}] {v}"` for every column and its type. */
  function ColumnDefs(columns: seq<(string, string)>): (r: seq<string>)
    ensures |r| == |columns|
    ensures forall i :: 0 <= i < |columns| ==> r[i] == "[" + columns[i].0 + "] " + columns[i].1
  {
    seq(|columns|, i requires 0 <= i < |columns| => "[" + columns[i].0 + "] " + columns[i].1)
  }

  function CreateTableSql(table: string, columns: seq<(string, string)>): string
  {
    "CREATE TABLE IF NOT EXISTS " + table + " (" + Join(",", ColumnDefs(columns)) + ")"
  }

  /** `INSERT OR IGNORE` (`insert`) or `INSERT OR REPLACE` (`merge`) with the
      first row's columns and one `?` per column. */
  function InsertSql(conflict: string, table: string, keys: seq<string>): string
  {
    "INSERT OR " + conflict + " INTO " + table + " (" + ColumnList(keys) + ") VALUES (" + Placeholders(|keys|) + ")"
  }

  /** A condition of the WHERE clause: strings are quoted, other values are
      printed as `str` prints them. */
  function Condition(k: string, v: Value): string
  {
    if v.Str? then "[" + k + "] = '" + v.s + "'" else "[" + k + "] = " + PyStr(v)
  }

  function Conditions(conditions: Row): (r: seq<string>)
    ensures |r| == |conditions|
    ensures forall i :: 0 <= i < |conditions| ==> r[i] == Condition(conditions[i].0, conditions[i].1)
  {
    seq(|conditions|, i requires 0 <= i < |conditions| => Condition(conditions[i].0, conditions[i].1))
  }

  function SelectSql(table: string, columns: seq<string>, conditions: Row): string
  {
    "SELECT " + ColumnList(columns) + " FROM " + table + " WHERE " + Join(" AND ", Conditions(conditions))
  }

  /** With no `,` in the column names, the column list reads back as the
      bracketed names, and there are exactly as many `?` as columns. */
  lemma ColumnsMatchPlaceholders(keys: seq<string>)
    requires 1 <= |keys|
    requires forall i :: 0 <= i < |keys| ==> ',' !in keys[i]
    ensures SplitOn(ColumnList(keys), ',') == Brackets(keys)
    ensures SplitOn(Placeholders(|keys|), ',') == seq(|keys|, _ => "?")
    ensures |SplitOn(ColumnList(keys), ',')| == |SplitOn(Placeholders(|keys|), ',')| == |keys|
  {
    forall i | 0 <= i < |keys| ensures ',' !in Brackets(keys)[i] {
      assert Brackets(keys)[i] == "[" + keys[i] + "]";
    }
    SplitOnJoin(Brackets(keys), ',');
    SplitOnJoin(seq(|keys|, _ => "?"), ',');
  }

  /** With no `,` in names or types, the column definitions of a
      `CREATE TABLE` read back in the order of the map. */
  lemma CreateTableColumns(columns: seq<(string, string)>)
    requires 1 <= |columns|
    requires forall i :: 0 <= i < |columns| ==> ',' !in columns[i].0 && ',' !in columns[i].1
    ensures SplitOn(Join(",", ColumnDefs(columns)), ',') == ColumnDefs(columns)
  {
    forall i | 0 <= i < |columns| ensures ',' !in ColumnDefs(columns)[i] {
      assert ColumnDefs(columns)[i] == "[" + columns[i].0 + "] " + columns[i].1;
    }
    SplitOnJoin(ColumnDefs(columns), ',');
  }

  /** `[list(i.values()) for i in values]`: each row's own values in its
      own key order; the first item that is not a dict raises. */
  function Params(items: seq<Obj>): (r: Result<seq<seq<Value>>>)
    ensures r.Ok? <==> forall i :: 0 <= i < |items| ==> items[i].Dict?
    ensures r.Ok? ==> |r.value| == |items| && forall i :: 0 <= i < |items| ==> r.value[i] == ValuesOf(items[i].row)
    ensures r.Err? ==> exists i :: 0 <= i < |items| && !items[i].Dict? && (forall j :: 0 <= j < i ==> items[j].Dict?)
                         && r == Err(AttributeError("'" + TypeName(items[i]) + "' object has no attribute 'values'"))
    decreases |items|
  {
    if items == [] then Ok([])
    else if !items[0].Dict? then Err(AttributeError("'" + TypeName(items[0]) + "' object has no attribute 'values'"))
    else
      var rest :- Params(items[1..]);
      assert forall i :: 1 <= i < |items| ==> items[1..][i - 1] == items[i];
      Ok([ValuesOf(items[0].row)] + rest)
  }

  /** sqlite3's message for a parameter row whose length is not the number
      of `?` in the statement. */
  function WrongBindings(expected: nat, supplied: nat): string
  {
    "Incorrect number of bindings supplied. The current statement uses " + IntToString(expected)
    + ", and there are " + IntToString(supplied) + " supplied."
  }

  /** `executemany` binds the parameter rows one after the other: the first
      row whose length differs from the statement's `?` count raises
      `ProgrammingError`. */
  function BindingMismatch(expected: nat, ps: seq<seq<Value>>): (r: Option<Error>)
    ensures r.None? <==> forall i :: 0 <= i < |ps| ==> |ps[i]| == expected
    ensures r.Some? ==> exists i :: 0 <= i < |ps| && |ps[i]| != expected && (forall j :: 0 <= j < i ==> |ps[j]| == expected)
                                    && r.value == DriverError(WrongBindings(expected, |ps[i]|))
    decreases |ps|
  {
    if ps == [] then None
    else if |ps[0]| != expected then Some(DriverError(WrongBindings(expected, |ps[0]|)))
    else
      var later := BindingMismatch(expected, ps[1..]);
      assert forall i :: 1 <= i < |ps| ==> ps[i] == ps[1..][i - 1];
      later
  }

  /** What `insert` (`conflict` "IGNORE") or `merge` ("REPLACE") returns, and
      the calls it makes on the cursor and the connection. `server.failure`
      is a failure of the statement itself (a missing table, a read-only
      database), raised when it is prepared, before any row is bound. */
  function WriteOutcome(conflict: string, table: string, values: Obj, server: SqlServer): (Result<()>, seq<SqlCall>)
  {
    match Len(values)
    case Err(e) => (Err(e), [])
    case Ok(n) =>
      if n == 0 then (Err(AssertionError(NoValues)), [])
      else if !values.List? then (Err(AssertionError(NotAList)), [])
      else if !values.items[0].Dict? then (Err(AssertionError(NotADict)), [])
      else
        match Params(values.items)
        case Err(e) => (Err(e), [])
        case Ok(ps) =>
          var sql := InsertSql(conflict, table, KeysOf(values.items[0].row));
          if server.failure.Some? then (Err(DriverError(server.failure.value)), [ExecuteMany(sql, ps)])
          else
            match BindingMismatch(|values.items[0].row|, ps)
            case Some(e) => (Err(e), [ExecuteMany(sql, ps)])
            case None => (Ok(()), [ExecuteMany(sql, ps), Commit])
  }

  /** An insert or merge succeeds exactly when the values are a non-empty
      list of dicts, each with as many items as the first, and the statement
      runs; it then sends every row's values once and commits. The argument
      checks fail in the source's order without touching the database, and
      a failure never commits. */
  lemma WriteOutcomeMeans(conflict: string, table: string, values: Obj, server: SqlServer)
    ensures WriteOutcome(conflict, table, values, server).0.Ok? <==>
              values.List? && values.items != [] && values.items[0].Dict?
              && (forall i :: 0 <= i < |values.items| ==>
                    values.items[i].Dict? && |values.items[i].row| == |values.items[0].row|)
              && server.failure.None?
    ensures WriteOutcome(conflict, table, values, server).0.Ok? ==>
              WriteOutcome(conflict, table, values, server).1
              == [ExecuteMany(InsertSql(conflict, table, KeysOf(values.items[0].row)),
                              seq(|values.items|, i requires 0 <= i < |values.items| && values.items[i].Dict? =>
                                                    ValuesOf(values.items[i].row))),
                  Commit]
    ensures Len(values) == Ok(0) ==> WriteOutcome(conflict, table, values, server) == (Err(AssertionError(NoValues)), [])
    ensures values.Dict? && values.row != [] ==> WriteOutcome(conflict, table, values, server) == (Err(AssertionError(NotAList)), [])
    ensures values.List? && values.items != [] && !values.items[0].Dict? ==>
              WriteOutcome(conflict, table, values, server) == (Err(AssertionError(NotADict)), [])
    ensures WriteOutcome(conflict, table, values, server).0.Err? ==>
              Commit !in WriteOutcome(conflict, table, values, server).1
  {
    if values.List? && values.items != [] && values.items[0].Dict? {
      match Params(values.items)
      case Err(_) =>
      case Ok(ps) =>
        assert |ps| == |values.items|;
        assert forall i :: 0 <= i < |ps| ==> |ps[i]| == |values.items[i].row|;
        assert ps == seq(|values.items|, i requires 0 <= i < |values.items| && values.items[i].Dict? =>
                                           ValuesOf(values.items[i].row));
    }
  }

  class SQLiteConnector {
    /** The database path given to `sqlite3.connect`. */
    const medium: string
    var calls: seq<SqlCall>

    constructor (medium: string)
      ensures this.medium == medium && calls == []
    {
      this.medium := medium;
      calls := [];
    }

    /** `create_table(table_name, columns)`. */
    method CreateTable(table: string, columns: seq<(string, string)>, server: SqlServer) returns (r: Result<()>)
      modifies this
      ensures server.failure.Some? ==>
                r == Err(DriverError(server.failure.value)) && calls == old(calls) + [Execute(CreateTableSql(table, columns))]
      ensures server.failure.None? ==>
                r == Ok(()) && calls == old(calls) + [Execute(CreateTableSql(table, columns)), Commit]
    {
      calls := calls + [Execute(CreateTableSql(table, columns))];
      if server.failure.Some? {
        return Err(DriverError(server.failure.value));
      }
      calls := calls + [Commit];
      r := Ok(());
    }

    /** The body shared by `insert` and `merge`. */
    method Write(conflict: string, table: string, values: Obj, server: SqlServer) returns (r: Result<()>)
      modifies this
      ensures r == WriteOutcome(conflict, table, values, server).0
      ensures calls == old(calls) + WriteOutcome(conflict, table, values, server).1
    {
      var n :- Len(values);
      if n == 0 {
        return Err(AssertionError(NoValues));
      }
      if !values.List? {
        return Err(AssertionError(NotAList));
      }
      var first := values.items[0];
      if !first.Dict? {
        return Err(AssertionError(NotADict));
      }
      var sql := InsertSql(conflict, table, KeysOf(first.row));
      var ps :- Params(values.items);
      calls := calls + [ExecuteMany(sql, ps)];
      if server.failure.Some? {
        return Err(DriverError(server.failure.value));
      }
      var mismatch := BindingMismatch(|first.row|, ps);
      if mismatch.Some? {
        return Err(mismatch.value);
      }
      calls := calls + [Commit];
      r := Ok(());
    }

    /** `insert(table_name, values)`: rows whose key already exists are skipped. */
    method Insert(table: string, values: Obj, server: SqlServer) returns (r: Result<()>)
      modifies this
      ensures r == WriteOutcome("IGNORE", table, values, server).0
      ensures calls == old(calls) + WriteOutcome("IGNORE", table, values, server).1
    {
      r := Write("IGNORE", table, values, server);
    }

    /** `merge(table_name, values)`: rows whose key already exists are replaced. */
    method Merge(table: string, values: Obj, server: SqlServer) returns (r: Result<()>)
      modifies this
      ensures r == WriteOutcome("REPLACE", table, values, server).0
      ensures calls == old(calls) + WriteOutcome("REPLACE", table, values, server).1
    {
      r := Write("REPLACE", table, values, server);
    }

    /** `select(table_name, columns, conditions)`: all rows the statement returns. */
    method Select(table: string, columns: seq<string>, conditions: Row, server: SqlServer)
      returns (r: Result<seq<seq<Value>>>)
      modifies this
      ensures server.failure.Some? ==>
                r == Err(DriverError(server.failure.value))
                && calls == old(calls) + [Execute(SelectSql(table, columns, conditions))]
      ensures server.failure.None? ==>
                r == Ok(server.rows)
                && calls == old(calls) + [Execute(SelectSql(table, columns, conditions)), FetchAll]
    {
      calls := calls + [Execute(SelectSql(table, columns, conditions))];
      if server.failure.Some? {
        return Err(DriverError(server.failure.value));
      }
      calls := calls + [FetchAll];
      r := Ok(server.rows);
    }
  }
}
