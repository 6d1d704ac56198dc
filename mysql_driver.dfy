/** What both `mariaConnect` revisions see of pymysql and of the server:
    the connection medium, the connection object held in `conn_`, the
    server's answer to the next request, the calls made on the `DictCursor`,
    and the checks on the rows passed to `insert` and `merge`. */
module MysqlDriver {
  import opened PyObjects
  import opened Text
  import opened PercentFormat
  import opened SqlText
  import opened PooledDb

  /** `conn_medium_`: keyword arguments for `pymysql.connect`, a pool, or `None`. */
  datatype Medium = Credentials(kwargs: Row) | Pool(settings: PoolSettings) | NoMedium

  /** The connection object in `conn_`: whether its socket is open, and the
      `database` attribute last assigned to it. */
  datatype Link = Link(open: bool, database: Option<string>)

  /** The server's answer to the next statement. */
  datatype Reply = Rows(rows: seq<Row>) | Fails(message: string)

  /** What the server does during one call of the connector: whether a new
      connection would be refused (with the driver's message), how it
      answers the statement, and how the driver writes a value as an SQL
      literal. */
  datatype Server = Server(connectError: Option<string>, reply: Reply, literal: Value -> string)

  /** A request the server completed on the connector's cursor. */
  datatype CursorCall = Execute(sql: string) | ExecuteMany(sql: string, rows: seq<Row>) | FetchMany(size: int)

  /** `str(e)` of pymysql's `InterfaceError(0, "")`, raised by a statement
      sent over a closed connection. */
  const ClosedMessage: string := "(0, '')"

  /** A `pymysql.MySQLError` carrying the given message. */
  function MySqlError(message: string): Error
  {
    DriverError(message)
  }

  /** `conn_medium_.connection()` when pooled, `pymysql.connect(**conn_medium_)`
      otherwise: a refused connection raises `MySQLError`, a medium of the
      wrong kind fails before reaching the server. */
  function Connect(medium: Medium, pool: bool, server: Server): (r: Result<Link>)
    ensures r.Ok? ==> r.value == Link(true, None)
    ensures r.Ok? <==> server.connectError.None? && (if pool then medium.Pool? else medium.Credentials?)
    ensures r.Err? && r.error.DriverError? <==>
              server.connectError.Some? && (if pool then medium.Pool? else medium.Credentials?)
  {
    if pool then
      match medium
      case Pool(_) =>
        if server.connectError.Some? then Err(MySqlError(server.connectError.value)) else Ok(Link(true, None))
      case Credentials(_) => Err(AttributeError("'dict' object has no attribute 'connection'"))
      case NoMedium => Err(AttributeError("'NoneType' object has no attribute 'connection'"))
    else
      match medium
      case Credentials(_) =>
        if server.connectError.Some? then Err(MySqlError(server.connectError.value)) else Ok(Link(true, None))
      case Pool(_) => Err(TypeError("argument after ** must be a mapping, not PooledDB"))
      case NoMedium => Err(TypeError("argument after ** must be a mapping, not NoneType"))
  }

  /** A statement can reach the server over this connection. */
  predicate Usable(conn: Option<Link>)
  {
    conn.Some? && conn.value.open
  }

  /** `if database: self.conn_.database = database`, once `conn_` is known to exist. */
  function WithDatabase(conn: Option<Link>, database: Option<string>): (c: Option<Link>)
    ensures c.Some? <==> conn.Some?
    ensures c.Some? ==> c.value.open == conn.value.open
    ensures c.Some? ==> c.value.database == (if Given(database) then database else conn.value.database)
  {
    if Given(database) && conn.Some? then Some(conn.value.(database := database)) else conn
  }

  /** `if database: self.conn_.database = database` raises on a closed connector. */
  const NoDatabaseAttribute: string := "'NoneType' object has no attribute 'database'"

  /** `k` calls of `fetchmany(size=...)`. */
  function Fetches(size: int, k: nat): (r: seq<CursorCall>)
    ensures |r| == k
    ensures forall i :: 0 <= i < k ==> r[i] == FetchMany(size)
  {
    seq(k, i => FetchMany(size))
  }

  /** How many pages of `size` the `select` loop fetches from `n` rows: full
      pages while they last, then one short (possibly empty) page. */
  function Pages(n: nat, size: nat): nat
    requires 0 < size
    decreases n
  {
    if n < size then 1 else 1 + Pages(n - size, size)
  }

  /** The loop stops after the first page shorter than `size`: the rows
      fill every page before the last, and the last page is short. */
  lemma {:induction false} PagesBound(n: nat, size: nat)
    requires 0 < size
    ensures 1 <= Pages(n, size)
    ensures (Pages(n, size) - 1) * size <= n < Pages(n, size) * size
    decreases n
  {
    if n >= size {
      PagesBound(n - size, size);
      var k := Pages(n - size, size);
      assert (k + 1) * size == k * size + size;
      assert k * size == (k - 1) * size + size;
    }
  }

  /** The `DictCursor` returned by `fetchmany(size=...)` over `pending`. */
  function Page(pending: seq<Row>, size: nat): (p: seq<Row>)
    ensures |p| <= size && |p| <= |pending| && p == pending[..|p|]
    ensures |p| == size || p == pending
  {
    if size <= |pending| then pending[..size] else pending
  }

  /** `all(row.keys() == fields for row in rest)`: the first row that is not
      a dict raises `AttributeError`; the first mismatching key set stops the
      scan with `False`. */
  function KeysAgree(first: Row, rest: seq<Obj>): Result<bool>
    decreases |rest|
  {
    if rest == [] then Ok(true)
    else if !rest[0].Dict? then Err(AttributeError("'" + TypeName(rest[0]) + "' object has no attribute 'keys'"))
    else if KeySet(rest[0].row) != KeySet(first) then Ok(false)
    else KeysAgree(first, rest[1..])
  }

  /** Every item is a dict whose keys are those of `first`. */
  ghost predicate AllSameKeys(first: Row, items: seq<Obj>)
  {
    forall i :: 0 <= i < |items| ==> items[i].Dict? && KeySet(items[i].row) == KeySet(first)
  }

  /** The key check passes exactly when every row is a dict with the first
      row's key set. */
  lemma {:induction false} KeysAgreeMeans(first: Row, rest: seq<Obj>)
    ensures KeysAgree(first, rest) == Ok(true) <==> AllSameKeys(first, rest)
    decreases |rest|
  {
    if rest != [] {
      KeysAgreeMeans(first, rest[1..]);
      if AllSameKeys(first, rest) {
        assert AllSameKeys(first, rest[1..]) by {
          forall i | 0 <= i < |rest[1..]| ensures rest[1..][i].Dict? && KeySet(rest[1..][i].row) == KeySet(first) {
            assert rest[1..][i] == rest[i + 1];
          }
        }
      }
      if rest[0].Dict? && KeySet(rest[0].row) == KeySet(first) && AllSameKeys(first, rest[1..]) {
        forall i | 0 <= i < |rest| ensures rest[i].Dict? && KeySet(rest[i].row) == KeySet(first) {
          if i > 0 {
            assert rest[i] == rest[1..][i - 1];
          }
        }
      }
    }
  }

  /** The dicts themselves, as `executemany` receives them. */
  function RowsOf(items: seq<Obj>): (rows: seq<Row>)
    requires forall i :: 0 <= i < |items| ==> items[i].Dict?
    ensures |rows| == |items|
    ensures forall i :: 0 <= i < |items| ==> rows[i] == items[i].row
  {
    seq(|items|, i requires 0 <= i < |items| && items[i].Dict? => items[i].row)
  }

  /** The error raised while binding the rows to `template`, if any: rows
      are bound one after the other before anything reaches the server. */
  function BindError(template: string, rows: seq<Row>, literal: Value -> string): (r: Option<Error>)
    ensures r.None? <==> forall i :: 0 <= i < |rows| ==> Format(template, rows[i], literal).Ok?
    decreases |rows|
  {
    if rows == [] then None
    else if Format(template, rows[0], literal).Err? then Some(Format(template, rows[0], literal).error)
    else
      var later := BindError(template, rows[1..], literal);
      assert forall i :: 1 <= i < |rows| ==> rows[i] == rows[1..][i - 1];
      later
  }

  /** Rows that share the first row's keys bind to the current revision's
      statement built from those keys. */
  lemma SameKeysNoBindError(table: string, first: Row, rows: seq<Row>, after: string, literal: Value -> string)
    requires '%' !in table && '%' !in after && KeysOf(first) != [] && PlainKeys(KeysOf(first))
    requires forall i :: 0 <= i < |rows| ==> KeySet(rows[i]) == KeySet(first)
    ensures BindError(InsertIgnore(table, KeysOf(first), Pyformat) + after, rows, literal).None?
  {
    forall i | 0 <= i < |rows|
      ensures Format(InsertIgnore(table, KeysOf(first), Pyformat) + after, rows[i], literal).Ok?
    {
      SameKeysBind(first, rows[i]);
      StatementBinds(table, KeysOf(first), after, rows[i], literal);
    }
  }
}
