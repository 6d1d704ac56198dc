/** `pooledDB`: projects a credential dictionary onto the settings of a
    DBUtils connection pool for MariaDB. The pool object itself belongs to
    DBUtils; the model returns the settings it would be built from. */
module PooledDb {
  import opened PyObjects

  /** `maxconnections` of every pool. */
  const MaxConnections: int := 5
  /** `ping=1`: DBUtils checks a connection whenever it is taken from the pool. */
  const PingWhenTaken: int := 1

  /** The keyword arguments of `PooledDB(creator=pymysql, ...)`; the creator
      is always the pymysql module and is left implicit. */
  datatype PoolSettings = PoolSettings(maxConnections: int, ping: int, credential: Row)

  predicate HasKey(r: Row, k: string)
  {
    Get(r, k).Some?
  }

  /** The six key names of a credential differ from one another. */
  lemma KeyNamesDistinct()
    ensures "host" != "user" && "host" != "password" && "host" != "port"
    ensures "user" != "password" && "user" != "port" && "password" != "port"
    ensures "database" !in ["host", "user", "password", "port"]
    ensures "autocommit" !in ["host", "user", "password", "port", "database"]
  {
    assert "host"[0] == 'h' && "user"[0] == 'u' && "password"[0] == 'p' && "port"[0] == 'p';
    assert "password"[1] == 'a' && "port"[1] == 'o';
    assert "database"[0] == 'd' && |"autocommit"| == 10;
  }

  /** Looking up each key of a credential literal built by `PooledDB`. */
  lemma CredentialLookups(c: Row, withDatabase: bool)
    requires |c| == if withDatabase then 6 else 5
    requires c[0].0 == "host" && c[1].0 == "user" && c[2].0 == "password" && c[3].0 == "port"
    requires c[|c| - 1] == ("autocommit", Bool(true))
    requires withDatabase ==> c[4].0 == "database"
    ensures Get(c, "host") == Some(c[0].1) && Get(c, "user") == Some(c[1].1)
    ensures Get(c, "password") == Some(c[2].1) && Get(c, "port") == Some(c[3].1)
    ensures Get(c, "autocommit") == Some(Bool(true))
    ensures withDatabase ==> Get(c, "database") == Some(c[4].1)
    ensures !withDatabase ==> Get(c, "database") == None
  {
    KeyNamesDistinct();
    GetAt(c, 0, "host");
    GetAt(c, 1, "user");
    GetAt(c, 2, "password");
    GetAt(c, 3, "port");
    GetAt(c, |c| - 1, "autocommit");
    if withDatabase {
      GetAt(c, 4, "database");
    } else {
      GetNone(c, "database");
    }
  }

  /** `pooledDB(dbargs)`: `None` when a required key is missing (the
      `KeyError` is caught and printed). */
  function PooledDB(dbargs: Row): (r: Option<PoolSettings>)
    ensures r.Some? <==> HasKey(dbargs, "host") && HasKey(dbargs, "user")
                         && HasKey(dbargs, "password") && HasKey(dbargs, "port")
    ensures r.Some? ==> r.value.maxConnections == MaxConnections && r.value.ping == PingWhenTaken
    ensures r.Some? ==> Get(r.value.credential, "host") == Get(dbargs, "host")
                        && Get(r.value.credential, "user") == Get(dbargs, "user")
                        && Get(r.value.credential, "password") == Get(dbargs, "password")
                        && Get(r.value.credential, "port") == Get(dbargs, "port")
    ensures r.Some? ==> Get(r.value.credential, "autocommit") == Some(Bool(true))
    ensures r.Some? ==> Get(r.value.credential, "database") == Get(dbargs, "database")
    ensures r.Some? ==> KeySet(r.value.credential)
                        == {"host", "user", "password", "port", "autocommit"}
                           + (if HasKey(dbargs, "database") then {"database"} else {})
  {
    var host, user, password, port := Get(dbargs, "host"), Get(dbargs, "user"),
                                      Get(dbargs, "password"), Get(dbargs, "port");
    if host.None? || user.None? || password.None? || port.None? then None
    else
      var credential :=
        if HasKey(dbargs, "database") then
          [("host", host.value), ("user", user.value), ("password", password.value),
           ("port", port.value), ("database", Get(dbargs, "database").value),
           ("autocommit", Bool(true))]
        else
          [("host", host.value), ("user", user.value), ("password", password.value),
           ("port", port.value), ("autocommit", Bool(true))];
      CredentialLookups(credential, HasKey(dbargs, "database"));
      assert KeySet(credential) == set i | 0 <= i < |credential| :: credential[i].0;
      Some(PoolSettings(MaxConnections, PingWhenTaken, credential))
  }
}
