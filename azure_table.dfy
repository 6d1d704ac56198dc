/** `AzureTable`: a connection string built from the credential, entity
    upserts and deletes that go either to a single-entity call or to one
    transaction, and queries guarded by argument checks. A table is modelled
    by its entities keyed by (PartitionKey, RowKey). */
module AzureConnector {
  import opened PyObjects
  import Text

  const Protocol := "DefaultEndpointsProtocol=https"
  const Suffix := "EndpointSuffix=core.windows.net"

  const NoTableName := "Please set your table name"
  const NoEntity := "Please set your entity"
  const NoSelect := "Please set your select statement"
  const NoParameters := "Please set your parameters"
  const NoFilter := "Please set your filter statement"
  const UpdateError := "Error while updating entity: "
  const DeleteError := "Error while deleting entity: "
  const OtherError := "Error: "
  /** The service's answer for an entity operation on a missing table. */
  const TableNotFound := "The table specified does not exist."
  /** `await` on the pager `query_entities` returns, which is not awaitable. */
  const NotAwaitable := "object AsyncItemPaged can't be used in 'await' expression"
  /** The client's refusal of a batch whose entities lie in more than one
      partition, raised while the transaction is assembled. */
  const MixedPartitions := "Partition Keys must all be the same"
  /** Indexing a list entity by a property name. */
  const ListEntity := "list indices must be integers or slices, not str"
  /** The options the batch formatter adds to upserts and updates. */
  const MergeOption: Row := [("mode", Str("merge"))]

  /** `f"{conn_medium_.get(key)}"`: the value as `str` prints it, "None" when absent. */
  function Field(medium: Row, key: string): string
  {
    match Get(medium, key)
    case None => "None"
    case Some(v) => PyStr(v)
  }

  /** `self.connection_string`. */
  function ConnectionString(medium: Row): string
  {
    Protocol + ";" + "AccountName=" + Field(medium, "storage name") + ";"
    + "AccountKey=" + Field(medium, "account key") + ";" + Suffix
  }

  /** Split on `;`, the connection string gives back its four settings, the
      account name and key among them, as long as neither holds a `;`. */
  lemma ConnectionStringParts(medium: Row)
    requires ';' !in Field(medium, "storage name") && ';' !in Field(medium, "account key")
    ensures Text.SplitOn(ConnectionString(medium), ';')
            == [Protocol, "AccountName=" + Field(medium, "storage name"),
                "AccountKey=" + Field(medium, "account key"), Suffix]
  {
    var name, key := Field(medium, "storage name"), Field(medium, "account key");
    var parts := [Protocol, "AccountName=" + name, "AccountKey=" + key, Suffix];
    SettingsHaveNoSemicolon(name, key);
    JoinFour(parts[0], parts[1], parts[2], parts[3]);
    assert parts == [parts[0], parts[1], parts[2], parts[3]];
    assert Text.Join([';'], parts) == ConnectionString(medium);
    Text.SplitOnJoin(parts, ';');
  }

  /** The four settings hold no `;` when the name and the key hold none. */
  lemma SettingsHaveNoSemicolon(name: string, key: string)
    requires ';' !in name && ';' !in key
    ensures ';' !in Protocol && ';' !in Suffix
    ensures ';' !in "AccountName=" + name && ';' !in "AccountKey=" + key
  {
    assert forall i :: 0 <= i < |Protocol| ==> Protocol[i] != ';';
    assert forall i :: 0 <= i < |Suffix| ==> Suffix[i] != ';';
    assert forall i :: 0 <= i < |"AccountName="| ==> "AccountName="[i] != ';';
    assert forall i :: 0 <= i < |"AccountKey="| ==> "AccountKey="[i] != ';';
  }

  /** Joining four settings with `;`. */
  lemma JoinFour(a: string, b: string, c: string, d: string)
    ensures Text.Join([';'], [a, b, c, d]) == a + ";" + b + ";" + c + ";" + d
  {
    assert [c, d][1..] == [d];
    assert Text.Join([';'], [c, d]) == c + ";" + d;
    assert [b, c, d][1..] == [c, d];
    assert Text.Join([';'], [b, c, d]) == b + ";" + (c + ";" + d);
    assert [a, b, c, d][1..] == [b, c, d];
    assert Text.Join([';'], [a, b, c, d]) == a + ";" + (b + ";" + (c + ";" + d));
  }

  /** One tuple of a transaction: `(ctype, entity)` or `(ctype, entity, options)`. */
  datatype BatchOp = BatchOp(ctype: string, entity: Obj, options: Option<Row>)

  /** `_format_batch_operation(entities, ctype)`. */
  function FormatBatchOperation(entities: seq<Obj>, ctype: string): (ops: seq<BatchOp>)
    ensures |ops| == |entities|
    ensures forall i :: 0 <= i < |entities| ==>
              ops[i].ctype == ctype && ops[i].entity == entities[i]
              && (ops[i].options.Some? <==> ctype == "upsert" || ctype == "update")
              && (ops[i].options.Some? ==> ops[i].options.value == MergeOption)
  {
    seq(|entities|, i requires 0 <= i < |entities| =>
      if ctype == "upsert" || ctype == "update" then BatchOp(ctype, entities[i], Some(MergeOption))
      else BatchOp(ctype, entities[i], None))
  }

  /** An entity's identity. */
  type Key = (Value, Value)
  type Table = map<Key, Row>

  /** `entity["PartitionKey"]`, `entity["RowKey"]`, as the client reads them
      before sending anything. */
  function KeyOf(e: Obj): (r: Result<Key>)
    ensures r.Ok? <==> e.Dict? && Get(e.row, "PartitionKey").Some? && Get(e.row, "RowKey").Some?
    ensures r.Ok? ==> r.value == (Get(e.row, "PartitionKey").value, Get(e.row, "RowKey").value)
  {
    match e
    case Dict(row) =>
      if Get(row, "PartitionKey").None? then Err(KeyError("'PartitionKey'"))
      else if Get(row, "RowKey").None? then Err(KeyError("'RowKey'"))
      else Ok((Get(row, "PartitionKey").value, Get(row, "RowKey").value))
    case List(_) => Err(TypeError(ListEntity))
    case Scalar(v) => Err(TypeError("'" + TypeName(e) + "' object is not subscriptable"))
  }

  /** The properties of `row` that `e` does not set. */
  function Untouched(row: Row, e: Row): (r: Row)
    ensures forall i :: 0 <= i < |r| ==> Get(e, r[i].0).None?
    ensures forall k :: Get(e, k).None? ==> Get(r, k) == Get(row, k)
    decreases |row|
  {
    if row == [] then []
    else if Get(e, row[0].0).Some? then Untouched(row[1..], e)
    else [row[0]] + Untouched(row[1..], e)
  }

  /** An upsert in MERGE mode: the stored entity keeps the properties the
      new one does not set. */
  function Overlay(stored: Option<Row>, e: Row): Row
  {
    match stored
    case None => e
    case Some(row) => e + Untouched(row, e)
  }

  lemma {:induction false} GetConcat(a: Row, b: Row, k: string)
    ensures Get(a + b, k) == if Get(a, k).Some? then Get(a, k) else Get(b, k)
    decreases |a|
  {
    if a != [] {
      assert (a + b)[0] == a[0];
      assert (a + b)[1..] == a[1..] + b;
      GetConcat(a[1..], b, k);
    } else {
      assert a + b == b;
    }
  }

  /** A property of the merged entity comes from the new entity when it sets
      it, and from the stored one otherwise. */
  lemma OverlayGet(stored: Option<Row>, e: Row, k: string)
    ensures Get(Overlay(stored, e), k)
            == if Get(e, k).Some? || stored.None? then Get(e, k) else Get(stored.value, k)
  {
    if stored.Some? {
      GetConcat(e, Untouched(stored.value, e), k);
    }
  }

  /** What the table service does with one request. */
  datatype Outcome = Done(table: Table) | ClientError(error: Error) | Rejected(message: string)

  /** `upsert_entity(mode=MERGE, entity=e)`. */
  function UpsertOne(t: Table, e: Obj): (r: Outcome)
    ensures r.Done? <==> KeyOf(e).Ok?
    ensures r.Done? ==> r.table == t[KeyOf(e).value := Overlay(if KeyOf(e).value in t then Some(t[KeyOf(e).value]) else None, e.row)]
  {
    match KeyOf(e)
    case Err(err) => ClientError(err)
    case Ok(k) => Done(t[k := Overlay(if k in t then Some(t[k]) else None, e.row)])
  }

  /** `delete_entity(entity=e)`; a missing entity is not an error. */
  function DeleteOne(t: Table, e: Obj): (r: Outcome)
    ensures r.Done? <==> KeyOf(e).Ok?
    ensures r.Done? ==> r.table == t - {KeyOf(e).value} && KeyOf(e).value !in r.table
  {
    match KeyOf(e)
    case Err(err) => ClientError(err)
    case Ok(k) => Done(t - {k})
  }

  /** One entity of a batch, read as the client adds it to the transaction:
      its PartitionKey, which must be the one of the first entity, then its
      RowKey. */
  function EntryOf(e: Obj, first: Option<Value>): (r: Result<(Key, Row)>)
    ensures r.Ok? <==> KeyOf(e).Ok? && (first.Some? ==> KeyOf(e).value.0 == first.value)
    ensures r.Ok? ==> r.value == (KeyOf(e).value, e.row)
    ensures KeyOf(e).Ok? && r.Err? ==> r.error == ValueError(MixedPartitions)
  {
    if e.Dict? && Get(e.row, "PartitionKey").Some? && first.Some? && Get(e.row, "PartitionKey").value != first.value
    then Err(ValueError(MixedPartitions))
    else
      var k :- KeyOf(e);
      Ok((k, e.row))
  }

  /** The entries of a batch whose partition, once known, is `first`. */
  function BatchEntriesFrom(ops: seq<BatchOp>, first: Option<Value>): Result<seq<(Key, Row)>>
    decreases |ops|
  {
    if ops == [] then Ok([])
    else
      var entry :- EntryOf(ops[0].entity, first);
      var rest :- BatchEntriesFrom(ops[1..], Some(entry.0.0));
      Ok([entry] + rest)
  }

  /** The key and properties of every entity of a batch, or the error the
      client raises at the first entity it cannot add. */
  function BatchEntries(ops: seq<BatchOp>): Result<seq<(Key, Row)>>
  {
    BatchEntriesFrom(ops, None)
  }

  /** Every entity of the batch has both keys, and all share one partition. */
  ghost predicate OnePartition(ops: seq<BatchOp>)
  {
    && (forall i :: 0 <= i < |ops| ==> KeyOf(ops[i].entity).Ok?)
    && (forall i :: 0 <= i < |ops| ==> KeyOf(ops[i].entity).value.0 == KeyOf(ops[0].entity).value.0)
  }

  lemma {:induction false} BatchEntriesFromMeans(ops: seq<BatchOp>, first: Option<Value>)
    ensures BatchEntriesFrom(ops, first).Ok? <==>
              OnePartition(ops) && (first.Some? && ops != [] ==> KeyOf(ops[0].entity).value.0 == first.value)
    ensures BatchEntriesFrom(ops, first).Ok? ==>
              |BatchEntriesFrom(ops, first).value| == |ops|
              && forall i :: 0 <= i < |ops| ==>
                   BatchEntriesFrom(ops, first).value[i] == (KeyOf(ops[i].entity).value, ops[i].entity.row)
    decreases |ops|
  {
    if ops != [] {
      assert forall i :: 1 <= i < |ops| ==> ops[1..][i - 1] == ops[i];
      var entry := EntryOf(ops[0].entity, first);
      if entry.Ok? {
        BatchEntriesFromMeans(ops[1..], Some(entry.value.0.0));
      }
    }
  }

  lemma BatchEntriesMeans(ops: seq<BatchOp>)
    ensures BatchEntries(ops).Ok? <==> OnePartition(ops)
    ensures BatchEntries(ops).Ok? ==>
              |BatchEntries(ops).value| == |ops|
              && forall i :: 0 <= i < |ops| ==>
                   BatchEntries(ops).value[i] == (KeyOf(ops[i].entity).value, ops[i].entity.row)
  {
    BatchEntriesFromMeans(ops, None);
  }

  /** When every entity has both keys, the only error the client can raise
      while assembling the batch is the mixed-partition one. */
  lemma {:induction false} KeyedBatchError(ops: seq<BatchOp>, first: Option<Value>)
    ensures (forall i :: 0 <= i < |ops| ==> KeyOf(ops[i].entity).Ok?) && BatchEntriesFrom(ops, first).Err? ==>
              BatchEntriesFrom(ops, first).error == ValueError(MixedPartitions)
    decreases |ops|
  {
    if ops != [] {
      assert forall i :: 1 <= i < |ops| ==> ops[1..][i - 1] == ops[i];
      var entry := EntryOf(ops[0].entity, first);
      if entry.Ok? {
        KeyedBatchError(ops[1..], Some(entry.value.0.0));
      }
    }
  }

  /** A formatted batch carries every entity's key and properties, in the
      order of the list, exactly when every entity has both keys and all
      share the first entity's partition. */
  lemma FormattedBatchEntries(entities: seq<Obj>, ctype: string)
    ensures BatchEntries(FormatBatchOperation(entities, ctype)).Ok?
            <==> (forall i :: 0 <= i < |entities| ==> KeyOf(entities[i]).Ok?)
                 && forall i :: 0 <= i < |entities| ==> KeyOf(entities[i]).value.0 == KeyOf(entities[0]).value.0
    ensures BatchEntries(FormatBatchOperation(entities, ctype)).Ok? ==>
              var entries := BatchEntries(FormatBatchOperation(entities, ctype)).value;
              |entries| == |entities|
              && forall i :: 0 <= i < |entities| ==> entries[i] == (KeyOf(entities[i]).value, entities[i].row)
  {
    BatchEntriesMeans(FormatBatchOperation(entities, ctype));
  }

  /** The service's rules for one transaction: 1 to 100 operations, no
      entity twice, and deletes only of stored entities. (The client has
      already checked that all lie in one partition.) */
  predicate Accepted(t: Table, ctype: string, entries: seq<(Key, Row)>)
  {
    && 1 <= |entries| <= 100
    && (forall i, j :: 0 <= i < j < |entries| ==> entries[i].0 != entries[j].0)
    && (ctype == "delete" ==> forall i :: 0 <= i < |entries| ==> entries[i].0 in t)
  }

  /** Running the operations of an accepted transaction one after the other. */
  function ApplyAll(t: Table, ctype: string, entries: seq<(Key, Row)>): Table
    decreases |entries|
  {
    if entries == [] then t
    else
      var (k, row) := entries[0];
      var t1 := if ctype == "delete" then t - {k}
                else t[k := Overlay(if k in t then Some(t[k]) else None, row)];
      ApplyAll(t1, ctype, entries[1..])
  }

  /** `submit_transaction(ops)`: all of it or none of it. An entity without
      its keys, or outside the first entity's partition, stops the client
      before sending; a batch the service refuses leaves the table as it
      was. */
  function Transact(t: Table, ctype: string, ops: seq<BatchOp>, rejection: string): (r: Outcome)
    ensures r.Done? <==> BatchEntries(ops).Ok? && Accepted(t, ctype, BatchEntries(ops).value)
    ensures r.Done? ==> r.table == ApplyAll(t, ctype, BatchEntries(ops).value)
    ensures r.ClientError? <==> !OnePartition(ops)
  {
    BatchEntriesMeans(ops);
    match BatchEntries(ops)
    case Err(e) => ClientError(e)
    case Ok(entries) =>
      if Accepted(t, ctype, entries) then Done(ApplyAll(t, ctype, entries)) else Rejected(rejection)
  }

  /** After an accepted upsert batch, every entity of the batch is stored
      under its key, merged with what was stored, and every other entity is
      as it was. */
  lemma {:induction false} ApplyAllUpserts(t: Table, entries: seq<(Key, Row)>)
    requires forall i, j :: 0 <= i < j < |entries| ==> entries[i].0 != entries[j].0
    ensures forall i :: 0 <= i < |entries| ==>
              var k := entries[i].0;
              k in ApplyAll(t, "upsert", entries)
              && ApplyAll(t, "upsert", entries)[k] == Overlay(if k in t then Some(t[k]) else None, entries[i].1)
    ensures forall k :: (forall i :: 0 <= i < |entries| ==> entries[i].0 != k) ==>
              (k in ApplyAll(t, "upsert", entries) <==> k in t)
              && (k in t ==> ApplyAll(t, "upsert", entries)[k] == t[k])
    decreases |entries|
  {
    if entries != [] {
      var (k, row) := entries[0];
      var t1 := t[k := Overlay(if k in t then Some(t[k]) else None, row)];
      assert forall i :: 1 <= i < |entries| ==> entries[1..][i - 1] == entries[i];
      ApplyAllUpserts(t1, entries[1..]);
    }
  }

  /** After an accepted delete batch, exactly the batch's entities are gone. */
  lemma {:induction false} ApplyAllDeletes(t: Table, entries: seq<(Key, Row)>)
    ensures forall k :: k in ApplyAll(t, "delete", entries)
                        <==> k in t && forall i :: 0 <= i < |entries| ==> entries[i].0 != k
    ensures forall k :: k in ApplyAll(t, "delete", entries) ==> ApplyAll(t, "delete", entries)[k] == t[k]
    decreases |entries|
  {
    if entries != [] {
      ApplyAllDeletes(t - {entries[0].0}, entries[1..]);
      assert forall i :: 1 <= i < |entries| ==> entries[1..][i - 1] == entries[i];
    }
  }

  /** Which call an entity argument goes to. */
  datatype Route = Single(target: Obj) | Batch(ops: seq<BatchOp>)

  /** The routing as the source writes it: a one-element list goes to the
      single-entity call as the list itself. */
  function PlanAsWritten(entity: Obj, ctype: string): Route
    requires entity.List? || entity.Dict?
  {
    if entity.Dict? || |entity.items| == 1 then Single(entity)
    else Batch(FormatBatchOperation(entity.items, ctype))
  }

  /** The routing as intended: a one-element list goes to the single-entity
      call as its element. */
  function Plan(entity: Obj, ctype: string): (p: Route)
    requires entity.List? || entity.Dict?
    ensures entity.Dict? ==> p == Single(entity)
    ensures entity.List? && |entity.items| == 1 ==> p == Single(entity.items[0])
    ensures entity.List? && |entity.items| != 1 ==> p == Batch(FormatBatchOperation(entity.items, ctype))
  {
    if entity.Dict? then Single(entity)
    else if |entity.items| == 1 then Single(entity.items[0])
    else Batch(FormatBatchOperation(entity.items, ctype))
  }

  /** As written, a one-element list never reaches the table: the single
      call cannot read the list's keys and raises before sending (the SDK's
      own message differs between the upsert and the delete call). */
  lemma OneElementListFails(t: Table, d: Row)
    ensures PlanAsWritten(List([Dict(d)]), "upsert") == Single(List([Dict(d)]))
    ensures UpsertOne(t, List([Dict(d)])) == ClientError(TypeError(ListEntity))
    ensures DeleteOne(t, List([Dict(d)])) == ClientError(TypeError(ListEntity))
  {
  }

  /** As intended, a one-element list does exactly what its element alone does. */
  lemma OneElementListIsItsElement(d: Row, ctype: string)
    ensures Plan(List([Dict(d)]), ctype) == Plan(Dict(d), ctype)
  {
  }

  /** The call an entity argument leads to, on a table that exists. */
  function Attempt(t: Table, entity: Obj, ctype: string, rejection: string): Outcome
    requires entity.List? || entity.Dict?
  {
    match Plan(entity, ctype)
    case Single(e) => if ctype == "delete" then DeleteOne(t, e) else UpsertOne(t, e)
    case Batch(ops) => Transact(t, ctype, ops, rejection)
  }

  /** The error the client raises while reading the keys of what it is about
      to send, if any; nothing is sent then. */
  function KeysRead(p: Route): (r: Option<Error>)
    ensures p.Single? ==> (r.None? <==> KeyOf(p.target).Ok?)
    ensures p.Batch? ==> (r.None? <==> OnePartition(p.ops))
    ensures p.Batch? && (forall i :: 0 <= i < |p.ops| ==> KeyOf(p.ops[i].entity).Ok?) && r.Some? ==>
              r.value == ValueError(MixedPartitions)
  {
    match p
    case Single(e) => if KeyOf(e).Err? then Some(KeyOf(e).error) else None
    case Batch(ops) =>
      BatchEntriesMeans(ops);
      KeyedBatchError(ops, None);
      if BatchEntries(ops).Err? then Some(BatchEntries(ops).error) else None
  }

  /** What the service meets during one call: a failure of a request that
      is sent (connection, authentication) and the message it gives when
      it refuses a transaction. */
  datatype TableService = TableService(outage: Option<string>, rejection: string)

  /** What `insert_entity` (`ctype` "upsert") or `delete_entity` ("delete")
      returns, and the tables afterwards. The two argument checks come
      first; the client then reads the keys; a request that is sent may meet
      an outage; on a missing table the service answers 404, which
      `delete_entity` ignores like any 404, `upsert_entity` raises as a
      plain error, and a transaction reports as a failed transaction.
      `prefix` reports a failed transaction and `other` any other error. */
  function SubmitOutcome(tables: map<string, Table>, tableName: string, entity: Obj, ctype: string,
                         service: TableService, prefix: string, other: string): (Result<()>, map<string, Table>)
  {
    if tableName == "" then (Err(AssertionError(NoTableName)), tables)
    else if !(entity.List? || entity.Dict?) then (Err(AssertionError(NoEntity)), tables)
    else if KeysRead(Plan(entity, ctype)).Some? then
      (Err(RuntimeError(other + Message(KeysRead(Plan(entity, ctype)).value))), tables)
    else if service.outage.Some? then (Err(RuntimeError(other + service.outage.value)), tables)
    else if tableName !in tables then
      if ctype == "delete" && Plan(entity, ctype).Single? then (Ok(()), tables)
      else if Plan(entity, ctype).Batch? then (Err(RuntimeError(prefix + TableNotFound)), tables)
      else (Err(RuntimeError(other + TableNotFound)), tables)
    else
      match Attempt(tables[tableName], entity, ctype, service.rejection)
      case Done(t1) => (Ok(()), tables[tableName := t1])
      case ClientError(e) => (Err(RuntimeError(other + Message(e))), tables)
      case Rejected(m) => (Err(RuntimeError(prefix + m)), tables)
  }

  /** A call succeeds exactly when the arguments pass, the client can read
      every key (and, for a batch, finds one partition), the service is reachable and, on an existing table, the operation or
      transaction goes through; on a missing table only a single delete
      succeeds, and changes nothing. A failure leaves every table as it
      was, and once the arguments pass it is a `RuntimeError` behind one of
      the two prefixes. */
  lemma SubmitOutcomeMeans(tables: map<string, Table>, tableName: string, entity: Obj, ctype: string,
                           service: TableService, prefix: string, other: string)
    ensures var (r, after) := SubmitOutcome(tables, tableName, entity, ctype, service, prefix, other);
            (r.Ok? <==> tableName != "" && (entity.List? || entity.Dict?)
                        && Readable(Plan(entity, ctype))
                        && service.outage.None?
                        && if tableName in tables
                           then Attempt(tables[tableName], entity, ctype, service.rejection).Done?
                           else ctype == "delete" && Plan(entity, ctype).Single?)
            && (r.Err? ==> after == tables)
            && (r.Ok? && tableName in tables ==>
                  after == tables[tableName := Attempt(tables[tableName], entity, ctype, service.rejection).table])
            && (r.Ok? && tableName !in tables ==> after == tables)
            && (r.Err? && tableName != "" && (entity.List? || entity.Dict?) ==>
                  r.error.RuntimeError?
                  && exists m :: r.error.message == prefix + m || r.error.message == other + m)
  {
  }

  /** What the client needs to send a route: the single entity's keys, or
      a batch in one partition with all its keys. */
  ghost predicate Readable(p: Route)
  {
    match p
    case Single(e) => KeyOf(e).Ok?
    case Batch(ops) => OnePartition(ops)
  }

  /** On a missing table, with the keys readable and the service reachable:
      a transaction fails behind the transaction prefix, a single upsert
      behind the generic one, and a single delete succeeds. Nothing changes. */
  lemma MissingTableOutcome(tables: map<string, Table>, tableName: string, entity: Obj, ctype: string,
                            service: TableService, prefix: string, other: string)
    requires tableName != "" && tableName !in tables && (entity.List? || entity.Dict?)
    requires Readable(Plan(entity, ctype)) && service.outage.None?
    ensures SubmitOutcome(tables, tableName, entity, ctype, service, prefix, other).1 == tables
    ensures Plan(entity, ctype).Batch? ==>
              SubmitOutcome(tables, tableName, entity, ctype, service, prefix, other).0
              == Err(RuntimeError(prefix + TableNotFound))
    ensures Plan(entity, ctype).Single? && ctype != "delete" ==>
              SubmitOutcome(tables, tableName, entity, ctype, service, prefix, other).0
              == Err(RuntimeError(other + TableNotFound))
    ensures Plan(entity, ctype).Single? && ctype == "delete" ==>
              SubmitOutcome(tables, tableName, entity, ctype, service, prefix, other).0 == Ok(())
  {
  }

  /** A batch whose entities carry their keys but lie in two partitions is
      refused by the client, before anything is sent: the result is the
      same whatever the service's state and whether the table exists. */
  lemma MixedPartitionsFailInClient(tables: map<string, Table>, tableName: string, entities: seq<Obj>, ctype: string,
                                    service: TableService, prefix: string, other: string, j: nat)
    requires tableName != "" && |entities| >= 2
    requires forall i :: 0 <= i < |entities| ==> KeyOf(entities[i]).Ok?
    requires j < |entities| && KeyOf(entities[j]).value.0 != KeyOf(entities[0]).value.0
    ensures SubmitOutcome(tables, tableName, List(entities), ctype, service, prefix, other)
            == (Err(RuntimeError(other + MixedPartitions)), tables)
  {
  }

  /** What `query_entities` hands back: a pager over the matching entities,
      not yet read. */
  datatype Pager = Pager(tableName: string, nameFilter: string, select: Obj, parameters: Obj)

  /** The four argument checks of `query_entity`, in the source's order. */
  function QueryChecks(select: Obj, parameters: Obj, nameFilter: string, tableName: string): Option<Error>
  {
    if tableName == "" then Some(AssertionError(NoTableName))
    else if !Truthy(select) then Some(AssertionError(NoSelect))
    else if !Truthy(parameters) then Some(AssertionError(NoParameters))
    else if nameFilter == "" then Some(AssertionError(NoFilter))
    else None
  }

  /** `query_entity` as intended: once the arguments pass, the pager over
      the matching entities. Building it sends nothing. */
  function QueryPager(select: Obj, parameters: Obj, nameFilter: string, tableName: string): (r: Result<Pager>)
    ensures r.Ok? <==> tableName != "" && Truthy(select) && Truthy(parameters) && nameFilter != ""
    ensures tableName == "" ==> r == Err(AssertionError(NoTableName))
    ensures tableName != "" && !Truthy(select) ==> r == Err(AssertionError(NoSelect))
    ensures tableName != "" && Truthy(select) && !Truthy(parameters) ==> r == Err(AssertionError(NoParameters))
    ensures tableName != "" && Truthy(select) && Truthy(parameters) && nameFilter == ""
            ==> r == Err(AssertionError(NoFilter))
    ensures r.Ok? ==> r.value.tableName == tableName && r.value.nameFilter == nameFilter
                      && r.value.select == select && r.value.parameters == parameters
  {
    match QueryChecks(select, parameters, nameFilter, tableName)
    case Some(e) => Err(e)
    case None => Ok(Pager(tableName, nameFilter, select, parameters))
  }

  class AzureTable {
    const medium: Row
    const connectionString: string
    /** The storage account's tables. */
    var tables: map<string, Table>

    /** `AzureTable(conn_medium_)`. */
    constructor (medium: Row, tables: map<string, Table>)
      ensures this.medium == medium && this.tables == tables
      ensures connectionString == ConnectionString(medium)
    {
      this.medium := medium;
      this.tables := tables;
      connectionString := ConnectionString(medium);
    }

    /** The checks shared by `insert_entity` and `delete_entity`, then the
        call its plan names. */
    method Submit(entity: Obj, tableName: string, ctype: string, service: TableService,
                  prefix: string, other: string) returns (r: Result<()>)
      modifies this
      ensures r == SubmitOutcome(old(tables), tableName, entity, ctype, service, prefix, other).0
      ensures tables == SubmitOutcome(old(tables), tableName, entity, ctype, service, prefix, other).1
    {
      if tableName == "" {
        return Err(AssertionError(NoTableName));
      }
      if !(entity.List? || entity.Dict?) {
        return Err(AssertionError(NoEntity));
      }
      var unread := KeysRead(Plan(entity, ctype));
      if unread.Some? {
        return Err(RuntimeError(other + Message(unread.value)));
      }
      if service.outage.Some? {
        return Err(RuntimeError(other + service.outage.value));
      }
      if tableName !in tables {
        if ctype == "delete" && Plan(entity, ctype).Single? {
          return Ok(());
        }
        if Plan(entity, ctype).Batch? {
          return Err(RuntimeError(prefix + TableNotFound));
        }
        return Err(RuntimeError(other + TableNotFound));
      }
      match Attempt(tables[tableName], entity, ctype, service.rejection)
      case Done(t1) =>
        tables := tables[tableName := t1];
        r := Ok(());
      case ClientError(e) =>
        r := Err(RuntimeError(other + Message(e)));
      case Rejected(m) =>
        r := Err(RuntimeError(prefix + m));
    }

    /** `insert_entity(entity, table_name)`: upserts in MERGE mode; a refused
        transaction is reported behind `UpdateError`, anything else bare. */
    method InsertEntity(entity: Obj, tableName: string, service: TableService) returns (r: Result<()>)
      modifies this
      ensures r == SubmitOutcome(old(tables), tableName, entity, "upsert", service, UpdateError, "").0
      ensures tables == SubmitOutcome(old(tables), tableName, entity, "upsert", service, UpdateError, "").1
      ensures tableName == "" ==> r == Err(AssertionError(NoTableName))
      ensures tableName != "" && !(entity.List? || entity.Dict?) ==> r == Err(AssertionError(NoEntity))
      ensures r.Err? ==> tables == old(tables)
      ensures r.Ok? ==> tableName in old(tables) && service.outage.None?
      ensures r.Ok? && entity.Dict? ==>
        KeyOf(entity).Ok?
        && var t := old(tables)[tableName];
           var k := KeyOf(entity).value;
           tables == old(tables)[tableName := t[k := Overlay(if k in t then Some(t[k]) else None, entity.row)]]
      ensures r.Ok? && entity.List? && |entity.items| != 1 ==>
        var t := old(tables)[tableName];
        var ops := FormatBatchOperation(entity.items, "upsert");
        BatchEntries(ops).Ok? && Accepted(t, "upsert", BatchEntries(ops).value)
        && tables == old(tables)[tableName := ApplyAll(t, "upsert", BatchEntries(ops).value)]
    {
      r := Submit(entity, tableName, "upsert", service, UpdateError, "");
    }

    /** `delete_entity(entity, table_name)`: a refused transaction is
        reported behind `DeleteError`, anything else behind `OtherError`. */
    method DeleteEntity(entity: Obj, tableName: string, service: TableService) returns (r: Result<()>)
      modifies this
      ensures r == SubmitOutcome(old(tables), tableName, entity, "delete", service, DeleteError, OtherError).0
      ensures tables == SubmitOutcome(old(tables), tableName, entity, "delete", service, DeleteError, OtherError).1
      ensures tableName == "" ==> r == Err(AssertionError(NoTableName))
      ensures tableName != "" && !(entity.List? || entity.Dict?) ==> r == Err(AssertionError(NoEntity))
      ensures r.Err? ==> tables == old(tables)
      ensures r.Ok? ==> service.outage.None?
      ensures r.Ok? && tableName !in old(tables) ==> tables == old(tables)
      ensures r.Ok? && entity.Dict? && tableName in old(tables) ==>
        KeyOf(entity).Ok?
        && tables == old(tables)[tableName := old(tables)[tableName] - {KeyOf(entity).value}]
      ensures r.Ok? && entity.List? && |entity.items| != 1 ==>
        tableName in old(tables)
        && var t := old(tables)[tableName];
           var ops := FormatBatchOperation(entity.items, "delete");
           BatchEntries(ops).Ok? && Accepted(t, "delete", BatchEntries(ops).value)
           && tables == old(tables)[tableName := ApplyAll(t, "delete", BatchEntries(ops).value)]
    {
      r := Submit(entity, tableName, "delete", service, DeleteError, OtherError);
    }

    /** `query_entity(select, parameters, name_filter, table_name)` as
        written: the four arguments are checked in this order; then the
        pager `query_entities` returns is awaited, which raises `TypeError`,
        and the handler turns that into `RuntimeError`. */
    function QueryEntity(select: Obj, parameters: Obj, nameFilter: string, tableName: string): (r: Result<Pager>)
    {
      match QueryChecks(select, parameters, nameFilter, tableName)
      case Some(e) => Err(e)
      case None => Err(RuntimeError(NotAwaitable))
    }
  }

  /** As written, `query_entity` never returns entities: it fails exactly
      as the intended version does on bad arguments, and with the `await`
      error wherever the intended version hands back its pager. */
  lemma QueryEntityNeverReturns(a: AzureTable, select: Obj, parameters: Obj, nameFilter: string, tableName: string)
    ensures a.QueryEntity(select, parameters, nameFilter, tableName).Err?
    ensures QueryPager(select, parameters, nameFilter, tableName).Err? ==>
              a.QueryEntity(select, parameters, nameFilter, tableName) == QueryPager(select, parameters, nameFilter, tableName)
    ensures QueryPager(select, parameters, nameFilter, tableName).Ok? ==>
              a.QueryEntity(select, parameters, nameFilter, tableName) == Err(RuntimeError(NotAwaitable))
  {
  }

  /** Five entities, the third without a RowKey: the transaction fails in
      the client and none of the five is written. */
  lemma FiveEntitiesOneMalformed(t: Table, e1: Row, e2: Row, e3: Row, e4: Row, e5: Row)
    requires Get(e3, "PartitionKey").Some? && Get(e3, "RowKey").None?
    ensures Transact(t, "upsert", FormatBatchOperation([Dict(e1), Dict(e2), Dict(e3), Dict(e4), Dict(e5)], "upsert"), "")
            .ClientError?
  {
    var ops := FormatBatchOperation([Dict(e1), Dict(e2), Dict(e3), Dict(e4), Dict(e5)], "upsert");
    assert KeyOf(ops[2].entity).Err?;
  }
}
