/** The MongoDB side of `mongoConnect`: a collection as its documents in
    natural order, equality filters, and the ordered bulk writes that
    `insert_many` and `bulk_write` perform. */
module MongoStore {
  import opened PyObjects

  type Doc = Row
  type Collection = seq<Doc>
  /** Database name to collection name to documents. */
  type Databases = map<string, map<string, Collection>>

  /** `doc['_id']`; every stored document has one. */
  function IdOf(d: Doc): Value
  {
    match Get(d, "_id")
    case Some(v) => v
    case None => Null
  }

  function Ids(c: Collection): (ids: seq<Value>)
    ensures |ids| == |c|
    ensures forall i :: 0 <= i < |c| ==> ids[i] == IdOf(c[i])
  {
    seq(|c|, i requires 0 <= i < |c| => IdOf(c[i]))
  }

  /** No two documents share an `_id` (the collection's unique index). */
  predicate UniqueIds(c: Collection)
  {
    forall i, j :: 0 <= i < j < |c| ==> IdOf(c[i]) != IdOf(c[j])
  }

  /** The document stored under `id`, if any. */
  function Lookup(c: Collection, id: Value): Option<Doc>
    decreases |c|
  {
    if c == [] then None
    else if IdOf(c[0]) == id then Some(c[0])
    else Lookup(c[1..], id)
  }

  lemma {:induction false} LookupNone(c: Collection, id: Value)
    ensures Lookup(c, id).None? <==> id !in Ids(c)
    ensures Lookup(c, id).Some? ==> IdOf(Lookup(c, id).value) == id
    decreases |c|
  {
    if c != [] {
      LookupNone(c[1..], id);
      assert Ids(c) == [IdOf(c[0])] + Ids(c[1..]);
    }
  }

  lemma {:induction false} LookupAppend(c: Collection, d: Doc, id: Value)
    ensures Lookup(c + [d], id)
            == if Lookup(c, id).Some? then Lookup(c, id) else if IdOf(d) == id then Some(d) else None
    decreases |c|
  {
    if c != [] {
      assert (c + [d])[1..] == c[1..] + [d];
      LookupAppend(c[1..], d, id);
    } else {
      assert c + [d] == [d];
    }
  }

  /** `replace_one({"_id": id}, d)` on a present `id`. */
  function Replace(c: Collection, id: Value, d: Doc): (r: Collection)
    ensures |r| == |c|
    ensures forall i :: 0 <= i < |c| ==> r[i] == if IdOf(c[i]) == id then d else c[i]
  {
    seq(|c|, i requires 0 <= i < |c| => if IdOf(c[i]) == id then d else c[i])
  }

  lemma {:induction false} LookupReplace(c: Collection, id: Value, d: Doc, other: Value)
    requires IdOf(d) == id
    ensures Ids(Replace(c, id, d)) == Ids(c)
    ensures Lookup(Replace(c, id, d), other)
            == if other == id && Lookup(c, id).Some? then Some(d) else Lookup(c, other)
    decreases |c|
  {
    if c != [] {
      assert Replace(c, id, d)[1..] == Replace(c[1..], id, d);
      LookupReplace(c[1..], id, d, other);
    }
  }

  /** A request of `bulk_write`: `ReplaceOne({"_id": id}, doc, upsert=True)`
      or `InsertOne(doc)`. */
  datatype WriteOp = ReplaceOne(id: Value, doc: Doc) | InsertOne(doc: Doc)

  /** One request against the collection; `None` is a duplicate-key error. */
  function ApplyOp(c: Collection, op: WriteOp): Option<Collection>
  {
    match op
    case InsertOne(d) => if IdOf(d) in Ids(c) then None else Some(c + [d])
    case ReplaceOne(id, d) => if id in Ids(c) then Some(Replace(c, id, d)) else Some(c + [d])
  }

  /** An ordered bulk write: requests run in order and the first failure
      stops the batch, keeping what was written before it. The flag tells
      whether a `BulkWriteError` is raised. */
  function BulkWrite(c: Collection, ops: seq<WriteOp>): (Collection, bool)
    decreases |ops|
  {
    if ops == [] then (c, false)
    else
      match ApplyOp(c, ops[0])
      case None => (c, true)
      case Some(c1) => BulkWrite(c1, ops[1..])
  }

  function Inserts(docs: seq<Doc>): (ops: seq<WriteOp>)
    ensures |ops| == |docs|
    ensures forall i :: 0 <= i < |docs| ==> ops[i] == InsertOne(docs[i])
  {
    seq(|docs|, i requires 0 <= i < |docs| => InsertOne(docs[i]))
  }

  /** `insert_many(docs)` (ordered). */
  function InsertMany(c: Collection, docs: seq<Doc>): (Collection, bool)
  {
    BulkWrite(c, Inserts(docs))
  }

  /** The `_id` of a document is new to the collection and to the documents before it. */
  predicate Fresh(c: Collection, docs: seq<Doc>, k: nat)
    requires k < |docs|
  {
    IdOf(docs[k]) !in Ids(c) && forall j :: 0 <= j < k ==> IdOf(docs[j]) != IdOf(docs[k])
  }

  /** A document is fresh exactly when its `_id` is not yet stored once the
      documents before it are in. */
  lemma FreshMeans(c: Collection, docs: seq<Doc>, k: nat)
    requires k < |docs|
    ensures Fresh(c, docs, k) <==> IdOf(docs[k]) !in Ids(c + docs[..k])
  {
    assert Ids(c + docs[..k]) == Ids(c) + Ids(docs[..k]);
    if IdOf(docs[k]) in Ids(docs[..k]) {
      var j :| 0 <= j < k && Ids(docs[..k])[j] == IdOf(docs[k]);
      assert docs[..k][j] == docs[j];
    }
    assert forall j :: 0 <= j < k ==> Ids(docs[..k])[j] == IdOf(docs[j]);
  }

  /** Fresh documents at the head of the batch are simply appended. */
  lemma {:induction false} InsertManyFrom(c: Collection, docs: seq<Doc>, k: nat)
    requires k <= |docs|
    requires forall i :: 0 <= i < k ==> Fresh(c, docs, i)
    ensures InsertMany(c, docs) == InsertMany(c + docs[..k], docs[k..])
    decreases k
  {
    if k == 0 {
      assert c + docs[..0] == c && docs[0..] == docs;
    } else {
      InsertManyFrom(c, docs, k - 1);
      var c0 := c + docs[..k - 1];
      FreshMeans(c, docs, k - 1);
      assert Inserts(docs[k - 1..])[0] == InsertOne(docs[k - 1]);
      assert Inserts(docs[k - 1..])[1..] == Inserts(docs[k..]);
      assert c0 + [docs[k - 1]] == c + docs[..k];
    }
  }

  /** `insert_many` appends the documents before the first one whose `_id`
      is already stored or repeats an earlier one, and raises exactly when
      there is such a document. */
  lemma InsertManyOutcome(c: Collection, docs: seq<Doc>, k: nat)
    requires k <= |docs|
    requires forall i :: 0 <= i < k ==> Fresh(c, docs, i)
    requires k < |docs| ==> !Fresh(c, docs, k)
    ensures InsertMany(c, docs) == (c + docs[..k], k < |docs|)
  {
    InsertManyFrom(c, docs, k);
    if k < |docs| {
      FreshMeans(c, docs, k);
      assert Inserts(docs[k..])[0] == InsertOne(docs[k]);
    } else {
      assert docs[k..] == [];
      assert Inserts(docs[k..]) == [];
    }
  }

  /** No two documents of a batch share an `_id`. */
  predicate DistinctIds(docs: seq<Doc>)
  {
    forall i, j :: 0 <= i < j < |docs| ==> IdOf(docs[i]) != IdOf(docs[j])
  }

  /** `ReplaceOne` for a row whose `_id` was found, `InsertOne` otherwise. */
  function Classify(docs: seq<Doc>, found: set<Value>): (ops: seq<WriteOp>)
    ensures |ops| == |docs|
    ensures forall i :: 0 <= i < |docs| ==>
              ops[i] == if IdOf(docs[i]) in found then ReplaceOne(IdOf(docs[i]), docs[i]) else InsertOne(docs[i])
  {
    seq(|docs|, i requires 0 <= i < |docs| =>
      if IdOf(docs[i]) in found then ReplaceOne(IdOf(docs[i]), docs[i]) else InsertOne(docs[i]))
  }

  /** Writing classified rows of distinct `_id`s, where "found" means
      "already stored", never fails; afterwards each row is stored under its
      `_id` and every other `_id` keeps its document. */
  lemma {:induction false} ClassifiedWriteStoresRows(c: Collection, docs: seq<Doc>, found: set<Value>)
    requires UniqueIds(c) && DistinctIds(docs)
    requires forall i :: 0 <= i < |docs| ==> (IdOf(docs[i]) in found <==> IdOf(docs[i]) in Ids(c))
    ensures !BulkWrite(c, Classify(docs, found)).1
    ensures UniqueIds(BulkWrite(c, Classify(docs, found)).0)
    ensures forall i :: 0 <= i < |docs| ==> Lookup(BulkWrite(c, Classify(docs, found)).0, IdOf(docs[i])) == Some(docs[i])
    ensures forall id :: id !in Ids(docs) ==> Lookup(BulkWrite(c, Classify(docs, found)).0, id) == Lookup(c, id)
    decreases |docs|
  {
    if docs != [] {
      var d, rest := docs[0], docs[1..];
      var id := IdOf(d);
      assert Classify(docs, found)[1..] == Classify(rest, found);
      var c1 := ApplyStep(c, d, found);
      assert forall i :: 0 <= i < |rest| ==> rest[i] == docs[i + 1];
      forall i | 0 <= i < |rest| ensures IdOf(rest[i]) in found <==> IdOf(rest[i]) in Ids(c1) {
        LookupNone(c, IdOf(rest[i]));
        LookupNone(c1, IdOf(rest[i]));
      }
      ClassifiedWriteStoresRows(c1, rest, found);
      var r := BulkWrite(c1, Classify(rest, found)).0;
      assert id !in Ids(rest);
      forall other | other !in Ids(docs) ensures Lookup(r, other) == Lookup(c, other) {
        assert other != id && other !in Ids(rest) by {
          assert Ids(docs) == [id] + Ids(rest);
        }
      }
    }
  }

  function ApplyStep(c: Collection, d: Doc, found: set<Value>): (c1: Collection)
    requires UniqueIds(c) && (IdOf(d) in found <==> IdOf(d) in Ids(c))
    ensures ApplyOp(c, if IdOf(d) in found then ReplaceOne(IdOf(d), d) else InsertOne(d)) == Some(c1)
    ensures UniqueIds(c1)
    ensures Lookup(c1, IdOf(d)) == Some(d)
    ensures forall other :: other != IdOf(d) ==> Lookup(c1, other) == Lookup(c, other)
  {
    var id := IdOf(d);
    if id in found then
      var c1 := Replace(c, id, d);
      LookupReplaceAll(c, id, d);
      LookupNone(c, id);
      assert UniqueIds(c1) by {
        forall i, j | 0 <= i < j < |c1| ensures IdOf(c1[i]) != IdOf(c1[j]) {
          assert Ids(c1)[i] == Ids(c)[i] && Ids(c1)[j] == Ids(c)[j];
        }
      }
      c1
    else
      var c1 := c + [d];
      LookupAppendAll(c, d);
      LookupNone(c, id);
      assert UniqueIds(c1) by {
        forall i, j | 0 <= i < j < |c1| ensures IdOf(c1[i]) != IdOf(c1[j]) {
          if j == |c| {
            assert IdOf(c1[i]) == Ids(c)[i];
          }
        }
      }
      c1
  }

  lemma LookupReplaceAll(c: Collection, id: Value, d: Doc)
    requires IdOf(d) == id
    ensures Ids(Replace(c, id, d)) == Ids(c)
    ensures forall other :: Lookup(Replace(c, id, d), other)
                            == if other == id && Lookup(c, id).Some? then Some(d) else Lookup(c, other)
  {
    LookupReplace(c, id, d, id);
    forall other ensures Lookup(Replace(c, id, d), other)
                         == if other == id && Lookup(c, id).Some? then Some(d) else Lookup(c, other) {
      LookupReplace(c, id, d, other);
    }
  }

  lemma LookupAppendAll(c: Collection, d: Doc)
    ensures forall other :: Lookup(c + [d], other)
                            == if Lookup(c, other).Some? then Lookup(c, other) else if IdOf(d) == other then Some(d) else None
  {
    forall other ensures Lookup(c + [d], other)
                         == if Lookup(c, other).Some? then Lookup(c, other) else if IdOf(d) == other then Some(d) else None {
      LookupAppend(c, d, other);
    }
  }

  /** An equality filter: every key of the query holds its value in the document. */
  predicate Matches(d: Doc, query: Row)
  {
    forall i :: 0 <= i < |query| ==> Get(d, query[i].0) == Some(query[i].1)
  }

  /** `find(query)`: the matching documents in natural order. */
  function Filter(c: Collection, query: Row): (r: Collection)
    ensures |r| <= |c|
    ensures forall d :: d in r <==> d in c && Matches(d, query)
    decreases |c|
  {
    if c == [] then []
    else
      var rest := Filter(c[1..], query);
      assert forall d :: d in c <==> d == c[0] || d in c[1..];
      if Matches(c[0], query) then [c[0]] + rest else rest
  }

  /** `delete_many(query)`: what remains, in natural order. */
  function Without(c: Collection, query: Row): (r: Collection)
    ensures |r| <= |c|
    ensures forall d :: d in r <==> d in c && !Matches(d, query)
    decreases |c|
  {
    if c == [] then []
    else
      var rest := Without(c[1..], query);
      assert forall d :: d in c <==> d == c[0] || d in c[1..];
      if Matches(c[0], query) then rest else [c[0]] + rest
  }

  /** Deleting removes exactly what `find` would return: the two split the
      collection. */
  lemma {:induction false} FindDeletePartition(c: Collection, query: Row)
    ensures multiset(Filter(c, query)) + multiset(Without(c, query)) == multiset(c)
    decreases |c|
  {
    if c != [] {
      FindDeletePartition(c[1..], query);
      assert c == [c[0]] + c[1..];
    }
  }
  /** The documents whose `_id` is one of `ids` (`{'_id': {'$in': ids}}`), in natural order. */
  function WithIdIn(c: Collection, ids: seq<Value>): (r: Collection)
    ensures forall d :: d in r <==> d in c && IdOf(d) in ids
    decreases |c|
  {
    if c == [] then []
    else
      var rest := WithIdIn(c[1..], ids);
      assert forall d :: d in c <==> d == c[0] || d in c[1..];
      if IdOf(c[0]) in ids then [c[0]] + rest else rest
  }

  /** The first document of the batch, from `from` on, whose `_id` is
      already stored or repeats an earlier one; `|docs|` when there is none. */
  function FirstStale(c: Collection, docs: seq<Doc>, from: nat): (k: nat)
    requires from <= |docs|
    ensures from <= k <= |docs|
    ensures forall i :: from <= i < k ==> Fresh(c, docs, i)
    ensures k < |docs| ==> !Fresh(c, docs, k)
    decreases |docs| - from
  {
    if from == |docs| then from
    else if Fresh(c, docs, from) then FirstStale(c, docs, from + 1)
    else from
  }

  /** The `_id`s the merge handler finds again: those of the batch already
      in the collection, gathered from `find({'_id': {'$in': ids}})`. */
  function Found(c: Collection, docs: seq<Doc>): set<Value>
  {
    var h := WithIdIn(c, Ids(docs));
    set j | 0 <= j < |h| :: IdOf(h[j])
  }

  lemma FoundMeans(c: Collection, docs: seq<Doc>, id: Value)
    ensures id in Found(c, docs) <==> id in Ids(c) && id in Ids(docs)
  {
    var h := WithIdIn(c, Ids(docs));
    if id in Ids(c) && id in Ids(docs) {
      var i :| 0 <= i < |c| && Ids(c)[i] == id;
      assert c[i] in h;
      var j :| 0 <= j < |h| && h[j] == c[i];
      assert IdOf(h[j]) == id;
    }
    if id in Found(c, docs) {
      var j :| 0 <= j < |h| && IdOf(h[j]) == id;
      assert h[j] in c;
      var i :| 0 <= i < |c| && c[i] == h[j];
      assert Ids(c)[i] == id;
    }
  }

  /** `insert(rows, is_merge_mode=True)` on the server: an ordered
      `insert_many`, and when it stops at a duplicate, a `bulk_write` that
      replaces the rows found again and inserts the others. The flag tells
      whether an exception escapes. */
  function MergeInsert(c: Collection, docs: seq<Doc>): (Collection, bool)
  {
    var (c1, failed) := InsertMany(c, docs);
    if !failed then (c1, false)
    else BulkWrite(c1, Classify(docs, Found(c1, docs)))
  }

  /** Writing only fresh documents is what `insert_many` does. */
  lemma FreshBatchInserts(c: Collection, docs: seq<Doc>)
    requires forall i :: 0 <= i < |docs| ==> Fresh(c, docs, i)
    ensures InsertMany(c, docs) == (c + docs, false)
    ensures Classify(docs, {}) == Inserts(docs)
    ensures DistinctIds(docs)
    ensures forall i :: 0 <= i < |docs| ==> IdOf(docs[i]) !in Ids(c)
  {
    InsertManyOutcome(c, docs, |docs|);
    assert docs[..|docs|] == docs;
    forall i, j | 0 <= i < j < |docs| ensures IdOf(docs[i]) != IdOf(docs[j]) {
      assert Fresh(c, docs, j);
    }
    forall i | 0 <= i < |docs| ensures IdOf(docs[i]) !in Ids(c) {
      assert Fresh(c, docs, i);
    }
  }

  /** What the ordered `insert_many` leaves behind: the fresh documents
      before the first stale one, appended, with `_id`s still unique. */
  lemma InsertManyKeeps(c: Collection, docs: seq<Doc>, k: nat)
    requires UniqueIds(c) && k == FirstStale(c, docs, 0)
    ensures InsertMany(c, docs) == (c + docs[..k], k < |docs|)
    ensures UniqueIds(c + docs[..k])
    ensures forall i :: 0 <= i < k ==> Lookup(c + docs[..k], IdOf(docs[i])) == Some(docs[i])
    ensures forall id :: id !in Ids(docs) ==> Lookup(c + docs[..k], id) == Lookup(c, id)
  {
    var pre := docs[..k];
    forall i | 0 <= i < k ensures Fresh(c, pre, i) {
      assert Fresh(c, docs, i);
    }
    FreshBatchInserts(c, pre);
    ClassifiedWriteStoresRows(c, pre, {});
    InsertManyOutcome(c, docs, k);
  }

  /** The merge handler's `bulk_write` succeeds and stores every row. */
  lemma MergeHandlerStoresRows(c: Collection, docs: seq<Doc>)
    requires UniqueIds(c) && DistinctIds(docs)
    ensures !BulkWrite(c, Classify(docs, Found(c, docs))).1
    ensures UniqueIds(BulkWrite(c, Classify(docs, Found(c, docs))).0)
    ensures forall i :: 0 <= i < |docs| ==>
              Lookup(BulkWrite(c, Classify(docs, Found(c, docs))).0, IdOf(docs[i])) == Some(docs[i])
    ensures forall id :: id !in Ids(docs) ==>
              Lookup(BulkWrite(c, Classify(docs, Found(c, docs))).0, id) == Lookup(c, id)
  {
    var found := Found(c, docs);
    forall i | 0 <= i < |docs| ensures IdOf(docs[i]) in found <==> IdOf(docs[i]) in Ids(c) {
      FoundMeans(c, docs, IdOf(docs[i]));
      assert IdOf(docs[i]) == Ids(docs)[i];
    }
    ClassifiedWriteStoresRows(c, docs, found);
  }

  /** Merge mode, for a batch whose `_id`s are distinct, never raises; each
      row ends up stored under its `_id`, whether it was new, already there,
      or inserted by the `insert_many` that stopped; every other `_id` keeps
      its document, and `_id`s stay unique. */
  lemma MergeInsertStoresRows(c: Collection, docs: seq<Doc>)
    requires UniqueIds(c) && DistinctIds(docs)
    ensures !MergeInsert(c, docs).1
    ensures UniqueIds(MergeInsert(c, docs).0)
    ensures forall i :: 0 <= i < |docs| ==> Lookup(MergeInsert(c, docs).0, IdOf(docs[i])) == Some(docs[i])
    ensures forall id :: id !in Ids(docs) ==> Lookup(MergeInsert(c, docs).0, id) == Lookup(c, id)
  {
    var k := FirstStale(c, docs, 0);
    InsertManyKeeps(c, docs, k);
    var c1 := c + docs[..k];
    if k < |docs| {
      MergeHandlerStoresRows(c1, docs);
      assert MergeInsert(c, docs) == BulkWrite(c1, Classify(docs, Found(c1, docs)));
    } else {
      assert docs[..k] == docs;
      assert MergeInsert(c, docs) == (c1, false);
    }
  }

  /** The three-row case: the second row's `_id` is already stored, the
      others are new. `insert_many` stores the first row and stops; the
      handler then finds the first two `_id`s again, so `bulk_write`
      replaces two documents and inserts the third. */
  lemma ThreeRowMerge(c: Collection, r1: Doc, r2: Doc, r3: Doc)
    requires UniqueIds(c) && DistinctIds([r1, r2, r3])
    requires IdOf(r1) !in Ids(c) && IdOf(r2) in Ids(c) && IdOf(r3) !in Ids(c)
    ensures InsertMany(c, [r1, r2, r3]) == (c + [r1], true)
    ensures Classify([r1, r2, r3], Found(c + [r1], [r1, r2, r3]))
            == [ReplaceOne(IdOf(r1), r1), ReplaceOne(IdOf(r2), r2), InsertOne(r3)]
    ensures !MergeInsert(c, [r1, r2, r3]).1
  {
    var docs := [r1, r2, r3];
    assert Fresh(c, docs, 0) && !Fresh(c, docs, 1);
    InsertManyOutcome(c, docs, 1);
    assert docs[..1] == [r1];
    var c1 := c + [r1];
    assert Ids(c1) == Ids(c) + [IdOf(r1)];
    FoundMeans(c1, docs, IdOf(r1));
    FoundMeans(c1, docs, IdOf(r2));
    FoundMeans(c1, docs, IdOf(r3));
    assert Ids(docs) == [IdOf(r1), IdOf(r2), IdOf(r3)];
    MergeInsertStoresRows(c, docs);
  }
}
