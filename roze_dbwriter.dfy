/**
 * The roze database writer: one ClickHouse writer per metrics table, and a
 * Put that sorts incoming documents into per-table buckets and forwards
 * every non-empty bucket to its table's writer.
 *
 * A document's table id is the result of its TableID method (not part of
 * this model): either a known table id or an error. The ClickHouse writers
 * are modelled by the documents queued to them and the number of Put calls.
 */
module RozeDbWriter {
  import opened Wrappers

  /* zerodoc metrics table ids (upstream values) */
  const VTAP_FLOW_PORT_1M: nat := 0
  const VTAP_FLOW_EDGE_PORT_1M: nat := 1
  const VTAP_FLOW_PORT_1S: nat := 2
  const VTAP_FLOW_EDGE_PORT_1S: nat := 3
  const VTAP_APP_PORT_1M: nat := 4
  const VTAP_APP_EDGE_PORT_1M: nat := 5
  const VTAP_APP_PORT_1S: nat := 6
  const VTAP_APP_EDGE_PORT_1S: nat := 7
  const VTAP_TABLE_ID_MAX: nat := 8

  type TableId = x: nat | x < VTAP_TABLE_ID_MAX

  /** A metering document: its TableID result and an opaque payload. */
  datatype Document = Document(tableID: Result<TableId>, payload: nat)

  /** An item handed to Put: a document, or something of another type. */
  datatype Item = Doc(doc: Document) | Other(description: string)

  datatype Engine = MergeTree | ReplicatedMergeTree

  /** The statistics counter name of a table's writer. */
  function CounterName(id: nat): string
  {
    if VTAP_FLOW_PORT_1S <= id <= VTAP_FLOW_EDGE_PORT_1S then "metrics_1s"
    else if VTAP_APP_PORT_1S <= id <= VTAP_APP_EDGE_PORT_1S then "app_1s"
    else if VTAP_APP_PORT_1M <= id <= VTAP_APP_EDGE_PORT_1M then "app_1m"
    else "metrics_1m"
  }

  /** Second-level flow tables count as metrics_1s, application tables as app_1s/app_1m, the rest as metrics_1m. */
  lemma CounterNames(id: TableId)
    ensures CounterName(id) == "metrics_1s" <==> id == VTAP_FLOW_PORT_1S || id == VTAP_FLOW_EDGE_PORT_1S
    ensures CounterName(id) == "app_1s" <==> id == VTAP_APP_PORT_1S || id == VTAP_APP_EDGE_PORT_1S
    ensures CounterName(id) == "app_1m" <==> id == VTAP_APP_PORT_1M || id == VTAP_APP_EDGE_PORT_1M
    ensures CounterName(id) == "metrics_1m" <==> id == VTAP_FLOW_PORT_1M || id == VTAP_FLOW_EDGE_PORT_1M
  {
  }

  /** The item is a document whose table id is known. */
  predicate Accepted(item: Item)
  {
    item.Doc? && item.doc.tableID.Ok?
  }

  /** The documents of `items` for table `id`, in input order. */
  function Bucket(items: seq<Item>, id: TableId): seq<Document>
  {
    if items == [] then []
    else
      var last := items[|items| - 1];
      Bucket(items[..|items| - 1], id) + (if Accepted(last) && last.doc.tableID.value == id then [last.doc] else [])
  }

  /** The number of accepted items. */
  function AcceptedCount(items: seq<Item>): nat
  {
    if items == [] then 0 else AcceptedCount(items[..|items| - 1]) + (if Accepted(items[|items| - 1]) then 1 else 0)
  }

  /** The total size of the buckets of tables 0 .. n-1. */
  function BucketSizes(items: seq<Item>, n: nat): nat
    requires n <= VTAP_TABLE_ID_MAX
  {
    if n == 0 then 0 else BucketSizes(items, n - 1) + |Bucket(items, n - 1)|
  }

  /** A document is in table `id`'s bucket iff it was handed to Put and its table id is `id`. */
  lemma {:induction false} BucketMembers(items: seq<Item>, id: TableId)
    ensures forall d :: d in Bucket(items, id) <==> Doc(d) in items && d.tableID == Ok(id)
  {
    if items != [] {
      var init := items[..|items| - 1];
      BucketMembers(init, id);
      assert items == init + [items[|items| - 1]];
    }
  }

  /** Buckets keep input order: bucketing distributes over concatenation. */
  lemma {:induction false} BucketAppend(items: seq<Item>, more: seq<Item>, id: TableId)
    ensures Bucket(items + more, id) == Bucket(items, id) + Bucket(more, id)
    decreases |more|
  {
    if more == [] {
      assert items + more == items;
    } else {
      var init := more[..|more| - 1];
      BucketAppend(items, init, id);
      assert (items + more)[..|items + more| - 1] == items + init;
    }
  }

  /** One more item grows only its own table's bucket total. */
  lemma {:induction false} BucketSizesSnoc(items: seq<Item>, x: Item, n: nat)
    requires n <= VTAP_TABLE_ID_MAX
    ensures BucketSizes(items + [x], n) == BucketSizes(items, n) +
      (if Accepted(x) && x.doc.tableID.value < n then 1 else 0)
  {
    assert (items + [x])[..|items + [x]| - 1] == items;
    if n > 0 {
      BucketSizesSnoc(items, x, n - 1);
    }
  }

  lemma {:induction false} BucketSizesEmpty(n: nat)
    requires n <= VTAP_TABLE_ID_MAX
    ensures BucketSizes([], n) == 0
  {
    if n > 0 {
      BucketSizesEmpty(n - 1);
    }
  }

  /** Every accepted document lands in exactly one bucket: the bucket sizes add up to the accepted count. */
  lemma {:induction false} BucketsPartition(items: seq<Item>)
    ensures BucketSizes(items, VTAP_TABLE_ID_MAX) == AcceptedCount(items)
  {
    if items != [] {
      var init := items[..|items| - 1];
      assert init + [items[|items| - 1]] == items;
      BucketsPartition(init);
      BucketSizesSnoc(init, items[|items| - 1], VTAP_TABLE_ID_MAX);
      assert AcceptedCount(items) == AcceptedCount(init) + (if Accepted(items[|items| - 1]) then 1 else 0);
      assert Accepted(items[|items| - 1]) ==> items[|items| - 1].doc.tableID.value < VTAP_TABLE_ID_MAX;
    } else {
      BucketSizesEmpty(VTAP_TABLE_ID_MAX);
    }
  }

  /** A ClickHouse writer of one table: the documents queued to it and the number of Put calls. */
  class CKWriter {
    const counterName: string
    const tableID: TableId
    const engine: Engine
    var queued: seq<Document>
    var puts: nat

    constructor (counterName: string, tableID: TableId, engine: Engine)
      ensures this.counterName == counterName && this.tableID == tableID && this.engine == engine
      ensures queued == [] && puts == 0
    {
      this.counterName := counterName;
      this.tableID := tableID;
      this.engine := engine;
      queued := [];
      puts := 0;
    }

    method Put(docs: seq<Document>)
      modifies this
      ensures queued == old(queued) + docs && puts == old(puts) + 1
    {
      queued := queued + docs;
      puts := puts + 1;
    }
  }

  /** The first loop of Put: every accepted document goes to its table's cache, in input order. */
  method SortIntoBuckets(items: seq<Item>) returns (caches: array<seq<Document>>)
    ensures fresh(caches) && caches.Length == VTAP_TABLE_ID_MAX
    ensures forall i :: 0 <= i < VTAP_TABLE_ID_MAX ==> caches[i] == Bucket(items, i)
  {
    caches := new seq<Document>[VTAP_TABLE_ID_MAX](_ => []);
    var k := 0;
    while k < |items|
      invariant 0 <= k <= |items|
      invariant forall i :: 0 <= i < VTAP_TABLE_ID_MAX ==> caches[i] == Bucket(items[..k], i)
      modifies caches
    {
      assert items[..k + 1][..k] == items[..k];
      var item := items[k];
      if item.Doc? && item.doc.tableID.Ok? {
        var id := item.doc.tableID.value;
        caches[id] := caches[id] + [item.doc];
      }
      k := k + 1;
    }
    assert items[..|items|] == items;
  }

  class DbWriter {
    const ckwriters: seq<CKWriter>

    /** One distinct writer per table, in table-id order. */
    predicate Valid()
    {
      |ckwriters| == VTAP_TABLE_ID_MAX &&
      (forall i, j :: 0 <= i < j < |ckwriters| ==> ckwriters[i] != ckwriters[j]) &&
      (forall i :: 0 <= i < |ckwriters| ==> ckwriters[i].tableID == i)
    }

    function Writers(): set<CKWriter>
    {
      set i | 0 <= i < |ckwriters| :: ckwriters[i]
    }

    /**
     * NewDbWriter: a writer per metrics table, on a replicated engine when
     * replication is enabled, each counting under its table's counter name.
     */
    constructor (replicaEnabled: bool)
      ensures Valid()
      ensures forall i :: 0 <= i < |ckwriters| ==>
        fresh(ckwriters[i]) && ckwriters[i].counterName == CounterName(i) && ckwriters[i].queued == [] &&
        ckwriters[i].puts == 0 && ckwriters[i].engine == (if replicaEnabled then ReplicatedMergeTree else MergeTree)
    {
      var engine := MergeTree;
      if replicaEnabled {
        engine := ReplicatedMergeTree;
      }
      var ws: seq<CKWriter> := [];
      var id := 0;
      while id < VTAP_TABLE_ID_MAX
        invariant 0 <= id <= VTAP_TABLE_ID_MAX && |ws| == id
        invariant forall i, j :: 0 <= i < j < |ws| ==> ws[i] != ws[j]
        invariant forall i :: 0 <= i < |ws| ==>
          fresh(ws[i]) && ws[i].tableID == i && ws[i].counterName == CounterName(i) && ws[i].queued == [] &&
          ws[i].puts == 0 && ws[i].engine == engine
      {
        var w := new CKWriter(CounterName(id), id, engine);
        ws := ws + [w];
        id := id + 1;
      }
      ckwriters := ws;
    }

    /**
     * Put: every document with a known table id goes to its table's bucket
     * in input order, other items are skipped, and each non-empty bucket is
     * handed to its writer in one call. Put never fails.
     */
    method Put(items: seq<Item>) returns (err: Option<string>)
      requires Valid()
      modifies Writers()
      ensures err.None?
      ensures forall i :: 0 <= i < |ckwriters| ==>
        ckwriters[i].queued == old(ckwriters[i].queued) + Bucket(items, i) &&
        ckwriters[i].puts == old(ckwriters[i].puts) + (if Bucket(items, i) == [] then 0 else 1)
    {
      var caches := SortIntoBuckets(items);
      var i := 0;
      while i < VTAP_TABLE_ID_MAX
        invariant 0 <= i <= VTAP_TABLE_ID_MAX
        invariant forall j :: 0 <= j < VTAP_TABLE_ID_MAX ==> caches[j] == Bucket(items, j)
        invariant forall j :: 0 <= j < |ckwriters| ==>
          ckwriters[j].queued == old(ckwriters[j].queued) + (if j < i then Bucket(items, j) else []) &&
          ckwriters[j].puts == old(ckwriters[j].puts) + (if j < i && Bucket(items, j) != [] then 1 else 0)
      {
        if |caches[i]| > 0 {
          ckwriters[i].Put(caches[i]);
        }
        i := i + 1;
      }
      return None;
    }
  }

  /**
   * NewDbWriter with the outcome of each table's NewCKWriter given: the
   * first table whose writer cannot be created ends the construction with
   * that error and no DbWriter; when every writer is created, the DbWriter
   * of the constructor. The writers started before a failure are dropped.
   */
  method NewDbWriter(replicaEnabled: bool, ckErr: seq<Option<string>>) returns (w: DbWriter?, err: Option<string>)
    requires |ckErr| == VTAP_TABLE_ID_MAX
    ensures err.None? <==> forall i :: 0 <= i < |ckErr| ==> ckErr[i].None?
    ensures err.Some? ==>
      w == null && exists i :: 0 <= i < |ckErr| && err == ckErr[i] && forall j :: 0 <= j < i ==> ckErr[j].None?
    ensures err.None? ==>
      w != null && fresh(w) && w.Valid() &&
      forall i :: 0 <= i < |w.ckwriters| ==>
        fresh(w.ckwriters[i]) && w.ckwriters[i].counterName == CounterName(i) && w.ckwriters[i].queued == [] &&
        w.ckwriters[i].puts == 0 && w.ckwriters[i].engine == (if replicaEnabled then ReplicatedMergeTree else MergeTree)
  {
    var id := 0;
    while id < VTAP_TABLE_ID_MAX
      invariant 0 <= id <= VTAP_TABLE_ID_MAX
      invariant forall i :: 0 <= i < id ==> ckErr[i].None?
    {
      if ckErr[id].Some? {
        return null, ckErr[id];
      }
      id := id + 1;
    }
    w := new DbWriter(replicaEnabled);
    err := None;
  }
}
