/** The ordering context's batches and batch_allocations tables: the versioned update that deletes and
    reinserts allocations, the two-query read and the bulk read. */
module AllocationStore {
  import opened Kernel
  import opened AllocationDomain

  datatype Header = Header(sku: string, qty: int, eta: Option<Time>, version: int, createdAt: Time, updatedAt: Time)

  datatype AllocRow = AllocRow(batch: BatchId, order: OrderId, qty: int, createdAt: Time)

  datatype Tables = Tables(batches: map<BatchId, Header>, allocs: seq<AllocRow>)

  // ---------- Selecting allocation rows ----------

  /** The rows whose batch is (inside) or is not (!inside) among ids, in table order. */
  function Keep(rows: seq<AllocRow>, ids: set<BatchId>, inside: bool): (kept: seq<AllocRow>)
    ensures forall r :: r in kept ==> r in rows && (r.batch in ids <==> inside)
  {
    if rows == [] then []
    else
      var r := rows[|rows| - 1];
      Keep(rows[..|rows| - 1], ids, inside) + (if r.batch in ids <==> inside then [r] else [])
  }

  function RowsOf(rows: seq<AllocRow>, id: BatchId): seq<AllocRow> {
    Keep(rows, {id}, true)
  }

  lemma {:induction false} KeepConcat(a: seq<AllocRow>, b: seq<AllocRow>, ids: set<BatchId>, inside: bool)
    ensures Keep(a + b, ids, inside) == Keep(a, ids, inside) + Keep(b, ids, inside)
  {
    if b == [] {
      assert a + b == a && Keep(b, ids, inside) == [];
    } else {
      var init, last := b[..|b| - 1], b[|b| - 1];
      KeepConcat(a, init, ids, inside);
      assert b == init + [last];
      assert Keep(a + b, ids, inside) == Keep(a, ids, inside) + Keep(b, ids, inside) by {
        KeepConcatSnoc(a, init, last, ids, inside);
      }
    }
  }

  lemma KeepConcatSnoc(a: seq<AllocRow>, b: seq<AllocRow>, r: AllocRow, ids: set<BatchId>, inside: bool)
    requires Keep(a + b, ids, inside) == Keep(a, ids, inside) + Keep(b, ids, inside)
    ensures Keep(a + (b + [r]), ids, inside) == Keep(a, ids, inside) + Keep(b + [r], ids, inside)
  {
    KeepSnoc(a + b, r, ids, inside);
    KeepSnoc(b, r, ids, inside);
    ConcatAssociates(a, b, [r]);
    ConcatAssociates(Keep(a, ids, inside), Keep(b, ids, inside), if r.batch in ids <==> inside then [r] else []);
  }

  lemma ConcatAssociates(x: seq<AllocRow>, y: seq<AllocRow>, z: seq<AllocRow>)
    ensures (x + y) + z == x + (y + z)
  {
  }

  lemma KeepSnoc(rows: seq<AllocRow>, r: AllocRow, ids: set<BatchId>, inside: bool)
    ensures Keep(rows + [r], ids, inside) == Keep(rows, ids, inside) + (if r.batch in ids <==> inside then [r] else [])
  {
    assert (rows + [r])[..|rows|] == rows;
  }

  lemma {:induction false} KeepAll(rows: seq<AllocRow>, ids: set<BatchId>, inside: bool)
    ensures (forall r :: r in rows ==> (r.batch in ids <==> inside)) ==> Keep(rows, ids, inside) == rows
    ensures (forall r :: r in rows ==> (r.batch in ids <==> !inside)) ==> Keep(rows, ids, inside) == []
  {
    if rows != [] {
      KeepAll(rows[..|rows| - 1], ids, inside);
      assert rows == rows[..|rows| - 1] + [rows[|rows| - 1]];
    }
  }

  /** Deleting one batch's rows leaves every other batch's rows in place. */
  lemma {:induction false} DeleteKeepsOthers(rows: seq<AllocRow>, id: BatchId, other: BatchId)
    requires other != id
    ensures RowsOf(Keep(rows, {id}, false), other) == RowsOf(rows, other)
  {
    if rows != [] {
      var init, r := rows[..|rows| - 1], rows[|rows| - 1];
      DeleteKeepsOthers(init, id, other);
      KeepConcat(Keep(init, {id}, false), if r.batch == id then [] else [r], {other}, true);
      assert [r][..0] == [];
      if r.batch == id {
        assert Keep(init, {id}, false) + [] == Keep(init, {id}, false);
      }
    }
  }

  lemma {:induction false} KeepCounts(rows: seq<AllocRow>, ids: set<BatchId>, inside: bool, x: AllocRow)
    ensures multiset(Keep(rows, ids, inside))[x] == if x.batch in ids <==> inside then multiset(rows)[x] else 0
  {
    if rows != [] {
      KeepCounts(rows[..|rows| - 1], ids, inside, x);
      assert rows == rows[..|rows| - 1] + [rows[|rows| - 1]];
    }
  }

  /** A bulk answer, in any order, splits into exactly the answers for the single batches. */
  lemma BulkAnswerSplits(rows: seq<AllocRow>, ids: set<BatchId>, reply: seq<AllocRow>, id: BatchId)
    requires id in ids && multiset(reply) == multiset(Keep(rows, ids, true))
    ensures multiset(RowsOf(reply, id)) == multiset(RowsOf(rows, id))
  {
    forall x
      ensures multiset(RowsOf(reply, id))[x] == multiset(RowsOf(rows, id))[x]
    {
      KeepCounts(reply, {id}, true, x);
      KeepCounts(rows, {id}, true, x);
      KeepCounts(rows, ids, true, x);
    }
  }

  // ---------- From rows to the allocation map ----------

  function AllocMap(rows: seq<AllocRow>): Allocations {
    if rows == [] then map[]
    else AllocMap(rows[..|rows| - 1])[rows[|rows| - 1].order := rows[|rows| - 1].qty]
  }

  ghost predicate UniqueOrders(rows: seq<AllocRow>) {
    forall i, j :: 0 <= i < j < |rows| ==> rows[i].order != rows[j].order
  }

  function Orders(rows: seq<AllocRow>): set<OrderId> {
    set r | r in rows :: r.order
  }

  lemma {:induction false} AllocMapEntries(rows: seq<AllocRow>)
    requires UniqueOrders(rows)
    ensures AllocMap(rows).Keys == Orders(rows)
    ensures forall r :: r in rows ==> r.order in AllocMap(rows) && AllocMap(rows)[r.order] == r.qty
  {
    if rows != [] {
      var init, last := rows[..|rows| - 1], rows[|rows| - 1];
      AllocMapEntries(init);
      assert rows == init + [last];
      assert Orders(rows) == Orders(init) + {last.order};
    }
  }

  lemma TwiceInMultiset(rows: seq<AllocRow>, i: nat, j: nat)
    requires i < j < |rows| && rows[i] == rows[j]
    ensures multiset(rows)[rows[i]] >= 2
  {
    assert rows == rows[..j] + rows[j..];
    assert rows[i] in rows[..j] && rows[j..][0] == rows[j];
  }

  lemma {:induction false} UniqueMeansOnce(rows: seq<AllocRow>, x: AllocRow)
    requires UniqueOrders(rows)
    ensures multiset(rows)[x] <= 1
  {
    if rows != [] {
      var init, last := rows[..|rows| - 1], rows[|rows| - 1];
      UniqueMeansOnce(init, x);
      assert rows == init + [last];
      assert forall i :: 0 <= i < |init| ==> init[i] == rows[i];
      assert last !in init;
    }
  }

  lemma UniquenessOrderIrrelevant(a: seq<AllocRow>, b: seq<AllocRow>)
    requires UniqueOrders(a) && multiset(a) == multiset(b)
    ensures UniqueOrders(b)
    ensures forall r :: r in a <==> r in b
  {
    assert forall r :: r in a <==> r in multiset(a);
    assert forall r :: r in b <==> r in multiset(b);
    forall i, j | 0 <= i < j < |b|
      ensures b[i].order != b[j].order
    {
      assert b[i] in b && b[j] in b;
      if b[i] == b[j] {
        TwiceInMultiset(b, i, j);
        UniqueMeansOnce(a, b[i]);
      }
    }
  }

  /** With one row per order, the map does not depend on the order in which the rows arrive. */
  lemma AllocMapOrderIrrelevant(a: seq<AllocRow>, b: seq<AllocRow>)
    requires UniqueOrders(a) && multiset(a) == multiset(b)
    ensures UniqueOrders(b) && AllocMap(a) == AllocMap(b)
  {
    UniquenessOrderIrrelevant(a, b);
    AllocMapEntries(a);
    AllocMapEntries(b);
    assert Orders(a) == Orders(b);
    forall o | o in AllocMap(a)
      ensures AllocMap(b)[o] == AllocMap(a)[o]
    {
      var r :| r in a && r.order == o;
    }
  }

  // ---------- Stored batches ----------

  function Rebuild(id: BatchId, h: Header, rows: seq<AllocRow>): BatchValue {
    BatchValue(id, h.sku, h.qty, h.eta, AllocMap(rows), h.version)
  }

  function StoredBatch(t: Tables, id: BatchId): BatchValue
    requires id in t.batches
  {
    Rebuild(id, t.batches[id], RowsOf(t.allocs, id))
  }

  /** One row per batch and order, and only for stored batches. */
  ghost predicate TablesOk(t: Tables) {
    && (forall id :: id in t.batches ==> UniqueOrders(RowsOf(t.allocs, id)))
    && (forall r :: r in t.allocs ==> r.batch in t.batches)
  }

  /** The rows saveAllocations inserts: one per entry of the map, in an arbitrary order. */
  ghost predicate IsInsertion(b: BatchValue, inserted: seq<AllocRow>) {
    && (forall r :: r in inserted ==> r.batch == b.id && r.order in b.allocations && r.qty == b.allocations[r.order])
    && Orders(inserted) == b.allocations.Keys
    && UniqueOrders(inserted)
  }

  function UpdateTables(t: Tables, b: BatchValue, inserted: seq<AllocRow>, at: Time): Result<Tables> {
    if b.id in t.batches && t.batches[b.id].version == b.version then
      var h := t.batches[b.id];
      Ok(Tables(t.batches[b.id := Header(b.sku, b.qty, b.eta, h.version + 1, h.createdAt, at)],
                Keep(t.allocs, {b.id}, false) + inserted))
    else Err(OptimisticLock)
  }

  function SaveTables(t: Tables, b: BatchValue, inserted: seq<AllocRow>, at: Time): Result<Tables> {
    if b.id in t.batches then Err(DuplicateKey)
    else
      Ok(Tables(t.batches[b.id := Header(b.sku, b.qty, b.eta, b.version, at, at)], t.allocs + inserted))
  }

  /** One row per order: as many rows as orders. */
  lemma {:induction false} UniqueOrdersCount(rows: seq<AllocRow>)
    requires UniqueOrders(rows)
    ensures |rows| == |Orders(rows)|
  {
    if rows != [] {
      var init, last := rows[..|rows| - 1], rows[|rows| - 1];
      UniqueOrdersCount(init);
      assert rows == init + [last];
      assert Orders(rows) == Orders(init) + {last.order};
    }
  }

  lemma InsertionRebuilds(b: BatchValue, inserted: seq<AllocRow>)
    requires IsInsertion(b, inserted)
    ensures AllocMap(inserted) == b.allocations
  {
    AllocMapEntries(inserted);
    forall o | o in b.allocations
      ensures AllocMap(inserted)[o] == b.allocations[o]
    {
      assert o in Orders(inserted);
      var r :| r in inserted && r.order == o;
    }
  }

  lemma RowsAfterInsert(rows: seq<AllocRow>, b: BatchValue, inserted: seq<AllocRow>, id: BatchId)
    requires IsInsertion(b, inserted)
    ensures RowsOf(rows + inserted, id) == RowsOf(rows, id) + (if id == b.id then inserted else [])
  {
    KeepConcat(rows, inserted, {id}, true);
    KeepAll(inserted, {id}, true);
  }

  lemma RowsAfterReplace(rows: seq<AllocRow>, b: BatchValue, inserted: seq<AllocRow>, id: BatchId)
    requires IsInsertion(b, inserted)
    ensures RowsOf(Keep(rows, {b.id}, false) + inserted, id) == if id == b.id then inserted else RowsOf(rows, id)
  {
    RowsAfterInsert(Keep(rows, {b.id}, false), b, inserted, id);
    if id == b.id {
      KeepAll(Keep(rows, {b.id}, false), {id}, true);
    } else {
      DeleteKeepsOthers(rows, b.id, id);
    }
  }

  lemma RowsAfterFirstInsert(rows: seq<AllocRow>, b: BatchValue, inserted: seq<AllocRow>, id: BatchId)
    requires IsInsertion(b, inserted) && forall r :: r in rows ==> r.batch != b.id
    ensures RowsOf(rows + inserted, id) == if id == b.id then inserted else RowsOf(rows, id)
  {
    RowsAfterInsert(rows, b, inserted, id);
    KeepAll(rows, {b.id}, true);
    assert [] + inserted == inserted && RowsOf(rows, id) + [] == RowsOf(rows, id);
  }

  /** Save/load round trip: after a successful update the stored batch is the one written, one version up,
      whatever its allocations (none included); every other batch keeps its header and its rows. */
  lemma UpdateRoundTrip(t: Tables, b: BatchValue, inserted: seq<AllocRow>, at: Time)
    requires TablesOk(t) && IsInsertion(b, inserted)
    requires UpdateTables(t, b, inserted, at).Ok?
    ensures var t' := UpdateTables(t, b, inserted, at).value;
            && TablesOk(t')
            && t'.batches.Keys == t.batches.Keys
            && StoredBatch(t', b.id) == b.(version := b.version + 1)
            && t'.batches[b.id].createdAt == t.batches[b.id].createdAt
            && forall other :: other in t.batches && other != b.id ==>
                 t'.batches[other] == t.batches[other] &&
                 RowsOf(t'.allocs, other) == RowsOf(t.allocs, other) && StoredBatch(t', other) == StoredBatch(t, other)
  {
    var t' := UpdateTables(t, b, inserted, at).value;
    UpdatedRows(t, b, inserted, at);
    InsertionRebuilds(b, inserted);
    assert RowsOf(t'.allocs, b.id) == inserted;
  }

  /** The allocation rows after an update, batch by batch. */
  lemma UpdatedRows(t: Tables, b: BatchValue, inserted: seq<AllocRow>, at: Time)
    requires TablesOk(t) && IsInsertion(b, inserted) && UpdateTables(t, b, inserted, at).Ok?
    ensures var t' := UpdateTables(t, b, inserted, at).value;
            && TablesOk(t')
            && forall id :: RowsOf(t'.allocs, id) == if id == b.id then inserted else RowsOf(t.allocs, id)
  {
    var t' := UpdateTables(t, b, inserted, at).value;
    forall id
      ensures RowsOf(t'.allocs, id) == if id == b.id then inserted else RowsOf(t.allocs, id)
    {
      RowsAfterReplace(t.allocs, b, inserted, id);
    }
  }

  lemma SaveRoundTrip(t: Tables, b: BatchValue, inserted: seq<AllocRow>, at: Time)
    requires TablesOk(t) && IsInsertion(b, inserted)
    requires SaveTables(t, b, inserted, at).Ok?
    ensures var t' := SaveTables(t, b, inserted, at).value;
            && TablesOk(t')
            && t'.batches.Keys == t.batches.Keys + {b.id}
            && StoredBatch(t', b.id) == b && t'.batches[b.id].createdAt == at
            && forall other :: other in t.batches ==>
                 t'.batches[other] == t.batches[other] &&
                 RowsOf(t'.allocs, other) == RowsOf(t.allocs, other) && StoredBatch(t', other) == StoredBatch(t, other)
  {
    var t' := SaveTables(t, b, inserted, at).value;
    InsertionRebuilds(b, inserted);
    forall id
      ensures RowsOf(t'.allocs, id) == if id == b.id then inserted else RowsOf(t.allocs, id)
    {
      RowsAfterFirstInsert(t.allocs, b, inserted, id);
    }
  }
}
