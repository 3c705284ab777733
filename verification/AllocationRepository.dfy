/** The ordering BatchRepository, statement by statement, over committed or staged tables. */
module AllocationRepository {
  import opened Kernel
  import opened AllocationDomain
  import opened AllocationStore

  lemma RowsRearranged(todo: seq<AllocRow>, i: nat)
    requires i < |todo|
    ensures multiset(todo) == multiset(todo[..i] + todo[i + 1..]) + multiset{todo[i]}
  {
    assert todo == todo[..i] + [todo[i]] + todo[i + 1..];
  }

  /** a may be listed before b under ORDER BY eta NULLS LAST, created_at. */
  predicate Precedes(a: Header, b: Header) {
    if a.eta.Some? && b.eta.Some? then
      a.eta.value < b.eta.value || (a.eta.value == b.eta.value && a.createdAt <= b.createdAt)
    else if a.eta.None? && b.eta.None? then a.createdAt <= b.createdAt
    else a.eta.Some?
  }

  lemma FirstExists(batches: map<BatchId, Header>, ids: set<BatchId>)
    requires ids != {} && ids <= batches.Keys
    ensures exists id :: id in ids && forall other :: other in ids ==> Precedes(batches[id], batches[other])
  {
    var id :| id in ids;
    if ids != {id} {
      var rest := ids - {id};
      FirstExists(batches, rest);
      var e :| e in rest && forall other :: other in rest ==> Precedes(batches[e], batches[other]);
      var best := if Precedes(batches[e], batches[id]) then e else id;
      assert forall other :: other in ids ==> other == id || other in rest;
      assert forall other :: other in ids ==> Precedes(batches[best], batches[other]);
    }
  }

  /** An insertion under way: the orders of todo have no row yet. */
  ghost predicate Inserting(b: BatchValue, todo: set<OrderId>, inserted: seq<AllocRow>) {
    todo <= b.allocations.Keys && IsInsertion(b.(allocations := b.allocations - todo), inserted)
  }

  lemma InsertionStarts(b: BatchValue)
    ensures Inserting(b, b.allocations.Keys, [])
  {
  }

  /** One more row covers one more order. */
  lemma InsertionGrows(b: BatchValue, todo: set<OrderId>, inserted: seq<AllocRow>, row: AllocRow)
    requires Inserting(b, todo, inserted)
    requires row.batch == b.id && row.order in b.allocations && row.order in todo && row.qty == b.allocations[row.order]
    ensures Inserting(b, todo - {row.order}, inserted + [row])
  {
    assert forall r :: r in inserted ==> r.order in Orders(inserted);
    assert forall r :: r in inserted + [row] <==> r in inserted || r == row;
    assert Orders(inserted + [row]) == Orders(inserted) + {row.order};
  }

  /** While entries are left, fewer rows are inserted than the map has entries. */
  lemma InsertionCounts(b: BatchValue, todo: set<OrderId>, inserted: seq<AllocRow>)
    requires Inserting(b, todo, inserted)
    ensures |inserted| <= |b.allocations| && (|inserted| == |b.allocations| <==> todo == {})
  {
    UniqueOrdersCount(inserted);
    assert b.allocations.Keys == Orders(inserted) + todo;
    assert |b.allocations| == |b.allocations.Keys|;
  }

  lemma InsertionDone(b: BatchValue, inserted: seq<AllocRow>)
    requires Inserting(b, {}, inserted)
    ensures IsInsertion(b, inserted)
  {
    assert b.allocations - {} == b.allocations;
  }

  /** One batch's group of a bulk answer is its stored allocation map. */
  lemma GroupIsStored(t: Tables, ids: set<BatchId>, reply: seq<AllocRow>, id: BatchId)
    requires TablesOk(t) && id in ids && id in t.batches
    requires multiset(reply) == multiset(Keep(t.allocs, ids, true))
    ensures AllocMap(RowsOf(reply, id)) == AllocMap(RowsOf(t.allocs, id))
  {
    BulkAnswerSplits(t.allocs, ids, reply, id);
    AllocMapOrderIrrelevant(RowsOf(t.allocs, id), RowsOf(reply, id));
  }

  lemma FoundAre(ids: seq<BatchId>, found: seq<BatchValue>)
    requires |found| == |ids| && forall i :: 0 <= i < |ids| ==> found[i].id == ids[i]
    ensures forall id :: id in ids <==> exists i :: 0 <= i < |found| && found[i].id == id
  {
    forall id
      ensures id in ids <==> exists i :: 0 <= i < |found| && found[i].id == id
    {
      if id in ids {
        var i :| 0 <= i < |ids| && ids[i] == id;
        assert found[i].id == id;
      }
      if i :| 0 <= i < |found| && found[i].id == id {
        assert ids[i] in ids;
      }
    }
  }

  /** Earliest ETA first, missing ETAs last, then creation time. */
  ghost predicate InOrder(batches: map<BatchId, Header>, found: seq<BatchValue>) {
    forall i, j :: 0 <= i < j < |found| && found[i].id in batches && found[j].id in batches ==>
      && (found[i].eta.None? ==> found[j].eta.None?)
      && (found[i].eta.Some? && found[j].eta.Some? ==> found[i].eta.value <= found[j].eta.value)
      && (found[i].eta == found[j].eta ==> batches[found[i].id].createdAt <= batches[found[j].id].createdAt)
  }

  lemma FoundInOrder(batches: map<BatchId, Header>, ids: seq<BatchId>, found: seq<BatchValue>)
    requires |found| == |ids|
    requires forall i :: 0 <= i < |ids| ==>
               ids[i] in batches && found[i].id == ids[i] && found[i].eta == batches[ids[i]].eta
    requires forall i, j :: 0 <= i < j < |ids| ==> Precedes(batches[ids[i]], batches[ids[j]])
    ensures InOrder(batches, found)
  {
  }

  /** Scans allocation rows into the map of the aggregate. */
  method ScanAllocations(rows: seq<AllocRow>) returns (m: Allocations)
    ensures m == AllocMap(rows)
  {
    m := map[];
    for i := 0 to |rows|
      invariant m == AllocMap(rows[..i])
    {
      m := m[rows[i].order := rows[i].qty];
      assert rows[..i + 1][..i] == rows[..i];
    }
    assert rows[..|rows|] == rows;
  }

  method RowToDomain(id: BatchId, row: Header, rows: seq<AllocRow>) returns (b: BatchValue)
    ensures b == Rebuild(id, row, rows)
  {
    var m := ScanAllocations(rows);
    b := BatchValue(id, row.sku, row.qty, row.eta, m, row.version);
  }

  class Connection {
    var batches: map<BatchId, Header>
    var allocs: seq<AllocRow>

    function View(): Tables
      reads this
    {
      Tables(batches, allocs)
    }

    /** A transaction starts from the committed tables. */
    constructor (t: Tables)
      ensures View() == t
    {
      batches, allocs := t.batches, t.allocs;
    }

    /** SELECT ... FROM batch_allocations WHERE batch_id = ANY(ids), in no particular order. */
    method SelectAllocations(ids: set<BatchId>) returns (reply: seq<AllocRow>)
      ensures multiset(reply) == multiset(Keep(allocs, ids, true))
    {
      reply := [];
      var todo := Keep(allocs, ids, true);
      while todo != []
        invariant multiset(reply) + multiset(todo) == multiset(Keep(allocs, ids, true))
        decreases |todo|
      {
        var i: nat :| i < |todo|;
        RowsRearranged(todo, i);
        reply := reply + [todo[i]];
        todo := todo[..i] + todo[i + 1..];
      }
    }

    /** SELECT id FROM batches WHERE sku = ... ORDER BY eta NULLS LAST, created_at; ties in any order. */
    method SelectBySKU(sku: string) returns (ids: seq<BatchId>)
      ensures forall id :: id in ids <==> id in batches && batches[id].sku == sku
      ensures forall i, j :: 0 <= i < j < |ids| ==>
                ids[i] != ids[j] && Precedes(batches[ids[i]], batches[ids[j]])
    {
      ids := [];
      var todo := set id | id in batches && batches[id].sku == sku;
      while todo != {}
        invariant forall id :: id in ids || id in todo <==> id in batches && batches[id].sku == sku
        invariant forall id :: id in todo ==> id !in ids
        invariant forall i, j :: 0 <= i < j < |ids| ==>
                    ids[i] != ids[j] && Precedes(batches[ids[i]], batches[ids[j]])
        invariant forall i, id :: 0 <= i < |ids| && id in todo ==> Precedes(batches[ids[i]], batches[id])
        decreases todo
      {
        FirstExists(batches, todo);
        var id :| id in todo && forall other :: other in todo ==> Precedes(batches[id], batches[other]);
        todo := todo - {id};
        ids := ids + [id];
      }
    }

    method GetByID(id: BatchId) returns (r: Result<BatchValue>)
      requires TablesOk(View())
      ensures r == if id in batches then Ok(StoredBatch(View(), id)) else Err(BatchNotFound)
    {
      if id !in batches {
        return Err(BatchNotFound);
      }
      var reply := SelectAllocations({id});
      AllocMapOrderIrrelevant(RowsOf(allocs, id), reply);
      var b := RowToDomain(id, batches[id], reply);
      return Ok(b);
    }

    /** Groups a bulk answer by batch. */
    method GroupByBatch(reply: seq<AllocRow>) returns (groups: map<BatchId, seq<AllocRow>>)
      ensures forall id :: (if id in groups then groups[id] else []) == RowsOf(reply, id)
    {
      groups := map[];
      for i := 0 to |reply|
        invariant forall id :: (if id in groups then groups[id] else []) == RowsOf(reply[..i], id)
      {
        var a := reply[i];
        assert reply[..i + 1][..i] == reply[..i];
        groups := groups[a.batch := (if a.batch in groups then groups[a.batch] else []) + [a]];
      }
      assert reply[..|reply|] == reply;
    }

    /** The conversion loop: one batch per row, with its own group of allocations. */
    method ToDomain(ids: seq<BatchId>, groups: map<BatchId, seq<AllocRow>>, ghost reply: seq<AllocRow>)
        returns (found: seq<BatchValue>)
      requires forall id :: id in ids ==> id in batches
      requires forall id :: (if id in groups then groups[id] else []) == RowsOf(reply, id)
      ensures |found| == |ids|
      ensures forall i :: 0 <= i < |ids| ==> found[i] == Rebuild(ids[i], batches[ids[i]], RowsOf(reply, ids[i]))
    {
      found := [];
      for k := 0 to |ids|
        invariant |found| == k
        invariant forall i :: 0 <= i < k ==> found[i] == Rebuild(ids[i], batches[ids[i]], RowsOf(reply, ids[i]))
      {
        var id := ids[k];
        assert id in ids;
        var b := RowToDomain(id, batches[id], if id in groups then groups[id] else []);
        found := found + [b];
      }
    }

    /** The bulk read: exactly what GetByID gives for every batch of the SKU, in the queried order. */
    method GetBySKU(sku: string) returns (found: seq<BatchValue>)
      requires TablesOk(View())
      ensures forall i :: 0 <= i < |found| ==> found[i].id in batches && found[i] == StoredBatch(View(), found[i].id)
      ensures forall id :: id in batches && batches[id].sku == sku <==>
                exists i :: 0 <= i < |found| && found[i].id == id
      ensures forall i, j :: 0 <= i < j < |found| ==>
                found[i].id != found[j].id && found[i].id in batches && found[j].id in batches &&
                Precedes(batches[found[i].id], batches[found[j].id])
      ensures InOrder(batches, found)
    {
      var ids := SelectBySKU(sku);
      found := [];
      if |ids| == 0 {
        assert forall id :: id in batches && batches[id].sku == sku ==> id in ids;
        return;
      }
      var wanted := set id | id in ids;
      var reply := SelectAllocations(wanted);
      var groups := GroupByBatch(reply);
      forall id | id in ids
        ensures AllocMap(RowsOf(reply, id)) == AllocMap(RowsOf(allocs, id))
      {
        GroupIsStored(View(), wanted, reply, id);
      }
      found := ToDomain(ids, groups, reply);
      FoundAre(ids, found);
      FoundInOrder(batches, ids, found);
    }

    /** One INSERT INTO batch_allocations. */
    method InsertAllocation(row: AllocRow, refused: bool) returns (err: Option<Error>)
      modifies this`allocs
      ensures err == if refused then Some(StoreFailure) else None
      ensures allocs == if refused then old(allocs) else old(allocs) + [row]
    {
      if refused {
        return Some(StoreFailure);
      }
      allocs := allocs + [row];
      return None;
    }

    /** Inserts one row per entry, in an arbitrary order; stops at a refused insert. */
    method SaveAllocations(b: Batch, refused: Option<nat>, at: Time)
        returns (err: Option<Error>, inserted: seq<AllocRow>)
      modifies this
      ensures batches == old(batches)
      ensures err == None ==> IsInsertion(b.Value(), inserted) && allocs == old(allocs) + inserted
      ensures err == None <==> refused.None? || refused.value >= |b.allocations|
      ensures err == None || err == Some(StoreFailure)
    {
      inserted, err := [], None;
      var todo := b.allocations.Keys;
      ghost var v := b.Value();
      InsertionStarts(v);
      while todo != {}
        invariant batches == old(batches) && b.Value() == v && err == None
        invariant Inserting(v, todo, inserted)
        invariant allocs == old(allocs) + inserted
        invariant refused.None? || refused.value >= |inserted|
        decreases todo
      {
        InsertionCounts(v, todo, inserted);
        var o :| o in todo;
        var row := AllocRow(b.id, o, b.allocations[o], at);
        err := InsertAllocation(row, refused == Some(|inserted|));
        if err != None {
          return;
        }
        InsertionGrows(v, todo, inserted, row);
        inserted := inserted + [row];
        todo := todo - {o};
      }
      InsertionCounts(v, todo, inserted);
      InsertionDone(v, inserted);
    }

    method UpdateTx(b: Batch, updateRefused: bool, deleteRefused: bool, insertRefused: Option<nat>, at: Time)
        returns (err: Option<Error>, ghost inserted: seq<AllocRow>)
      modifies this
      ensures err == None ==>
                IsInsertion(b.Value(), inserted) &&
                UpdateTables(old(View()), b.Value(), inserted, at) == Ok(View())
      ensures err == None <==>
                && !updateRefused && b.id in old(batches) && old(batches)[b.id].version == b.version
                && !deleteRefused && (insertRefused.None? || insertRefused.value >= |b.allocations|)
      ensures err == Some(OptimisticLock) <==>
                !updateRefused && !(b.id in old(batches) && old(batches)[b.id].version == b.version)
    {
      if updateRefused {
        return Some(StoreFailure), [];
      }
      if b.id !in batches || batches[b.id].version != b.version {
        return Some(OptimisticLock), [];
      }
      var h := batches[b.id];
      batches := batches[b.id := Header(b.sku, b.qty, b.eta, h.version + 1, h.createdAt, at)];
      if deleteRefused {
        return Some(StoreFailure), [];
      }
      allocs := Keep(allocs, {b.id}, false);
      err, inserted := SaveAllocations(b, insertRefused, at);
    }

    method SaveTx(b: Batch, insertBatchRefused: bool, insertRefused: Option<nat>, at: Time)
        returns (err: Option<Error>, ghost inserted: seq<AllocRow>)
      modifies this
      ensures err == None ==>
                IsInsertion(b.Value(), inserted) &&
                SaveTables(old(View()), b.Value(), inserted, at) == Ok(View())
      ensures err == None <==>
                && !insertBatchRefused && b.id !in old(batches)
                && (insertRefused.None? || insertRefused.value >= |b.allocations|)
      ensures err == Some(DuplicateKey) <==> !insertBatchRefused && b.id in old(batches)
    {
      if insertBatchRefused {
        return Some(StoreFailure), [];
      }
      if b.id in batches {
        return Some(DuplicateKey), [];
      }
      batches := batches[b.id := Header(b.sku, b.qty, b.eta, b.version, at, at)];
      err, inserted := SaveAllocations(b, insertRefused, at);
    }

    /** Update: UpdateTx in its own transaction. It succeeds exactly on the stored version when nothing is refused; then
        the batch reads back as written, one version up, and no other batch changes; on any error nothing changes. */
    method Update(b: Batch, f: Faults, deleteRefused: bool, at: Time) returns (err: Option<Error>)
      requires TablesOk(View())
      modifies this
      ensures TablesOk(View())
      ensures err == None <==>
                && !f.begin && !f.write && b.id in old(batches) && old(batches)[b.id].version == b.version
                && !deleteRefused && f.Publishes(|b.allocations|) && !f.commit
      ensures err == Some(OptimisticLock) <==>
                !f.begin && !f.write && !(b.id in old(batches) && old(batches)[b.id].version == b.version)
      ensures err != None ==> View() == old(View())
      ensures err == None ==>
                && b.id in batches
                && StoredBatch(View(), b.id) == b.Value().(version := b.version + 1)
                && batches.Keys == old(batches.Keys)
                && forall other :: other in batches && other != b.id ==>
                     StoredBatch(View(), other) == StoredBatch(old(View()), other)
    {
      if f.begin {
        return Some(StoreFailure);
      }
      var tx := new Connection(View());
      ghost var inserted;
      err, inserted := tx.UpdateTx(b, f.write, deleteRefused, f.refusedInsert, at);
      if err != None {
        return;
      }
      if f.commit {
        return Some(StoreFailure);
      }
      UpdateRoundTrip(View(), b.Value(), inserted, at);
      batches, allocs := tx.batches, tx.allocs;
    }
  }
}
