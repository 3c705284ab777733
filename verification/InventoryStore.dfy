/** inventory_batches and outbox_events as seen by the inventory context: the repository's statements,
    the finders, transactions and the publisher. */
module InventoryStore {
  import opened Kernel
  import opened Outbox
  import opened InventoryDomain

  datatype BatchRow = BatchRow(
    id: BatchId,
    storeId: StoreId,
    ingredientId: IngredientId,
    receivedQty: int,
    remainingQty: int,
    purchasePrice: Money,
    receivedAt: Time,
    expiresAt: Time,
    freshness: Freshness,
    writtenOff: bool,
    writeOffReason: Option<string>,
    version: int)

  function RowToBatch(r: BatchRow): BatchValue {
    BatchValue(r.id, r.storeId, r.ingredientId, r.receivedQty, r.remainingQty, r.purchasePrice,
               r.receivedAt, r.expiresAt, r.freshness, r.writtenOff, PtrStr(r.writeOffReason), r.version, [])
  }

  /** The row an INSERT of Save creates: its version is one above the batch's. */
  function InsertedRow(b: BatchValue): BatchRow {
    BatchRow(b.id, b.storeId, b.ingredientId, b.receivedQty, b.remainingQty, b.purchasePrice,
             b.receivedAt, b.expiresAt, b.freshness, b.writtenOff, NilableStr(b.writeOffReason), b.version + 1)
  }

  /** The row an UPDATE leaves: only the listed columns come from the batch. */
  function UpdatedRow(r: BatchRow, b: BatchValue): BatchRow {
    r.(remainingQty := b.remainingQty,
       freshness := b.freshness,
       writtenOff := b.writtenOff,
       writeOffReason := NilableStr(b.writeOffReason),
       version := r.version + 1)
  }

  type Rows = map<BatchId, BatchRow>

  datatype Tables = Tables(rows: Rows, outbox: seq<OutboxRow>)

  /** Save: insert, or update where the stored version is the batch's. */
  function SaveRow(rows: Rows, b: BatchValue): Result<Rows> {
    if b.id !in rows then Ok(rows[b.id := InsertedRow(b)])
    else UpdateRow(rows, b)
  }

  /** UpdateTx: update where id and version match. */
  function UpdateRow(rows: Rows, b: BatchValue): Result<Rows> {
    if b.id in rows && rows[b.id].version == b.version
    then Ok(rows[b.id := UpdatedRow(rows[b.id], b)])
    else Err(OptimisticLock)
  }

  /** One RunTx attempt of a command handler: write the batch, publish its events, commit. */
  function CommitBatch(t: Tables, b: BatchValue, isNew: bool, f: Faults, at: Time): Result<Tables> {
    if f.begin || f.write then Err(StoreFailure)
    else
      var rows :- if isNew then SaveRow(t.rows, b) else UpdateRow(t.rows, b);
      if !f.Publishes(|b.events|) || f.commit then Err(StoreFailure)
      else Ok(Tables(rows, t.outbox + NewRows(b.events, at)))
  }

  predicate IsActive(r: BatchRow) {
    r.freshness != Expired && r.remainingQty > 0
  }

  predicate IsActiveIn(r: BatchRow, store: StoreId) {
    r.storeId == store && IsActive(r)
  }

  predicate IsAvailable(r: BatchRow, store: StoreId, ingredient: IngredientId) {
    r.storeId == store && r.ingredientId == ingredient && !r.writtenOff && IsActive(r)
  }

  /** reply is the answer of SELECT ... WHERE p, in some order: every matching row exactly once. */
  ghost predicate IsSelection(rows: Rows, p: BatchRow -> bool, reply: seq<BatchRow>) {
    && (forall r :: r in reply ==> r.id in rows && rows[r.id] == r && p(r))
    && (forall id :: id in rows && p(rows[id]) ==> rows[id] in reply)
    && (forall i, j :: 0 <= i < j < |reply| ==> reply[i].id != reply[j].id)
  }

  ghost predicate SortedByExpiry(reply: seq<BatchRow>) {
    forall i, j :: 0 <= i < j < |reply| ==> reply[i].expiresAt <= reply[j].expiresAt
  }

  /** The tables satisfy what every writer maintains: rows are filed under their id, with a positive version. */
  ghost predicate WellFiled(rows: Rows) {
    forall id :: id in rows ==> rows[id].id == id && rows[id].version >= 1
  }

  lemma EarliestExists(rows: Rows, ids: set<BatchId>)
    requires ids != {} && ids <= rows.Keys
    ensures exists id :: id in ids && forall other :: other in ids ==> rows[id].expiresAt <= rows[other].expiresAt
  {
    var id :| id in ids;
    if ids != {id} {
      var rest := ids - {id};
      EarliestExists(rows, rest);
      var e :| e in rest && forall other :: other in rest ==> rows[e].expiresAt <= rows[other].expiresAt;
      var best := if rows[e].expiresAt <= rows[id].expiresAt then e else id;
      assert forall other :: other in ids ==> other == id || other in rest;
      assert forall other :: other in ids ==> rows[best].expiresAt <= rows[other].expiresAt;
    }
  }

  /** A SELECT under way: the rows of todo are still to be listed. */
  ghost predicate Selecting(rows: Rows, p: BatchRow -> bool, reply: seq<BatchRow>, todo: set<BatchId>) {
    && (forall id :: id in todo ==> id in rows && p(rows[id]) && rows[id] !in reply)
    && (forall r :: r in reply ==> r.id in rows && rows[r.id] == r && p(r))
    && (forall id :: id in rows && p(rows[id]) ==> id in todo || rows[id] in reply)
    && (forall i, j :: 0 <= i < j < |reply| ==> reply[i].id != reply[j].id)
  }

  lemma SelectNext(rows: Rows, p: BatchRow -> bool, reply: seq<BatchRow>, todo: set<BatchId>, id: BatchId)
    requires WellFiled(rows) && Selecting(rows, p, reply, todo) && id in todo
    ensures Selecting(rows, p, reply + [rows[id]], todo - {id})
  {
  }

  ghost predicate NoneEarlier(rows: Rows, reply: seq<BatchRow>, todo: set<BatchId>) {
    forall r, id :: r in reply && id in todo ==> id in rows && r.expiresAt <= rows[id].expiresAt
  }

  lemma SortedNext(rows: Rows, reply: seq<BatchRow>, todo: set<BatchId>, id: BatchId)
    requires SortedByExpiry(reply) && NoneEarlier(rows, reply, todo) && todo <= rows.Keys
    requires id in todo && forall other :: other in todo ==> rows[id].expiresAt <= rows[other].expiresAt
    ensures SortedByExpiry(reply + [rows[id]]) && NoneEarlier(rows, reply + [rows[id]], todo - {id})
  {
  }

  /** A transaction's private view of the tables. */
  class Tx {
    var rows: Rows
    var outbox: seq<OutboxRow>

    function View(): Tables
      reads this
    {
      Tables(rows, outbox)
    }

    constructor (t: Tables)
      ensures View() == t
    {
      rows, outbox := t.rows, t.outbox;
    }

    method Save(b: Batch, refused: bool) returns (err: Option<Error>)
      modifies this
      ensures outbox == old(outbox)
      ensures match (if refused then Err(StoreFailure) else SaveRow(old(rows), b.Value()))
              case Ok(rows') => err == None && rows == rows'
              case Err(e) => err == Some(e) && rows == old(rows)
    {
      if refused {
        return Some(StoreFailure);
      }
      if b.id !in rows {
        rows := rows[b.id := InsertedRow(b.Value())];
        return None;
      }
      err := UpdateTx(b, false);
    }

    method UpdateTx(b: Batch, refused: bool) returns (err: Option<Error>)
      modifies this
      ensures outbox == old(outbox)
      ensures match (if refused then Err(StoreFailure) else UpdateRow(old(rows), b.Value()))
              case Ok(rows') => err == None && rows == rows'
              case Err(e) => err == Some(e) && rows == old(rows)
    {
      if refused {
        return Some(StoreFailure);
      }
      if b.id !in rows || rows[b.id].version != b.version {
        return Some(OptimisticLock);
      }
      rows := rows[b.id := UpdatedRow(rows[b.id], b.Value())];
      return None;
    }

    method PublishTx(events: seq<Event>, at: Time, f: Faults) returns (err: Option<Error>)
      modifies this
      ensures rows == old(rows)
      ensures err == if f.Publishes(|events|) then None else Some(StoreFailure)
      ensures err == None ==> outbox == old(outbox) + NewRows(events, at)
    {
      err, outbox := Publish(outbox, events, at, f);
    }
  }

  /** The committed tables. */
  class Database {
    var rows: Rows
    var outbox: seq<OutboxRow>

    function View(): Tables
      reads this
    {
      Tables(rows, outbox)
    }

    /** The end of RunTx: commit the staged tables, or roll back on an error. */
    method Finish(tx: Tx, err: Option<Error>, refused: bool) returns (outcome: Option<Error>)
      modifies this
      ensures outcome == (if err != None then err else if refused then Some(StoreFailure) else None)
      ensures View() == if outcome == None then tx.View() else old(View())
    {
      if err != None {
        return err;
      }
      if refused {
        return Some(StoreFailure);
      }
      rows, outbox := tx.rows, tx.outbox;
      return None;
    }

    /** Save outside any transaction: a single statement. */
    method Save(b: Batch, refused: bool) returns (err: Option<Error>)
      modifies this
      ensures outbox == old(outbox)
      ensures match (if refused then Err(StoreFailure) else SaveRow(old(rows), b.Value()))
              case Ok(rows') => err == None && rows == rows'
              case Err(e) => err == Some(e) && rows == old(rows)
    {
      var statement := new Tx(View());
      err := statement.Save(b, refused);
      rows := statement.rows;
    }

    method FindByID(id: BatchId) returns (r: Result<Batch>)
      ensures r.Ok? <==> id in rows
      ensures r.Ok? ==> fresh(r.value) && r.value.Value() == RowToBatch(rows[id])
      ensures r.Err? ==> r.error == BatchNotFound
    {
      if id !in rows {
        return Err(BatchNotFound);
      }
      var b := new Batch.Rehydrate(RowToBatch(rows[id]));
      return Ok(b);
    }

    /** SELECT ... WHERE p, in no particular order. */
    method Select(p: BatchRow -> bool) returns (reply: seq<BatchRow>)
      requires WellFiled(rows)
      ensures IsSelection(rows, p, reply)
    {
      reply := [];
      var todo := set id | id in rows && p(rows[id]);
      while todo != {}
        invariant Selecting(rows, p, reply, todo)
        decreases todo
      {
        var id :| id in todo;
        SelectNext(rows, p, reply, todo, id);
        todo := todo - {id};
        reply := reply + [rows[id]];
      }
    }

    /** SELECT ... WHERE p ORDER BY expires_at; ties come in any order. */
    method SelectByExpiry(p: BatchRow -> bool) returns (reply: seq<BatchRow>)
      requires WellFiled(rows)
      ensures IsSelection(rows, p, reply) && SortedByExpiry(reply)
    {
      reply := [];
      var todo := set id | id in rows && p(rows[id]);
      while todo != {}
        invariant Selecting(rows, p, reply, todo)
        invariant SortedByExpiry(reply) && NoneEarlier(rows, reply, todo)
        decreases todo
      {
        EarliestExists(rows, todo);
        var id :| id in todo && forall other :: other in todo ==> rows[id].expiresAt <= rows[other].expiresAt;
        SelectNext(rows, p, reply, todo, id);
        SortedNext(rows, reply, todo, id);
        todo := todo - {id};
        reply := reply + [rows[id]];
      }
    }

    method FindActive() returns (batches: seq<Batch>, ghost reply: seq<BatchRow>)
      requires WellFiled(rows)
      ensures IsSelection(rows, IsActive, reply)
      ensures Rehydrated(batches, reply)
      ensures forall id :: Lists(batches, id) <==>
                id in rows && rows[id].freshness != Expired && rows[id].remainingQty > 0
      ensures forall i :: 0 <= i < |batches| ==> fresh(batches[i])
    {
      var found := Select(IsActive);
      reply := found;
      batches := ScanBatches(found);
      SelectionLists(rows, IsActive, reply, batches);
    }

    method FindByStore(store: StoreId) returns (batches: seq<Batch>)
      requires WellFiled(rows)
      ensures AreSortedSelection(batches, rows, r => IsActiveIn(r, store))
      ensures forall id :: Lists(batches, id) <==>
                && id in rows && rows[id].storeId == store
                && rows[id].freshness != Expired && rows[id].remainingQty > 0
      ensures forall i, j :: 0 <= i < j < |batches| ==> batches[i].expiresAt <= batches[j].expiresAt
    {
      var inStore := r => IsActiveIn(r, store);
      var reply := SelectByExpiry(inStore);
      batches := ScanBatches(reply);
      SelectionLists(rows, inStore, reply, batches);
    }

    method FindAvailableByIngredient(store: StoreId, ingredient: IngredientId)
        returns (batches: seq<Batch>)
      requires WellFiled(rows)
      ensures AreSortedSelection(batches, rows, r => IsAvailable(r, store, ingredient))
      ensures forall id :: Lists(batches, id) <==>
                && id in rows && rows[id].storeId == store && rows[id].ingredientId == ingredient
                && !rows[id].writtenOff && rows[id].freshness != Expired && rows[id].remainingQty > 0
      ensures forall i, j :: 0 <= i < j < |batches| ==> batches[i].expiresAt <= batches[j].expiresAt
    {
      var usable := r => IsAvailable(r, store, ingredient);
      var reply := SelectByExpiry(usable);
      batches := ScanBatches(reply);
      SelectionLists(rows, usable, reply, batches);
    }
  }

  /** One distinct Batch object per row, in order. */
  ghost predicate Rehydrated(batches: seq<Batch>, reply: seq<BatchRow>)
    reads set i | 0 <= i < |batches| :: batches[i]
  {
    && |batches| == |reply|
    && (forall i :: 0 <= i < |reply| ==> batches[i].Value() == RowToBatch(reply[i]))
    && (forall i, j :: 0 <= i < j < |batches| ==> batches[i] != batches[j])
  }

  ghost predicate Lists(batches: seq<Batch>, id: BatchId)
    reads set i | 0 <= i < |batches| :: batches[i]
  {
    exists i :: 0 <= i < |batches| && batches[i].id == id
  }

  /** The batches listed are those of the rows satisfying the condition. */
  lemma SelectionLists(rows: Rows, p: BatchRow -> bool, reply: seq<BatchRow>, batches: seq<Batch>)
    requires WellFiled(rows) && IsSelection(rows, p, reply) && Rehydrated(batches, reply)
    ensures forall id :: Lists(batches, id) <==> id in rows && p(rows[id])
    ensures forall i :: 0 <= i < |batches| ==>
              batches[i].expiresAt == reply[i].expiresAt && batches[i].Value() == RowToBatch(rows[reply[i].id])
  {
    forall i | 0 <= i < |batches|
      ensures batches[i].id == reply[i].id && batches[i].expiresAt == reply[i].expiresAt && reply[i] in reply
    {
      assert batches[i].Value() == RowToBatch(reply[i]);
    }
    forall id
      ensures Lists(batches, id) <==> id in rows && p(rows[id])
    {
      if id in rows && p(rows[id]) {
        var i :| 0 <= i < |reply| && reply[i] == rows[id];
        assert batches[i].id == id;
      }
    }
  }

  /** One distinct object for every row satisfying p, earliest expiry first. */
  ghost predicate AreSortedSelection(batches: seq<Batch>, rows: Rows, p: BatchRow -> bool)
    reads set i | 0 <= i < |batches| :: batches[i]
  {
    exists reply :: IsSelection(rows, p, reply) && SortedByExpiry(reply) && Rehydrated(batches, reply)
  }

  method ScanBatches(reply: seq<BatchRow>) returns (batches: seq<Batch>)
    ensures Rehydrated(batches, reply)
    ensures forall i :: 0 <= i < |batches| ==> fresh(batches[i])
  {
    batches := [];
    for k := 0 to |reply|
      invariant Rehydrated(batches, reply[..k])
      invariant forall i :: 0 <= i < |batches| ==> fresh(batches[i])
    {
      var b := new Batch.Rehydrate(RowToBatch(reply[k]));
      batches := batches + [b];
    }
    assert reply[..|reply|] == reply;
  }
}
