/** The inventory command handlers and the freshness pass, each run without interference.
    InventoryProtocol interleaves their steps. */
module InventoryApplication {
  import opened Kernel
  import opened Outbox
  import opened InventoryDomain
  import opened InventoryStore

  /** Decide on a loaded batch, then commit: what a consume or write-off handler leaves behind. */
  function Withdraw(t: Tables, decided: Result<BatchValue>, f: Faults, at: Time): Result<Tables> {
    var b :- decided;
    CommitBatch(t, b, false, f, at)
  }

  function Load(t: Tables, id: BatchId): Result<BatchValue> {
    if id in t.rows then Ok(RowToBatch(t.rows[id])) else Err(BatchNotFound)
  }

  function ConsumeOutcome(t: Tables, id: BatchId, qty: int, f: Faults, at: Time): Result<Tables> {
    var b :- Load(t, id);
    Withdraw(t, b.Consume(qty), f, at)
  }

  function WriteOffOutcome(t: Tables, id: BatchId, qty: int, reason: string, f: Faults, at: Time): Result<Tables> {
    var b :- Load(t, id);
    Withdraw(t, b.Writeoff(qty, reason), f, at)
  }

  /** The RunTx callback shared by the handlers: write the batch, then publish what it recorded. */
  method RunTx(db: Database, b: Batch, isNew: bool, f: Faults, at: Time) returns (err: Option<Error>)
    modifies db, b
    ensures match CommitBatch(old(db.View()), old(b.Value()), isNew, f, at)
            case Ok(t) => err == None && db.View() == t
            case Err(e) => err == Some(e) && db.View() == old(db.View())
    ensures b.id == old(b.id)
  {
    if f.begin {
      return Some(StoreFailure);
    }
    var tx := new Tx(db.View());
    if isNew {
      err := tx.Save(b, f.write);
    } else {
      err := tx.UpdateTx(b, f.write);
    }
    if err == None {
      var events := b.PopEvents();
      if |events| > 0 {
        err := tx.PublishTx(events, at, f);
      }
    }
    err := db.Finish(tx, err, f.commit);
  }

  method ReceiveBatch(db: Database, id: BatchId, store: StoreId, ingredient: IngredientId, qty: int, price: Money,
                      receivedAt: Time, expiresAt: Time, f: Faults, at: Time) returns (r: Result<BatchId>)
    modifies db
    ensures match CommitBatch(old(db.View()),
                              NewBatch(id, store, ingredient, qty, price, receivedAt, expiresAt), true, f, at)
            case Ok(t) => r == Ok(id) && db.View() == t
            case Err(e) => r == Err(e) && db.View() == old(db.View())
  {
    var b := new Batch.New(id, store, ingredient, qty, price, receivedAt, expiresAt);
    var err := RunTx(db, b, true, f, at);
    r := if err == None then Ok(b.id) else Err(err.value);
  }

  method ConsumeBatch(db: Database, id: BatchId, qty: int, f: Faults, at: Time) returns (err: Option<Error>)
    modifies db
    ensures match ConsumeOutcome(old(db.View()), id, qty, f, at)
            case Ok(t) => err == None && db.View() == t
            case Err(e) => err == Some(e) && db.View() == old(db.View())
  {
    var found := db.FindByID(id);
    if found.Err? {
      return Some(found.error);
    }
    err := found.value.Consume(qty);
    if err == None {
      err := RunTx(db, found.value, false, f, at);
    }
  }

  method WriteOffBatch(db: Database, id: BatchId, qty: int, reason: string, f: Faults, at: Time)
      returns (err: Option<Error>)
    modifies db
    ensures match WriteOffOutcome(old(db.View()), id, qty, reason, f, at)
            case Ok(t) => err == None && db.View() == t
            case Err(e) => err == Some(e) && db.View() == old(db.View())
  {
    var found := db.FindByID(id);
    if found.Err? {
      return Some(found.error);
    }
    err := found.value.Writeoff(qty, reason);
    if err == None {
      err := RunTx(db, found.value, false, f, at);
    }
  }

  // ---------- The freshness pass ----------

  /** One iteration of the pass over a loaded batch. */
  function PassOne(rows: Rows, b: BatchValue, now: Time, refused: bool): Result<Rows> {
    match b.Recalculate(now)
    case None => Ok(rows)
    case Some(changed) => if refused then Err(StoreFailure) else SaveRow(rows, changed)
  }

  /** The loop of the pass: it stops at the first failed save. */
  function PassOver(rows: Rows, todo: seq<BatchValue>, now: Time, refused: set<BatchId>): (Rows, Option<Error>)
    decreases |todo|
  {
    if todo == [] then (rows, None)
    else
      match PassOne(rows, todo[0], now, todo[0].id in refused)
      case Ok(rows') => PassOver(rows', todo[1..], now, refused)
      case Err(e) => (rows, Some(e))
  }

  function Loaded(reply: seq<BatchRow>): (batches: seq<BatchValue>)
    ensures |batches| == |reply|
    ensures forall i :: 0 <= i < |reply| ==> batches[i] == RowToBatch(reply[i])
  {
    seq(|reply|, i requires 0 <= i < |reply| => RowToBatch(reply[i]))
  }

  /** A pass neither adds nor removes rows, and keeps them filed. */
  lemma {:induction false} PassKeepsFiling(rows: Rows, todo: seq<BatchValue>, now: Time, refused: set<BatchId>)
    requires WellFiled(rows) && forall b :: b in todo ==> b.id in rows
    ensures WellFiled(PassOver(rows, todo, now, refused).0)
    ensures PassOver(rows, todo, now, refused).0.Keys == rows.Keys
    decreases |todo|
  {
    if todo != [] {
      assert todo[0] in todo;
      match PassOne(rows, todo[0], now, todo[0].id in refused)
      case Ok(rows') => PassKeepsFiling(rows', todo[1..], now, refused);
      case Err(_) =>
    }
  }

  /** The switch in the loop body: moves the batch one step, or expires it. */
  method Transition(b: Batch, now: Time) returns (updated: bool)
    modifies b
    ensures match old(b.Value()).Recalculate(now)
            case Some(changed) => updated && b.Value() == changed
            case None => !updated && b.Value() == old(b.Value())
  {
    updated := false;
    if now > b.expiresAt {
      var alreadyExpired := b.Expire();
      updated := alreadyExpired == None;
    } else if b.freshness == Fresh && now > b.expiresAt - AGING_THRESHOLD {
      b.MarkAging();
      updated := true;
    } else if b.freshness == Aging && now > b.expiresAt - CRITICAL_THRESHOLD {
      b.MarkCritical();
      updated := true;
    }
  }

  /** The loop body: transition the batch, save it if it moved. */
  method Visit(db: Database, b: Batch, now: Time, refused: bool) returns (err: Option<Error>)
    modifies db, b
    ensures db.outbox == old(db.outbox)
    ensures match PassOne(old(db.rows), old(b.Value()), now, refused)
            case Ok(rows) => err == None && db.rows == rows
            case Err(e) => err == Some(e) && db.rows == old(db.rows)
  {
    err := None;
    var updated := Transition(b, now);
    if updated {
      err := db.Save(b, refused);
    }
  }

  /** RecalcFreshnessHandler.Handle. The outbox is not touched: nothing is published. */
  method RecalcFreshness(db: Database, now: Time, queryFails: bool, refused: set<BatchId>)
      returns (err: Option<Error>, ghost reply: seq<BatchRow>)
    requires WellFiled(db.rows)
    modifies db
    ensures db.outbox == old(db.outbox)
    ensures WellFiled(db.rows) && db.rows.Keys == old(db.rows.Keys)
    ensures queryFails ==> err == Some(StoreFailure) && db.rows == old(db.rows)
    ensures !queryFails ==> IsSelection(old(db.rows), IsActive, reply)
    ensures !queryFails ==> (db.rows, err) == PassOver(old(db.rows), Loaded(reply), now, refused)
  {
    if queryFails {
      return Some(StoreFailure), [];
    }
    var batches: seq<Batch>;
    batches, reply := db.FindActive();
    forall b | b in Loaded(reply)
      ensures b.id in db.rows
    {
      var i :| 0 <= i < |reply| && Loaded(reply)[i] == b;
      assert reply[i] in reply;
    }
    PassKeepsFiling(db.rows, Loaded(reply), now, refused);
    err := VisitAll(db, batches, Loaded(reply), now, refused);
  }

  method VisitAll(db: Database, batches: seq<Batch>, ghost todo: seq<BatchValue>, now: Time, refused: set<BatchId>)
      returns (err: Option<Error>)
    requires |batches| == |todo| && forall i :: 0 <= i < |batches| ==> batches[i].Value() == todo[i]
    requires forall i, j :: 0 <= i < j < |batches| ==> batches[i] != batches[j]
    modifies db, batches
    ensures db.outbox == old(db.outbox)
    ensures (db.rows, err) == PassOver(old(db.rows), todo, now, refused)
  {
    for i := 0 to |batches|
      invariant forall j :: i <= j < |batches| ==> batches[j].Value() == todo[j]
      invariant db.outbox == old(db.outbox)
      invariant PassOver(old(db.rows), todo, now, refused) == PassOver(db.rows, todo[i..], now, refused)
    {
      assert todo[i..][1..] == todo[i + 1..];
      err := Visit(db, batches[i], now, batches[i].id in refused);
      if err != None {
        return;
      }
    }
    err := None;
  }

  // ---------- What the handlers do, written out ----------

  /** A received batch reads back as received, one version up. */
  lemma InsertedRowReadsBack(b: BatchValue)
    ensures RowToBatch(InsertedRow(b)) == b.(version := b.version + 1, events := [])
  {
  }

  /** A commit needs no refusal: of the begin, the write, an event's insert or the commit. */
  lemma CommitNeedsNoFault(t: Tables, b: BatchValue, isNew: bool, f: Faults, at: Time)
    ensures CommitBatch(t, b, isNew, f, at).Ok? <==>
              && CommitBatch(t, b, isNew, NO_FAULTS, at).Ok?
              && !f.begin && !f.write && !f.commit
              && forall i :: 0 <= i < |b.events| ==> f.refusedInsert != Some(i)
    ensures CommitBatch(t, b, isNew, f, at).Ok? ==>
              CommitBatch(t, b, isNew, f, at) == CommitBatch(t, b, isNew, NO_FAULTS, at)
  {
  }

  /** Receiving under a free identifier stores a full, fresh row with each argument in its column, and one receipt. */
  lemma ReceiptIsStored(t: Tables, id: BatchId, store: StoreId, ingredient: IngredientId, qty: int, price: Money,
                        receivedAt: Time, expiresAt: Time, at: Time)
    requires id !in t.rows
    ensures CommitBatch(t, NewBatch(id, store, ingredient, qty, price, receivedAt, expiresAt), true, NO_FAULTS, at) ==
            Ok(Tables(
              t.rows[id := BatchRow(id, store, ingredient, qty, qty, price, receivedAt, expiresAt,
                                    Fresh, false, None, 1)],
              t.outbox + [OutboxRow(BatchReceivedEvent(id, ingredient, store, qty), Pending, 0, 5, at)]))
  {
    var b := NewBatch(id, store, ingredient, qty, price, receivedAt, expiresAt);
    assert NewRows(b.events, at) == [NewRow(b.events[0], at)];
  }

  /** The row after a withdrawal: less stock, one version up, an empty reason stored as NULL. */
  function RowAfter(r: BatchRow, qty: int): BatchRow {
    r.(remainingQty := r.remainingQty - qty,
       writeOffReason := if r.writeOffReason == Some("") then None else r.writeOffReason,
       version := r.version + 1)
  }

  /** Without faults a consumption goes through exactly on a stored batch that is not expired and has enough left;
      then the stock falls by the quantity and one event carries it with what is left. Each refusal has its error. */
  lemma ConsumeOutcomeIs(t: Tables, id: BatchId, qty: int, at: Time)
    requires WellFiled(t.rows)
    ensures ConsumeOutcome(t, id, qty, NO_FAULTS, at) ==
            if id !in t.rows then Err(BatchNotFound)
            else
              var r := t.rows[id];
              if r.freshness == Expired then Err(BatchExpired)
              else if qty > r.remainingQty then Err(InsufficientBatch)
              else
                var e := BatchConsumedEvent(id, r.ingredientId, r.storeId, qty, r.remainingQty - qty);
                Ok(Tables(t.rows[id := RowAfter(r, qty)], t.outbox + [OutboxRow(e, Pending, 0, 5, at)]))
  {
    if id in t.rows {
      var decided := RowToBatch(t.rows[id]).Consume(qty);
      if decided.Ok? {
        assert NewRows(decided.value.events, at) == [NewRow(decided.value.events[0], at)];
      }
    }
  }

  lemma WriteOffOutcomeIs(t: Tables, id: BatchId, qty: int, reason: string, at: Time)
    requires WellFiled(t.rows)
    ensures WriteOffOutcome(t, id, qty, reason, NO_FAULTS, at) ==
            if id !in t.rows then Err(BatchNotFound)
            else
              var r := t.rows[id];
              if r.freshness == Expired then Err(BatchExpired)
              else if qty > r.remainingQty then Err(InsufficientBatch)
              else
                Ok(Tables(t.rows[id := RowAfter(r, qty)],
                          t.outbox + [OutboxRow(BatchWrittenOffEvent(id, qty, reason), Pending, 0, 5, at)]))
  {
    if id in t.rows {
      var decided := RowToBatch(t.rows[id]).Writeoff(qty, reason);
      if decided.Ok? {
        assert NewRows(decided.value.events, at) == [NewRow(decided.value.events[0], at)];
      }
    }
  }

  /** A visit fails exactly when the batch has to move and its save is refused or finds another version. */
  lemma VisitFailsIff(rows: Rows, b: BatchValue, now: Time, refused: bool)
    requires b.id in rows
    ensures PassOne(rows, b, now, refused).Err? <==>
              b.Recalculate(now).Some? && (refused || rows[b.id].version != b.version)
    ensures PassOne(rows, b, now, refused).Err? ==>
              PassOne(rows, b, now, refused).error == if refused then StoreFailure else OptimisticLock
  {
  }

  /** The visits before k went through and left these rows; visit k failed. */
  ghost predicate FailsAt(rows: Rows, todo: seq<BatchValue>, now: Time, refused: set<BatchId>, k: nat, after: Rows,
                          e: Error)
  {
    && k < |todo|
    && PassOver(rows, todo[..k], now, refused) == (after, None)
    && PassOne(after, todo[k], now, todo[k].id in refused) == Err(e)
  }

  lemma FailsLater(rows: Rows, todo: seq<BatchValue>, now: Time, refused: set<BatchId>, k: nat, after: Rows, e: Error)
    requires todo != [] && PassOne(rows, todo[0], now, todo[0].id in refused).Ok?
    requires FailsAt(PassOne(rows, todo[0], now, todo[0].id in refused).value, todo[1..], now, refused, k, after, e)
    ensures FailsAt(rows, todo, now, refused, k + 1, after, e)
  {
    assert todo[..k + 1][1..] == todo[1..][..k];
  }

  /** A pass that fails keeps the saves made before the first failure, and makes none after it. */
  lemma {:induction false} PassStopsAtFirstFailure(rows: Rows, todo: seq<BatchValue>, now: Time, refused: set<BatchId>)
      returns (k: nat)
    requires PassOver(rows, todo, now, refused).1 != None
    ensures var (after, err) := PassOver(rows, todo, now, refused);
            FailsAt(rows, todo, now, refused, k, after, err.value)
    decreases |todo|
  {
    match PassOne(rows, todo[0], now, todo[0].id in refused)
    case Err(_) =>
      k := 0;
      assert todo[..0] == [];
    case Ok(rows') =>
      var later := PassStopsAtFirstFailure(rows', todo[1..], now, refused);
      var (after, err) := PassOver(rows', todo[1..], now, refused);
      FailsLater(rows, todo, now, refused, later, after, err.value);
      k := later + 1;
  }
}
