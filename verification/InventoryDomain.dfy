/** The inventory Batch aggregate: its operations on values, and the class that performs them in place. */
module InventoryDomain {
  import opened Kernel

  /** Everything a Batch object holds. */
  datatype BatchValue = BatchValue(
    id: BatchId,
    storeId: StoreId,
    ingredientId: IngredientId,
    receivedQty: int,
    remainingQty: int,
    purchasePrice: Money,
    receivedAt: Time,
    expiresAt: Time,
    freshness: Freshness,
    writtenOff: bool,
    writeOffReason: string,
    version: int,
    events: seq<Event>)
  {
    function Record(e: Event): BatchValue {
      this.(events := events + [e])
    }

    function Consume(qty: int): Result<BatchValue> {
      if freshness == Expired then Err(BatchExpired)
      else if qty > remainingQty then Err(InsufficientBatch)
      else
        Ok(this.(remainingQty := remainingQty - qty)
               .Record(BatchConsumedEvent(id, ingredientId, storeId, qty, remainingQty - qty)))
    }

    function Writeoff(qty: int, reason: string): Result<BatchValue> {
      if freshness == Expired then Err(BatchExpired)
      else if qty > remainingQty then Err(InsufficientBatch)
      else
        Ok(this.(remainingQty := remainingQty - qty).Record(BatchWrittenOffEvent(id, qty, reason)))
    }

    function MarkAging(): BatchValue {
      if freshness == Fresh
      then this.(freshness := Aging).Record(BatchFreshnessChangedEvent(id, Aging))
      else this
    }

    function MarkCritical(): BatchValue {
      if freshness == Aging || freshness == Fresh then this.(freshness := Critical) else this
    }

    function Expire(): Result<BatchValue> {
      if freshness == Expired then Err(BatchAlreadyExpired)
      else
        Ok(this.(freshness := Expired)
               .Record(BatchExpiredEvent(id, ingredientId, storeId, remainingQty)))
    }

    /** The switch of the freshness pass: Some(changed batch), or None when nothing is to be saved. */
    function Recalculate(now: Time): Option<BatchValue> {
      if now > expiresAt then
        match Expire() { case Ok(b) => Some(b) case Err(_) => None }
      else if freshness == Fresh && now > expiresAt - AGING_THRESHOLD then Some(MarkAging())
      else if freshness == Aging && now > expiresAt - CRITICAL_THRESHOLD then Some(MarkCritical())
      else None
    }
  }

  function NewBatch(id: BatchId, store: StoreId, ingredient: IngredientId, qty: int, price: Money,
                    receivedAt: Time, expiresAt: Time): BatchValue
  {
    BatchValue(id, store, ingredient, qty, qty, price, receivedAt, expiresAt, Fresh, false, "", 0,
               [BatchReceivedEvent(id, ingredient, store, qty)])
  }

  ghost predicate WithinReceived(b: BatchValue) {
    b.remainingQty <= b.receivedQty
  }

  /** No withdrawal of the quantity takes an accepting batch out of its bound. */
  ghost predicate IsSafeToConsume(qty: int) {
    forall b: BatchValue :: WithinReceived(b) && b.Consume(qty).Ok? ==> WithinReceived(b.Consume(qty).value)
  }

  ghost predicate IsSafeToWriteOff(qty: int) {
    forall b: BatchValue, reason :: WithinReceived(b) && b.Writeoff(qty, reason).Ok? ==>
                                      WithinReceived(b.Writeoff(qty, reason).value)
  }

  /** Nothing rejects a negative quantity. Over all batches within their bound, the quantities that keep every
      accepting one within it are exactly those >= 0, for both withdrawals: a full batch shows the converse. */
  lemma QtyIsSafeIff(qty: int)
    ensures IsSafeToConsume(qty) <==> qty >= 0
    ensures IsSafeToWriteOff(qty) <==> qty >= 0
  {
    var full := NewBatch(BatchId(0), StoreId(0), IngredientId(0), 1, Money(0, ""), 0, 0);
    if qty < 0 {
      assert WithinReceived(full) && full.Consume(qty).Ok? && !WithinReceived(full.Consume(qty).value);
      assert full.Writeoff(qty, "").Ok? && !WithinReceived(full.Writeoff(qty, "").value);
    }
  }

  /** The three marks from every class: where they lead, and what they record. */
  lemma MarksAre(b: BatchValue)
    ensures b.MarkAging() == if b.freshness == Fresh
                             then b.(freshness := Aging, events := b.events + [BatchFreshnessChangedEvent(b.id, Aging)])
                             else b
    ensures b.MarkCritical() == if b.freshness in {Fresh, Aging} then b.(freshness := Critical) else b
    ensures b.Expire() == if b.freshness == Expired then Err(BatchAlreadyExpired)
                          else Ok(b.(freshness := Expired,
                                     events := b.events +
                                       [BatchExpiredEvent(b.id, b.ingredientId, b.storeId, b.remainingQty)]))
  {
  }

  class Batch {
    var id: BatchId
    var storeId: StoreId
    var ingredientId: IngredientId
    var receivedQty: int
    var remainingQty: int
    var purchasePrice: Money
    var receivedAt: Time
    var expiresAt: Time
    var freshness: Freshness
    var version: int
    var writtenOff: bool
    var writeOffReason: string
    var events: seq<Event>

    function Value(): BatchValue
      reads this
    {
      BatchValue(id, storeId, ingredientId, receivedQty, remainingQty, purchasePrice, receivedAt,
                 expiresAt, freshness, writtenOff, writeOffReason, version, events)
    }

    constructor New(id: BatchId, store: StoreId, ingredient: IngredientId, qty: int, price: Money,
                    receivedAt: Time, expiresAt: Time)
      ensures Value() == NewBatch(id, store, ingredient, qty, price, receivedAt, expiresAt)
    {
      this.id, storeId, ingredientId := id, store, ingredient;
      receivedQty, remainingQty, purchasePrice := qty, qty, price;
      this.receivedAt, this.expiresAt, freshness := receivedAt, expiresAt, Fresh;
      version, writtenOff, writeOffReason := 0, false, "";
      events := [];
      new;
      RecordEvent(BatchReceivedEvent(id, ingredient, store, qty));
    }

    constructor Rehydrate(v: BatchValue)
      ensures Value() == v.(events := [])
    {
      id, storeId, ingredientId := v.id, v.storeId, v.ingredientId;
      receivedQty, remainingQty, purchasePrice := v.receivedQty, v.remainingQty, v.purchasePrice;
      receivedAt, expiresAt, freshness := v.receivedAt, v.expiresAt, v.freshness;
      version, writtenOff, writeOffReason := v.version, v.writtenOff, v.writeOffReason;
      events := [];
    }

    method Consume(qty: int) returns (err: Option<Error>)
      modifies this
      ensures match old(Value()).Consume(qty)
              case Ok(v) => err == None && Value() == v
              case Err(e) => err == Some(e) && Value() == old(Value())
    {
      if freshness == Expired {
        return Some(BatchExpired);
      }
      if qty > remainingQty {
        return Some(InsufficientBatch);
      }
      remainingQty := remainingQty - qty;
      RecordEvent(BatchConsumedEvent(id, ingredientId, storeId, qty, remainingQty));
      return None;
    }

    method Writeoff(qty: int, reason: string) returns (err: Option<Error>)
      modifies this
      ensures match old(Value()).Writeoff(qty, reason)
              case Ok(v) => err == None && Value() == v
              case Err(e) => err == Some(e) && Value() == old(Value())
    {
      if freshness == Expired {
        return Some(BatchExpired);
      }
      if qty > remainingQty {
        return Some(InsufficientBatch);
      }
      remainingQty := remainingQty - qty;
      RecordEvent(BatchWrittenOffEvent(id, qty, reason));
      return None;
    }

    method MarkAging()
      modifies this
      ensures Value() == old(Value()).MarkAging()
    {
      if freshness == Fresh {
        freshness := Aging;
        RecordEvent(BatchFreshnessChangedEvent(id, Aging));
      }
    }

    method MarkCritical()
      modifies this
      ensures Value() == old(Value()).MarkCritical()
    {
      if freshness == Aging || freshness == Fresh {
        freshness := Critical;
      }
    }

    method Expire() returns (err: Option<Error>)
      modifies this
      ensures match old(Value()).Expire()
              case Ok(v) => err == None && Value() == v
              case Err(e) => err == Some(e) && Value() == old(Value())
    {
      if freshness == Expired {
        return Some(BatchAlreadyExpired);
      }
      freshness := Expired;
      RecordEvent(BatchExpiredEvent(id, ingredientId, storeId, remainingQty));
      return None;
    }

    method PopEvents() returns (popped: seq<Event>)
      modifies this
      ensures popped == old(events)
      ensures Value() == old(Value()).(events := [])
    {
      popped := events;
      events := [];
    }

    method RecordEvent(e: Event)
      modifies this
      ensures Value() == old(Value()).Record(e)
    {
      events := events + [e];
    }
  }
}
