/** Shared vocabulary: identifiers, time, errors and the domain events of all contexts. */
module Kernel {

  datatype Option<+T> = None | Some(value: T)

  /** A value or the error a Go function returns in its place. */
  datatype Result<+T> = Ok(value: T) | Err(error: Error) {
    predicate IsFailure() {
      Err?
    }

    function PropagateFailure<U>(): Result<U>
      requires Err?
    {
      Err(error)
    }

    function Extract(): T
      requires Ok?
    {
      value
    }
  }

  datatype Error =
    | BatchExpired
    | InsufficientBatch
    | BatchAlreadyExpired
    | BatchNotFound
    | OptimisticLock
    | InsufficientQty
    | OrderNotAllocated
    | DuplicateKey
    | OrderNotFound
    | OrderNotDraft
    | OrderNotConfirmed
    | OrderNotInProduction
    | OrderNotAssembled
    | OrderAlreadyCancelled
    | OrderAlreadyShipped
    | OrderItemNotFound
    | EmptyOrder
    | InsufficientStock
    | AvailabilityFailure
    | ReservationFailure
    | RecipeNotFound
    | PriceFailure
    | StoreFailure

  // Identifiers are UUIDs in the program; only their equality matters.
  datatype BatchId = BatchId(uuid: nat)
  datatype OrderId = OrderId(uuid: nat)
  datatype ItemId = ItemId(uuid: nat)
  datatype StoreId = StoreId(uuid: nat)
  datatype IngredientId = IngredientId(uuid: nat)
  datatype ProductId = ProductId(uuid: nat)

  datatype Money = Money(amount: int, currency: string)

  /** A nullable text column, and the empty string that stands for NULL in the aggregates. */
  function PtrStr(s: Option<string>): string {
    if s == None then "" else s.value
  }

  function NilableStr(s: string): Option<string> {
    if s == "" then None else Some(s)
  }

  /** Instants and durations, in nanoseconds. */
  type Time = int

  const HOUR: Time := 3_600_000_000_000
  const AGING_THRESHOLD: Time := 48 * HOUR
  const CRITICAL_THRESHOLD: Time := 24 * HOUR

  datatype Freshness = Fresh | Aging | Critical | Expired {
    function Rank(): nat {
      match this
      case Fresh => 0
      case Aging => 1
      case Critical => 2
      case Expired => 3
    }
  }

  datatype Event =
    | BatchReceivedEvent(batch: BatchId, ingredient: IngredientId, store: StoreId, qty: int)
    | BatchConsumedEvent(batch: BatchId, ingredient: IngredientId, store: StoreId,
                         qtyConsumed: int, remainingQty: int)
    | BatchWrittenOffEvent(batch: BatchId, qty: int, reason: string)
    | BatchFreshnessChangedEvent(batch: BatchId, newState: Freshness)
    | BatchExpiredEvent(batch: BatchId, ingredient: IngredientId, store: StoreId, wasted: int)
    | OrderCreatedEvent(order: OrderId)
    | OrderConfirmedEvent(order: OrderId)
    | OrderCancelledEvent(order: OrderId, reason: string, prevStatus: string)
  {
    /** The events of the inventory context. */
    predicate Inventory() {
      BatchReceivedEvent? || BatchConsumedEvent? || BatchWrittenOffEvent? ||
      BatchFreshnessChangedEvent? || BatchExpiredEvent?
    }
  }

  /** What the database refuses during one RunTx attempt: opening the transaction, the write of the
      aggregate, the outbox insert with a given number, or the commit. */
  datatype Faults = Faults(begin: bool, write: bool, refusedInsert: Option<nat>, commit: bool) {
    predicate Publishes(events: nat) {
      refusedInsert.None? || refusedInsert.value >= events
    }
  }

  const NO_FAULTS := Faults(false, false, None, false)
}
