/** The Order aggregate: its lifecycle methods on values, the class performing them, and what every run
    of method calls keeps. */
module OrderDomain {
  import opened Kernel

  datatype OrderStatus = Draft | Confirmed | InProduction | Assembled | Shipped | Cancelled

  datatype Item = Item(id: ItemId, product: ProductId, qty: int, unitPrice: Money)

  datatype Customer = Customer(name: string, phone: string, email: string)

  /** Everything an Order object holds; totalPrice and notes are what the repository stores beside it. */
  datatype OrderValue = OrderValue(
    id: OrderId,
    storeId: StoreId,
    customer: Customer,
    totalPrice: Money,
    notes: string,
    items: seq<Item>,
    status: OrderStatus,
    version: int,
    createdAt: Option<Time>,
    confirmedAt: Option<Time>,
    cancelledAt: Option<Time>,
    events: seq<Event>)
  {
    function Record(e: Event): OrderValue {
      this.(events := events + [e])
    }

    function AddItem(item: Item): Result<OrderValue> {
      if status != Draft then Err(OrderNotDraft) else Ok(this.(items := items + [item]))
    }

    function RemoveItem(product: ProductId): Result<OrderValue> {
      if status != Draft then Err(OrderNotDraft)
      else
        var i := FirstIndex(items, product);
        if i == |items| then Err(OrderItemNotFound) else Ok(this.(items := items[..i] + items[i + 1..]))
    }

    function Confirm(now: Time): Result<OrderValue> {
      if status != Draft then Err(OrderNotDraft)
      else if items == [] then Err(EmptyOrder)
      else Ok(this.(status := Confirmed, confirmedAt := Some(now)).Record(OrderConfirmedEvent(id)))
    }

    function MarkInProduction(): Result<OrderValue> {
      if status != Confirmed then Err(OrderNotConfirmed) else Ok(this.(status := InProduction))
    }

    function MarkAssembled(): Result<OrderValue> {
      if status != InProduction then Err(OrderNotInProduction) else Ok(this.(status := Assembled))
    }

    function Ship(): Result<OrderValue> {
      if status != Assembled then Err(OrderNotAssembled) else Ok(this.(status := Shipped))
    }

    function Cancel(reason: string, now: Time): Result<OrderValue> {
      if status == Cancelled then Err(OrderAlreadyCancelled)
      else if status == Shipped then Err(OrderAlreadyShipped)
      else
        Ok(this.(status := Cancelled, cancelledAt := Some(now))
               .Record(OrderCancelledEvent(id, reason, StatusName(Cancelled))))
    }
  }

  function StatusName(s: OrderStatus): string {
    match s
    case Draft => "draft"
    case Confirmed => "confirmed"
    case InProduction => "in_production"
    case Assembled => "assembled"
    case Shipped => "shipped"
    case Cancelled => "cancelled"
  }

  /** The position of the first item of a product, or the length of the list. */
  function FirstIndex(items: seq<Item>, product: ProductId): (i: nat)
    ensures i <= |items|
    ensures i < |items| ==> items[i].product == product
    ensures forall j :: 0 <= j < i ==> items[j].product != product
  {
    if items == [] || items[0].product == product then 0 else 1 + FirstIndex(items[1..], product)
  }

  const NO_MONEY := Money(0, "")

  function NewOrder(id: OrderId, store: StoreId, customer: Customer, now: Time): OrderValue {
    OrderValue(id, store, customer, NO_MONEY, "", [], Draft, 0, Some(now), None, None, [OrderCreatedEvent(id)])
  }

  class Order {
    var id: OrderId
    var storeId: StoreId
    var customer: Customer
    var totalPrice: Money
    var notes: string
    var items: seq<Item>
    var status: OrderStatus
    var version: int
    var createdAt: Option<Time>
    var confirmedAt: Option<Time>
    var cancelledAt: Option<Time>
    var events: seq<Event>

    function Value(): OrderValue
      reads this
    {
      OrderValue(id, storeId, customer, totalPrice, notes, items, status, version,
                 createdAt, confirmedAt, cancelledAt, events)
    }

    constructor New(id: OrderId, store: StoreId, customer: Customer, now: Time)
      ensures Value() == NewOrder(id, store, customer, now)
    {
      this.id, storeId, this.customer, items, status, version := id, store, customer, [], Draft, 0;
      totalPrice, notes, createdAt := NO_MONEY, "", Some(now);
      confirmedAt, cancelledAt, events := None, None, [OrderCreatedEvent(id)];
    }

    constructor Rehydrate(v: OrderValue)
      ensures Value() == v
    {
      id, storeId, items, status, version := v.id, v.storeId, v.items, v.status, v.version;
      customer, totalPrice, notes, createdAt := v.customer, v.totalPrice, v.notes, v.createdAt;
      confirmedAt, cancelledAt, events := v.confirmedAt, v.cancelledAt, v.events;
    }

    method AddItem(item: Item) returns (err: Option<Error>)
      modifies this
      ensures match old(Value()).AddItem(item)
              case Ok(v) => err == None && Value() == v
              case Err(e) => err == Some(e) && Value() == old(Value())
    {
      if status != Draft {
        return Some(OrderNotDraft);
      }
      items := items + [item];
      return None;
    }

    method RemoveItem(product: ProductId) returns (err: Option<Error>)
      modifies this
      ensures match old(Value()).RemoveItem(product)
              case Ok(v) => err == None && Value() == v
              case Err(e) => err == Some(e) && Value() == old(Value())
    {
      if status != Draft {
        return Some(OrderNotDraft);
      }
      for i := 0 to |items|
        invariant Value() == old(Value())
        invariant forall j :: 0 <= j < i ==> items[j].product != product
      {
        if items[i].product == product {
          items := items[..i] + items[i + 1..];
          return None;
        }
      }
      return Some(OrderItemNotFound);
    }

    method Confirm(now: Time) returns (err: Option<Error>)
      modifies this
      ensures match old(Value()).Confirm(now)
              case Ok(v) => err == None && Value() == v
              case Err(e) => err == Some(e) && Value() == old(Value())
    {
      if status != Draft {
        return Some(OrderNotDraft);
      }
      if |items| == 0 {
        return Some(EmptyOrder);
      }
      status := Confirmed;
      confirmedAt := Some(now);
      events := events + [OrderConfirmedEvent(id)];
      return None;
    }

    method MarkInProduction() returns (err: Option<Error>)
      modifies this
      ensures match old(Value()).MarkInProduction()
              case Ok(v) => err == None && Value() == v
              case Err(e) => err == Some(e) && Value() == old(Value())
    {
      if status != Confirmed {
        return Some(OrderNotConfirmed);
      }
      status := InProduction;
      return None;
    }

    method MarkAssembled() returns (err: Option<Error>)
      modifies this
      ensures match old(Value()).MarkAssembled()
              case Ok(v) => err == None && Value() == v
              case Err(e) => err == Some(e) && Value() == old(Value())
    {
      if status != InProduction {
        return Some(OrderNotInProduction);
      }
      status := Assembled;
      return None;
    }

    method Ship() returns (err: Option<Error>)
      modifies this
      ensures match old(Value()).Ship()
              case Ok(v) => err == None && Value() == v
              case Err(e) => err == Some(e) && Value() == old(Value())
    {
      if status != Assembled {
        return Some(OrderNotAssembled);
      }
      status := Shipped;
      return None;
    }

    method Cancel(reason: string, now: Time) returns (err: Option<Error>)
      modifies this
      ensures match old(Value()).Cancel(reason, now)
              case Ok(v) => err == None && Value() == v
              case Err(e) => err == Some(e) && Value() == old(Value())
    {
      if status == Cancelled {
        return Some(OrderAlreadyCancelled);
      }
      if status == Shipped {
        return Some(OrderAlreadyShipped);
      }
      status := Cancelled;
      cancelledAt := Some(now);
      events := events + [OrderCancelledEvent(id, reason, StatusName(status))];
      return None;
    }

    method PopEvents() returns (popped: seq<Event>)
      modifies this
      ensures popped == old(events)
      ensures Value() == old(Value()).(events := [])
    {
      popped := events;
      events := [];
    }
  }

  // ---------- Every run of method calls ----------

  datatype Call =
    | AddItem(item: Item)
    | RemoveItem(product: ProductId)
    | Confirm(at: Time)
    | MarkInProduction
    | MarkAssembled
    | Ship
    | Cancel(reason: string, at: Time)

  function Try(o: OrderValue, call: Call): Result<OrderValue> {
    match call
    case AddItem(item) => o.AddItem(item)
    case RemoveItem(product) => o.RemoveItem(product)
    case Confirm(at) => o.Confirm(at)
    case MarkInProduction => o.MarkInProduction()
    case MarkAssembled => o.MarkAssembled()
    case Ship => o.Ship()
    case Cancel(reason, at) => o.Cancel(reason, at)
  }

  /** The order after a call; a refused call leaves it alone. */
  function After(o: OrderValue, call: Call): OrderValue {
    match Try(o, call)
    case Ok(o') => o'
    case Err(_) => o
  }

  function Run(o: OrderValue, calls: seq<Call>): OrderValue
    decreases |calls|
  {
    if calls == [] then o else Run(After(o, calls[0]), calls[1..])
  }

  /** The edges of the lifecycle graph. */
  predicate Edge(a: OrderStatus, b: OrderStatus) {
    || (a == Draft && b == Confirmed)
    || (a == Confirmed && b == InProduction)
    || (a == InProduction && b == Assembled)
    || (a == Assembled && b == Shipped)
    || (a in {Draft, Confirmed, InProduction, Assembled} && b == Cancelled)
  }

  function Stage(s: OrderStatus): nat {
    match s
    case Draft => 0
    case Confirmed => 1
    case InProduction => 2
    case Assembled => 3
    case Shipped => 4
    case Cancelled => 4
  }

  function Confirmations(events: seq<Event>, id: OrderId): nat {
    if events == [] then 0
    else Confirmations(events[..|events| - 1], id) +
         (if events[|events| - 1] == OrderConfirmedEvent(id) then 1 else 0)
  }

  function Cancellations(events: seq<Event>, id: OrderId): nat {
    if events == [] then 0
    else Cancellations(events[..|events| - 1], id) +
         (if events[|events| - 1].OrderCancelledEvent? && events[|events| - 1].order == id then 1 else 0)
  }

  lemma CountsAppend(events: seq<Event>, e: Event, id: OrderId)
    ensures Confirmations(events + [e], id) ==
            Confirmations(events, id) + (if e == OrderConfirmedEvent(id) then 1 else 0)
    ensures Cancellations(events + [e], id) ==
            Cancellations(events, id) + (if e.OrderCancelledEvent? && e.order == id then 1 else 0)
  {
    assert (events + [e])[..|events|] == events;
  }

  /** What every order reached by method calls satisfies. */
  ghost predicate Consistent(o: OrderValue) {
    && (o.status !in {Draft, Cancelled} ==> |o.items| >= 1)
    && Confirmations(o.events, o.id) == (if o.confirmedAt.Some? then 1 else 0)
    && Cancellations(o.events, o.id) == (if o.cancelledAt.Some? then 1 else 0)
    && (o.cancelledAt.Some? <==> o.status == Cancelled)
    && (o.status == Draft ==> o.confirmedAt.None?)
    && (o.status in {Confirmed, InProduction, Assembled, Shipped} ==> o.confirmedAt.Some?)
  }

  /** One call moves along an edge or not at all, changes items only in draft, leaves everything but status, items,
      the two timestamps and the events alone, and leaves shipped and cancelled orders alone altogether. */
  ghost predicate Advances(o: OrderValue, o': OrderValue) {
    && (o'.status == o.status || Edge(o.status, o'.status))
    && (o.status != Draft ==> o'.items == o.items && o'.confirmedAt == o.confirmedAt)
    && (o.status in {Shipped, Cancelled} ==> o' == o)
    && o' == o.(status := o'.status, items := o'.items, confirmedAt := o'.confirmedAt,
                cancelledAt := o'.cancelledAt, events := o'.events)
  }

  lemma CallAdvances(o: OrderValue, call: Call)
    requires Consistent(o)
    ensures Consistent(After(o, call)) && Advances(o, After(o, call))
  {
    if call.Confirm? {
      ConfirmKeepsConsistent(o, call.at);
    } else if call.Cancel? {
      CancelKeepsConsistent(o, call.reason, call.at);
    } else {
      CallKeepsEvents(o, call);
    }
  }

  lemma ConfirmKeepsConsistent(o: OrderValue, now: Time)
    requires Consistent(o)
    ensures Consistent(After(o, Confirm(now))) && Advances(o, After(o, Confirm(now)))
  {
    CountsAppend(o.events, OrderConfirmedEvent(o.id), o.id);
  }

  lemma CancelKeepsConsistent(o: OrderValue, reason: string, now: Time)
    requires Consistent(o)
    ensures Consistent(After(o, Cancel(reason, now))) && Advances(o, After(o, Cancel(reason, now)))
  {
    CountsAppend(o.events, OrderCancelledEvent(o.id, reason, StatusName(Cancelled)), o.id);
  }

  lemma CallKeepsEvents(o: OrderValue, call: Call)
    requires Consistent(o) && !call.Confirm? && !call.Cancel?
    ensures After(o, call).events == o.events
    ensures Consistent(After(o, call)) && Advances(o, After(o, call))
  {
  }

  /** The orders a run of calls passes through, first and last included. */
  function Trace(o: OrderValue, calls: seq<Call>): (trace: seq<OrderValue>)
    ensures |trace| == |calls| + 1 && trace[0] == o && trace[|calls|] == Run(o, calls)
    decreases |calls|
  {
    if calls == [] then [o] else [o] + Trace(After(o, calls[0]), calls[1..])
  }

  lemma {:induction false} TraceAdvances(o: OrderValue, calls: seq<Call>)
    requires Consistent(o)
    ensures forall k :: 0 <= k <= |calls| ==> Consistent(Trace(o, calls)[k])
    ensures forall k :: 0 <= k < |calls| ==> Advances(Trace(o, calls)[k], Trace(o, calls)[k + 1])
    decreases |calls|
  {
    if calls != [] {
      CallAdvances(o, calls[0]);
      TraceAdvances(After(o, calls[0]), calls[1..]);
      assert Trace(o, calls)[1..] == Trace(After(o, calls[0]), calls[1..]);
    }
  }

  /** Every run of method calls on a new order: the status history is a path of the lifecycle graph, a
      non-draft uncancelled order has an item, and the confirmed and cancelled events match the timestamps. */
  lemma LifecycleIsPath(id: OrderId, store: StoreId, customer: Customer, now: Time, calls: seq<Call>)
    ensures var trace := Trace(NewOrder(id, store, customer, now), calls);
            && (forall k :: 0 <= k <= |calls| ==> Consistent(trace[k]))
            && (forall k :: 0 <= k < |calls| ==>
                  trace[k + 1].status == trace[k].status || Edge(trace[k].status, trace[k + 1].status))
  {
    CountsAppend([], OrderCreatedEvent(id), id);
    assert [] + [OrderCreatedEvent(id)] == NewOrder(id, store, customer, now).events;
    TraceAdvances(NewOrder(id, store, customer, now), calls);
  }

  /** Items are frozen and the confirmation is fixed from the moment the order leaves draft; shipped and
      cancelled orders never change again. */
  lemma {:induction false} FrozenAfterDraft(o: OrderValue, calls: seq<Call>)
    requires o.status != Draft
    ensures Run(o, calls).items == o.items && Run(o, calls).confirmedAt == o.confirmedAt
    ensures Run(o, calls).status != Draft && Stage(o.status) <= Stage(Run(o, calls).status)
    ensures o.status in {Shipped, Cancelled} ==> Run(o, calls) == o
    decreases |calls|
  {
    if calls != [] {
      FrozenAfterDraft(After(o, calls[0]), calls[1..]);
    }
  }

  /** Cancel accepts every status but shipped and cancelled, in production and assembled included. */
  lemma CancelAcceptedIff(o: OrderValue, reason: string, now: Time)
    ensures o.Cancel(reason, now).Ok? <==> o.status != Cancelled && o.status != Shipped
    ensures o.Cancel(reason, now).Ok? <==> Edge(o.status, Cancelled)
  {
  }

  /** The cancelled event's PrevStatus is read after the status has changed, so it names the order's status before
      the call in no case: it always says cancelled. */
  lemma PrevStatusIsNeverPrevious(o: OrderValue, reason: string, now: Time)
    requires o.Cancel(reason, now).Ok?
    ensures var events := o.Cancel(reason, now).value.events;
            && |events| == |o.events| + 1
            && events[|o.events|] == OrderCancelledEvent(o.id, reason, "cancelled")
            && events[|o.events|].prevStatus != StatusName(o.status)
  {
  }

  // ---------- Each call, written out ----------

  /** Which item a removal takes: the first of the product, the others staying in order. */
  ghost predicate RemovesFirst(items: seq<Item>, product: ProductId, rest: seq<Item>, i: nat) {
    && i < |items| && items[i].product == product
    && (forall j :: 0 <= j < i ==> items[j].product != product)
    && rest == items[..i] + items[i + 1..]
  }

  /** What an accepted call makes of an order; nothing else changes. */
  ghost predicate IsOutcome(o: OrderValue, call: Call, o': OrderValue) {
    match call
    case AddItem(item) => o' == o.(items := o.items + [item])
    case RemoveItem(product) =>
      o' == o.(items := o'.items) && exists i: nat :: RemovesFirst(o.items, product, o'.items, i)
    case Confirm(at) =>
      o' == o.(status := Confirmed, confirmedAt := Some(at), events := o.events + [OrderConfirmedEvent(o.id)])
    case MarkInProduction => o' == o.(status := InProduction)
    case MarkAssembled => o' == o.(status := Assembled)
    case Ship => o' == o.(status := Shipped)
    case Cancel(reason, at) =>
      o' == o.(status := Cancelled, cancelledAt := Some(at),
               events := o.events + [OrderCancelledEvent(o.id, reason, "cancelled")])
  }

  /** The error of each call, or none where it is accepted. */
  ghost function Refusal(o: OrderValue, call: Call): Option<Error> {
    match call
    case AddItem(_) => if o.status == Draft then None else Some(OrderNotDraft)
    case RemoveItem(product) =>
      if o.status != Draft then Some(OrderNotDraft)
      else if exists item :: item in o.items && item.product == product then None
      else Some(OrderItemNotFound)
    case Confirm(_) =>
      if o.status != Draft then Some(OrderNotDraft) else if o.items == [] then Some(EmptyOrder) else None
    case MarkInProduction => if o.status == Confirmed then None else Some(OrderNotConfirmed)
    case MarkAssembled => if o.status == InProduction then None else Some(OrderNotInProduction)
    case Ship => if o.status == Assembled then None else Some(OrderNotAssembled)
    case Cancel(_, _) =>
      if o.status == Cancelled then Some(OrderAlreadyCancelled)
      else if o.status == Shipped then Some(OrderAlreadyShipped)
      else None
  }

  /** Every call on every order: accepted exactly when there is no refusal, with the outcome above; otherwise refused
      with that error. */
  lemma CallIs(o: OrderValue, call: Call)
    ensures match Refusal(o, call)
            case None => Try(o, call).Ok? && IsOutcome(o, call, Try(o, call).value)
            case Some(e) => Try(o, call) == Err(e)
  {
    if call.RemoveItem? && o.status == Draft {
      var i := FirstIndex(o.items, call.product);
      if i < |o.items| {
        assert o.items[i] in o.items;
        assert RemovesFirst(o.items, call.product, o.items[..i] + o.items[i + 1..], i);
      }
    }
  }

  /** A new order is an empty draft of the store for the customer, at version 0, with its created event. */
  lemma NewOrderIs(id: OrderId, store: StoreId, customer: Customer, now: Time)
    ensures var o := NewOrder(id, store, customer, now);
            && o.id == id && o.storeId == store && o.customer == customer && o.createdAt == Some(now)
            && o.items == [] && o.status == Draft && o.version == 0 && o.confirmedAt == None && o.cancelledAt == None
            && o.events == [OrderCreatedEvent(id)]
  {
  }
}
