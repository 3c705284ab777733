/** orders, order_items and outbox_events as the ordering context writes and reads them, and the
    confirmation handler. */
module OrderStore {
  import opened Kernel
  import opened Outbox
  import opened OrderDomain

  datatype Header = Header(storeId: StoreId, customer: Customer, status: OrderStatus, totalPrice: Money,
                           notes: Option<string>, version: int)

  datatype StoredItem = StoredItem(order: OrderId, item: Item)

  datatype Tables = Tables(orders: map<OrderId, Header>, items: map<ItemId, StoredItem>, outbox: seq<OutboxRow>)

  /** INSERT ... ON CONFLICT (id): an item already stored keeps its order, product, quantity and price. */
  function UpsertOne(items: map<ItemId, StoredItem>, id: OrderId, item: Item): map<ItemId, StoredItem> {
    if item.id in items then items else items[item.id := StoredItem(id, item)]
  }

  function UpsertItems(items: map<ItemId, StoredItem>, id: OrderId, list: seq<Item>): map<ItemId, StoredItem> {
    if list == [] then items
    else UpsertOne(UpsertItems(items, id, list[..|list| - 1]), id, list[|list| - 1])
  }

  ghost predicate ItemsFiled(items: map<ItemId, StoredItem>) {
    forall k :: k in items ==> items[k].item.id == k
  }

  ghost function ItemsOf(items: map<ItemId, StoredItem>, id: OrderId): set<Item> {
    set k | k in items && items[k].order == id :: items[k].item
  }

  /** reply is the answer of findItems, in some order. */
  ghost predicate IsItemReply(items: map<ItemId, StoredItem>, id: OrderId, reply: seq<Item>) {
    && (forall item :: item in reply <==> item in ItemsOf(items, id))
    && (forall i, j :: 0 <= i < j < |reply| ==> reply[i].id != reply[j].id)
  }

  lemma {:induction false} UpsertKeepsStored(items: map<ItemId, StoredItem>, id: OrderId, list: seq<Item>)
    requires ItemsFiled(items)
    ensures var items' := UpsertItems(items, id, list);
            && ItemsFiled(items')
            && (forall k :: k in items ==> k in items' && items'[k] == items[k])
            && (forall k :: k in items' && k !in items ==> items'[k].order == id && items'[k].item in list)
            && (forall item :: item in list ==> item.id in items')
  {
    if list != [] {
      UpsertKeepsStored(items, id, list[..|list| - 1]);
      assert list == list[..|list| - 1] + [list[|list| - 1]];
    }
  }

  /** Upserting touches no other order's items and loses none of this order's. */
  lemma UpsertFrames(items: map<ItemId, StoredItem>, id: OrderId, list: seq<Item>)
    requires ItemsFiled(items)
    ensures var items' := UpsertItems(items, id, list);
            && (forall other :: other != id ==> ItemsOf(items', other) == ItemsOf(items, other))
            && ItemsOf(items, id) <= ItemsOf(items', id)
            && ((forall item :: item in list ==> item.id in items) ==> items' == items)
  {
    UpsertKeepsStored(items, id, list);
    var items' := UpsertItems(items, id, list);
    forall other, item | item in ItemsOf(items, other)
      ensures item in ItemsOf(items', other)
    {
      var k :| k in items && items[k].order == other && items[k].item == item;
      assert items'[k] == items[k];
    }
    forall other, item | other != id && item in ItemsOf(items', other)
      ensures item in ItemsOf(items, other)
    {
      var k :| k in items' && items'[k].order == other && items'[k].item == item;
      assert k in items;
    }
  }

  /** RehydrateOrder: the timestamps and events are not stored. */
  function Rebuild(id: OrderId, h: Header, items: seq<Item>): OrderValue {
    OrderValue(id, h.storeId, h.customer, h.totalPrice, PtrStr(h.notes), items, h.status, h.version,
               None, None, None, [])
  }

  /** The columns the UPDATE sets; the currency is not among them. */
  function UpdatedHeader(h: Header, o: OrderValue): Header {
    h.(status := o.status,
       totalPrice := Money(o.totalPrice.amount, h.totalPrice.currency),
       notes := NilableStr(o.notes),
       version := h.version + 1)
  }

  /** An update that changes the status only; an empty note becomes NULL. */
  function WithStatus(h: Header, status: OrderStatus): Header {
    h.(status := status, notes := NilableStr(PtrStr(h.notes)), version := h.version + 1)
  }

  /** One RunTx attempt: UpdateTx of the order, then PublishTx of what it recorded. */
  function CommitOrder(t: Tables, o: OrderValue, f: Faults, at: Time): Result<Tables> {
    if f.begin || f.write then Err(StoreFailure)
    else if o.id !in t.orders || t.orders[o.id].version != o.version then Err(OptimisticLock)
    else if !f.Publishes(|o.events|) || f.commit then Err(StoreFailure)
    else
      Ok(Tables(t.orders[o.id := UpdatedHeader(t.orders[o.id], o)],
                UpsertItems(t.items, o.id, o.items),
                t.outbox + NewRows(o.events, at)))
  }

  function NewHeader(o: OrderValue): Header {
    Header(o.storeId, o.customer, o.status, o.totalPrice, NilableStr(o.notes), o.version)
  }

  /** SaveTx of an order; its order.created event is not published. */
  function PlaceOrder(t: Tables, o: OrderValue): Result<Tables> {
    if o.id in t.orders then Err(DuplicateKey)
    else
      Ok(t.(orders := t.orders[o.id := NewHeader(o)], items := UpsertItems(t.items, o.id, o.items)))
  }

  function EventsOf(o: seq<OutboxRow>): (events: seq<Event>)
    ensures |events| == |o| && forall i :: 0 <= i < |o| ==> events[i] == o[i].event
  {
    seq(|o|, i requires 0 <= i < |o| => o[i].event)
  }

  // ---------- ConfirmOrderHandler ----------

  datatype Availability = AvailableNow | AvailableWithSubstitution | PreorderOnly | Unavailable | CheckFailed {
    predicate CanConfirm() {
      AvailableNow? || AvailableWithSubstitution?
    }
  }

  /** The error of the first item that cannot be confirmed, in the order of the list. */
  function FirstRefusal(items: seq<Item>, stock: Item -> Availability): Option<Error> {
    if items == [] then None
    else if stock(items[0]) == CheckFailed then Some(AvailabilityFailure)
    else if !stock(items[0]).CanConfirm() then Some(InsufficientStock)
    else FirstRefusal(items[1..], stock)
  }

  lemma {:induction false} NoRefusalIff(items: seq<Item>, stock: Item -> Availability)
    ensures FirstRefusal(items, stock) == None <==> forall item :: item in items ==> stock(item).CanConfirm()
  {
    if items != [] {
      NoRefusalIff(items[1..], stock);
      assert items == [items[0]] + items[1..];
    }
  }

  /** Item i is the first that is not available, now or with a substitution, and gives the error: a failed check its
      own, a preorder or an unavailable product insufficient stock. */
  ghost predicate RefusedAt(items: seq<Item>, stock: Item -> Availability, i: nat, e: Error) {
    && i < |items|
    && (forall j :: 0 <= j < i ==> stock(items[j]) == AvailableNow || stock(items[j]) == AvailableWithSubstitution)
    && match stock(items[i])
       case CheckFailed => e == AvailabilityFailure
       case PreorderOnly => e == InsufficientStock
       case Unavailable => e == InsufficientStock
       case _ => false
  }

  lemma {:induction false} FirstRefusalIs(items: seq<Item>, stock: Item -> Availability) returns (i: nat)
    ensures FirstRefusal(items, stock).Some? ==> RefusedAt(items, stock, i, FirstRefusal(items, stock).value)
    ensures FirstRefusal(items, stock).None? ==>
              forall item :: item in items ==>
                stock(item) == AvailableNow || stock(item) == AvailableWithSubstitution
  {
    i := 0;
    if items != [] && (stock(items[0]) == AvailableNow || stock(items[0]) == AvailableWithSubstitution) {
      i := FirstRefusalIs(items[1..], stock);
      assert items == [items[0]] + items[1..];
      i := i + 1;
    }
  }

  /** The RunTx callback of the handler and its transaction: reserve, confirm, update, publish, commit. */
  function ConfirmTx(t: Tables, o: OrderValue, reserved: bool, f: Faults, now: Time): Result<Tables> {
    if f.begin then Err(StoreFailure)
    else if !reserved then Err(ReservationFailure)
    else
      var confirmed :- o.Confirm(now);
      CommitOrder(t, confirmed, f, now)
  }

  /** The handler on an order it has loaded, with its errors in the order of its checks. */
  function ConfirmOutcome(t: Tables, o: OrderValue, stock: Item -> Availability, reserved: bool, f: Faults,
                          now: Time): Result<Tables>
  {
    if o.status != Draft then Err(OrderNotDraft)
    else
      match FirstRefusal(o.items, stock)
      case Some(e) => Err(e)
      case None => ConfirmTx(t, o, reserved, f, now)
  }

  /** On an order as stored, the handler succeeds exactly for a draft with items, each available now or with a
      substitution, with the reservation granted and nothing refused by the database; it then stores the order
      confirmed, one version up, with its items as they were and one order.confirmed. */
  lemma ConfirmSucceedsIff(t: Tables, o: OrderValue, stock: Item -> Availability, reserved: bool, f: Faults, now: Time)
    requires ItemsFiled(t.items) && o.id in t.orders && IsItemReply(t.items, o.id, o.items)
    requires o == Rebuild(o.id, t.orders[o.id], o.items)
    ensures ConfirmOutcome(t, o, stock, reserved, f, now).Ok? <==>
              && o.status == Draft && o.items != []
              && (forall item :: item in o.items ==>
                    stock(item) == AvailableNow || stock(item) == AvailableWithSubstitution)
              && reserved
              && !f.begin && !f.write && f.refusedInsert != Some(0) && !f.commit
    ensures ConfirmOutcome(t, o, stock, reserved, f, now).Ok? ==>
              ConfirmOutcome(t, o, stock, reserved, f, now).value ==
              Tables(t.orders[o.id := t.orders[o.id].(status := Confirmed,
                                                      notes := if o.notes == "" then None else Some(o.notes),
                                                      version := o.version + 1)],
                     t.items,
                     t.outbox + [OutboxRow(OrderConfirmedEvent(o.id), Pending, 0, 5, now)])
  {
    var i := FirstRefusalIs(o.items, stock);
    assert FirstRefusal(o.items, stock).Some? ==> o.items[i] in o.items;
    StoredItemsUpsertNothing(t.items, o.id, o.items);
    ConfirmRecordsOne(o, now);
  }

  /** The errors, in the order of the checks: not a draft; the first refused item; no transaction; no reservation; no
      items; a refused statement. */
  lemma ConfirmErrors(t: Tables, o: OrderValue, stock: Item -> Availability, reserved: bool, f: Faults, now: Time)
    requires o.id in t.orders && o.version == t.orders[o.id].version && o.events == []
    requires ConfirmOutcome(t, o, stock, reserved, f, now).Err?
    ensures var e := ConfirmOutcome(t, o, stock, reserved, f, now).error;
            if o.status != Draft then e == OrderNotDraft
            else if exists item :: item in o.items && stock(item) in {PreorderOnly, Unavailable, CheckFailed}
            then exists i: nat :: RefusedAt(o.items, stock, i, e)
            else if f.begin then e == StoreFailure
            else if !reserved then e == ReservationFailure
            else if o.items == [] then e == EmptyOrder
            else e == StoreFailure
  {
    var i := FirstRefusalIs(o.items, stock);
    assert FirstRefusal(o.items, stock).Some? ==> o.items[i] in o.items;
  }

  lemma ConfirmRecordsOne(o: OrderValue, now: Time)
    requires o.events == []
    ensures o.Confirm(now).Ok? ==>
              var o' := o.Confirm(now).value;
              && o'.status == Confirmed && |o'.events| == 1
              && NewRows(o'.events, now) == [NewRow(OrderConfirmedEvent(o.id), now)]
  {
    if o.Confirm(now).Ok? {
      assert o.Confirm(now).value.events == [OrderConfirmedEvent(o.id)];
    }
  }

  class Database {
    var orders: map<OrderId, Header>
    var items: map<ItemId, StoredItem>
    var outbox: seq<OutboxRow>

    function View(): Tables
      reads this
    {
      Tables(orders, items, outbox)
    }

    constructor (t: Tables)
      ensures View() == t
    {
      orders, items, outbox := t.orders, t.items, t.outbox;
    }

    /** Reads the header, then the items, in an arbitrary order. */
    method FindByID(id: OrderId) returns (r: Result<Order>)
      requires ItemsFiled(items)
      ensures r.Ok? <==> id in orders
      ensures r.Err? ==> r.error == OrderNotFound
      ensures r.Ok? ==> fresh(r.value) && IsItemReply(items, id, r.value.items) &&
                        r.value.Value() == Rebuild(id, orders[id], r.value.items)
    {
      if id !in orders {
        return Err(OrderNotFound);
      }
      var reply := FindItems(id);
      var o := new Order.Rehydrate(Rebuild(id, orders[id], reply));
      return Ok(o);
    }

    method FindItems(id: OrderId) returns (reply: seq<Item>)
      requires ItemsFiled(items)
      ensures IsItemReply(items, id, reply)
    {
      reply := [];
      var todo := set k | k in items && items[k].order == id;
      while todo != {}
        invariant forall k :: k in todo ==> k in items && items[k].order == id && items[k].item !in reply
        invariant forall item :: item in reply ==> item.id in items && items[item.id] == StoredItem(id, item)
        invariant forall k :: k in items && items[k].order == id ==> k in todo || items[k].item in reply
        invariant forall i, j :: 0 <= i < j < |reply| ==> reply[i].id != reply[j].id
        decreases todo
      {
        var k :| k in todo;
        todo := todo - {k};
        reply := reply + [items[k].item];
      }
    }

    method UpdateTx(o: Order, refused: bool) returns (err: Option<Error>)
      modifies this
      ensures outbox == old(outbox)
      ensures refused ==> err == Some(StoreFailure)
      ensures !refused && !(o.id in old(orders) && old(orders)[o.id].version == o.version) ==>
                err == Some(OptimisticLock)
      ensures !refused && o.id in old(orders) && old(orders)[o.id].version == o.version ==>
                && err == None
                && orders == old(orders)[o.id := UpdatedHeader(old(orders)[o.id], o.Value())]
                && items == UpsertItems(old(items), o.id, o.items)
    {
      if refused {
        return Some(StoreFailure);
      }
      if o.id !in orders || orders[o.id].version != o.version {
        return Some(OptimisticLock);
      }
      orders := orders[o.id := UpdatedHeader(orders[o.id], o.Value())];
      for i := 0 to |o.items|
        invariant outbox == old(outbox)
        invariant orders == old(orders)[o.id := UpdatedHeader(old(orders)[o.id], o.Value())]
        invariant items == UpsertItems(old(items), o.id, o.items[..i])
      {
        assert o.items[..i + 1][..i] == o.items[..i];
        items := UpsertOne(items, o.id, o.items[i]);
      }
      assert o.items[..|o.items|] == o.items;
      return None;
    }

    method PublishTx(events: seq<Event>, at: Time, f: Faults) returns (err: Option<Error>)
      modifies this`outbox
      ensures err == if f.Publishes(|events|) then None else Some(StoreFailure)
      ensures err == None ==> outbox == old(outbox) + NewRows(events, at)
    {
      err, outbox := Publish(outbox, events, at, f);
    }

    /** The RunTx callback of the handler: reserve, confirm, update, publish. */
    method ConfirmInTx(o: Order, reserved: bool, f: Faults, now: Time) returns (err: Option<Error>)
      modifies this, o
      ensures match ConfirmTx(old(View()), old(o.Value()), reserved, f, now)
              case Ok(t) => err == None && View() == t
              case Err(e) => err == Some(e) && View() == old(View())
    {
      if f.begin {
        return Some(StoreFailure);
      }
      if !reserved {
        return Some(ReservationFailure);
      }
      var tx := new Database(View());
      err := o.Confirm(now);
      if err == None {
        err := tx.UpdateTx(o, f.write);
      }
      if err == None {
        var events := o.PopEvents();
        if |events| > 0 {
          err := tx.PublishTx(events, now, f);
        }
      }
      if err == None && f.commit {
        err := Some(StoreFailure);
      }
      if err == None {
        orders, items, outbox := tx.orders, tx.items, tx.outbox;
      }
    }

    /** ConfirmOrderHandler.Handle without interference; ConfirmSucceedsIff says when it succeeds. */
    method ConfirmOrder(id: OrderId, stock: Item -> Availability, reserved: bool, f: Faults, now: Time)
        returns (err: Option<Error>, ghost loaded: Option<OrderValue>)
      requires ItemsFiled(items)
      modifies this
      ensures loaded.Some? <==> id in old(orders)
      ensures loaded.None? ==> err == Some(OrderNotFound) && View() == old(View())
      ensures loaded.Some? ==> IsItemReply(old(items), id, loaded.value.items) &&
                               loaded.value == Rebuild(id, old(orders)[id], loaded.value.items)
      ensures loaded.Some? ==>
                match ConfirmOutcome(old(View()), loaded.value, stock, reserved, f, now)
                case Ok(t) => err == None && View() == t
                case Err(e) => err == Some(e) && View() == old(View())
    {
      var found := FindByID(id);
      if found.Err? {
        return Some(found.error), None;
      }
      var o := found.value;
      loaded := Some(o.Value());
      if o.status != Draft {
        return Some(OrderNotDraft), loaded;
      }
      for i := 0 to |o.items|
        invariant View() == old(View())
        invariant loaded == Some(o.Value())
        invariant FirstRefusal(o.items, stock) == FirstRefusal(o.items[i..], stock)
      {
        var answer := stock(o.items[i]);
        if answer == CheckFailed {
          return Some(AvailabilityFailure), loaded;
        }
        if !answer.CanConfirm() {
          return Some(InsufficientStock), loaded;
        }
        assert o.items[i..][1..] == o.items[i + 1..];
      }
      err := ConfirmInTx(o, reserved, f, now);
    }
  }

  lemma StoredItemsUpsertNothing(items: map<ItemId, StoredItem>, id: OrderId, list: seq<Item>)
    requires ItemsFiled(items) && forall item :: item in list ==> item in ItemsOf(items, id)
    ensures UpsertItems(items, id, list) == items
  {
    UpsertFrames(items, id, list);
  }

  /** A placed order's header reads back: everything but the timestamps and the events. */
  lemma PlacedHeaderReadsBack(o: OrderValue)
    ensures Rebuild(o.id, NewHeader(o), o.items) ==
            o.(createdAt := None, confirmedAt := None, cancelledAt := None, events := [])
  {
  }

  /** An updated header reads back with the status, amount and notes of the copy, one version up; store, customer and
      currency stay as they were stored. */
  lemma UpdatedHeaderReadsBack(h: Header, o: OrderValue)
    ensures var back := Rebuild(o.id, UpdatedHeader(h, o), o.items);
            && back.status == o.status && back.notes == o.notes && back.version == h.version + 1
            && back.totalPrice == Money(o.totalPrice.amount, h.totalPrice.currency)
            && back.storeId == h.storeId && back.customer == h.customer
  {
  }

  /** A commit needs the stored version and no refusal: of the begin, the update, an event's insert or the commit. */
  lemma CommitOrderIff(t: Tables, o: OrderValue, f: Faults, at: Time)
    ensures CommitOrder(t, o, f, at).Ok? <==>
              && o.id in t.orders && t.orders[o.id].version == o.version
              && !f.begin && !f.write && !f.commit
              && forall i :: 0 <= i < |o.events| ==> f.refusedInsert != Some(i)
  {
  }
}
