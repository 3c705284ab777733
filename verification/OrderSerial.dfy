/** Orders behave as if each committed call had been applied atomically to the stored order, one after another. */
module OrderSerial {
  import opened Kernel
  import opened Outbox
  import opened OrderStore
  import opened OrderProtocol
  import Domain = OrderDomain

  datatype Serial = Serial(orders: map<OrderId, Header>, items: map<ItemId, StoredItem>, events: seq<Event>)

  ghost function Abs(t: Tables): Serial {
    Serial(t.orders, t.items, ContextEvents(t.outbox, false))
  }

  /** The status a call leads to, from the stored status and items alone; none if it is refused. */
  ghost function Next(status: Domain.OrderStatus, items: set<Domain.Item>, call: Call): Option<Domain.OrderStatus> {
    match call
    case AddItem(_) => if status == Domain.Draft then Some(Domain.Draft) else None
    case RemoveItem(product) =>
      if status == Domain.Draft && exists item :: item in items && item.product == product
      then Some(Domain.Draft)
      else None
    case Confirm(_) => if status == Domain.Draft && items != {} then Some(Domain.Confirmed) else None
    case MarkInProduction => if status == Domain.Confirmed then Some(Domain.InProduction) else None
    case MarkAssembled => if status == Domain.InProduction then Some(Domain.Assembled) else None
    case Ship => if status == Domain.Assembled then Some(Domain.Shipped) else None
    case Cancel(_, _) =>
      if status == Domain.Cancelled || status == Domain.Shipped then None else Some(Domain.Cancelled)
  }

  function News(id: OrderId, call: Call): seq<Event> {
    match call
    case Confirm(_) => [OrderConfirmedEvent(id)]
    case Cancel(reason, _) => [OrderCancelledEvent(id, reason, "cancelled")]
    case _ => []
  }

  /** An atomic write; there are no copies or versions to compare. Items are only ever added. */
  ghost function Execute(m: Serial, u: Update): Result<Serial> {
    match u
    case Placed(o) =>
      if o.id in m.orders then Err(DuplicateKey)
      else Ok(m.(orders := m.orders[o.id := NewHeader(o)], items := UpsertItems(m.items, o.id, o.items)))
    case Update(id, call) =>
      if id !in m.orders then Err(OrderNotFound)
      else
        match Next(m.orders[id].status, ItemsOf(m.items, id), call)
        case None => Err(OrderNotDraft)
        case Some(status) =>
          Ok(Serial(m.orders[id := WithStatus(m.orders[id], status)],
                    if call.AddItem? then UpsertOne(m.items, id, call.item) else m.items,
                    m.events + News(id, call)))
  }

  ghost function Replay(journal: seq<Update>): Result<Serial> {
    if journal == [] then Ok(Serial(map[], map[], []))
    else
      var m :- Replay(journal[..|journal| - 1]);
      Execute(m, journal[|journal| - 1])
  }

  /** A call on a copy is accepted exactly when the serial machine accepts it on the items as a set. */
  lemma AcceptedIffNext(base: OrderValue, items: set<Domain.Item>, call: Call)
    requires forall item :: item in base.items <==> item in items
    ensures Domain.Try(base, call).Ok? <==> Next(base.status, items, call).Some?
  {
    Domain.CallIs(base, call);
    assert items != {} ==> exists item :: item in items;
    assert base.items != [] ==> base.items[0] in items;
  }

  /** What an accepted call does, read off the status and the set of items. */
  lemma CallIsNext(base: OrderValue, items: set<Domain.Item>, call: Call)
    requires Domain.Try(base, call).Ok? && base.events == []
    requires forall item :: item in base.items <==> item in items
    ensures var o := Domain.Try(base, call).value;
            Next(base.status, items, call) == Some(o.status) && o.events == News(base.id, call)
  {
    match call
    case RemoveItem(product) =>
      assert base.items[Domain.FirstIndex(base.items, product)] in items;
    case Confirm(_) =>
      assert base.items[0] in items;
    case _ =>
  }

  lemma CallItems(t: Tables, base: OrderValue, call: Call, f: Faults, at: Time)
    requires TablesOk(t) && Lawful(t, base) && Attempt(t, base, call, f, at).Ok?
    ensures Attempt(t, base, call, f, at).value.items ==
            if call.AddItem? then UpsertOne(t.items, base.id, call.item) else t.items
  {
    if call.AddItem? {
      assert (base.items + [call.item])[..|base.items|] == base.items;
      StoredItemsUpsertNothing(t.items, base.id, base.items);
    } else {
      RemovedItemComesBack(t, base, call, f, at);
    }
  }

  lemma OrderNewsAppend(o: seq<OutboxRow>, id: OrderId, call: Call, at: Time)
    ensures ContextEvents(o + NewRows(News(id, call), at), false) == ContextEvents(o, false) + News(id, call)
  {
    var news := News(id, call);
    if news == [] {
      assert o + NewRows(news, at) == o;
    } else {
      assert NewRows(news, at) == [NewRow(news[0], at)];
      ContextEventsAppend(o, NewRow(news[0], at), false);
    }
  }

  lemma AttemptExecutes(t: Tables, base: OrderValue, call: Call, f: Faults, at: Time)
    requires TablesOk(t) && Lawful(t, base) && Attempt(t, base, call, f, at).Ok?
    ensures Execute(Abs(t), Update(base.id, call)) == Ok(Abs(Attempt(t, base, call, f, at).value))
  {
    AttemptIsUpdate(t, base, call, f, at);
    CallIsNext(base, ItemsOf(t.items, base.id), call);
    CallItems(t, base, call, f, at);
    OrderNewsAppend(t.outbox, base.id, call, at);
  }

  ghost predicate IsSerial(s: State, s': State) {
    || (s'.journal == s.journal && Abs(s'.tables) == Abs(s.tables))
    || (exists u :: s'.journal == s.journal + [u] && Execute(Abs(s.tables), u) == Ok(Abs(s'.tables)))
  }

  lemma CommitStepExecutes(s: State, c: ClientId, base: OrderValue, call: Call, f: Faults, at: Time)
    requires Inv(s) && Lawful(s.tables, base)
    ensures IsSerial(s, CommitStep(s, c, base, call, f, at))
  {
    if Attempt(s.tables, base, call, f, at).Ok? {
      AttemptExecutes(s.tables, base, call, f, at);
      assert CommitStep(s, c, base, call, f, at).journal == s.journal + [Update(base.id, call)];
    }
  }

  lemma OutsideStepExecutes(s: State, a: Action)
    requires a.WorkerWrite? || a.OtherContext?
    ensures IsSerial(s, Step(s, a))
  {
    match a
    case WorkerWrite(row, status, attempts) =>
      ContextEventsSamePayloads(s.tables.outbox, SetStatus(s.tables.outbox, row, status, attempts), false);
    case OtherContext(event, at) =>
      ContextEventsAppend(s.tables.outbox, NewRow(event, at), false);
  }

  /** One step is one serial write, or changes neither the orders nor the journal. */
  lemma StepExecutes(s: State, a: Action)
    requires Inv(s)
    ensures IsSerial(s, Step(s, a))
  {
    match a
    case Place(o) =>
      if o.status == Domain.Draft && PlaceOrder(s.tables, o).Ok? {
        assert Step(s, a).journal == s.journal + [Placed(o)];
      }
    case CommitConfirm(c, reserved, f, now) =>
      if c in s.sessions && s.sessions[c].Cleared? && reserved {
        CommitStepExecutes(s, c, s.sessions[c].base, Domain.Confirm(now), f, now);
      }
    case CommitCall(c, call, f, at) =>
      if c in s.sessions && s.sessions[c].Loaded? && !call.Confirm? {
        CommitStepExecutes(s, c, s.sessions[c].base, call, f, at);
      }
    case WorkerWrite(_, _, _) => OutsideStepExecutes(s, a);
    case OtherContext(_, _) => OutsideStepExecutes(s, a);
    case _ =>
  }

  lemma ReplayAppend(journal: seq<Update>, u: Update, m: Serial, m': Serial)
    requires Replay(journal) == Ok(m) && Execute(m, u) == Ok(m')
    ensures Replay(journal + [u]) == Ok(m')
  {
    assert (journal + [u])[..|journal|] == journal;
  }

  lemma StepReplays(s: State, a: Action)
    requires Inv(s) && Replay(s.journal) == Ok(Abs(s.tables))
    ensures Replay(Step(s, a).journal) == Ok(Abs(Step(s, a).tables))
  {
    var next := Step(s, a);
    StepExecutes(s, a);
    if next.journal != s.journal || Abs(next.tables) != Abs(s.tables) {
      var u :| next.journal == s.journal + [u] && Execute(Abs(s.tables), u) == Ok(Abs(next.tables));
      ReplayAppend(s.journal, u, Abs(s.tables), Abs(next.tables));
    }
  }

  lemma {:induction false} ReplayExtends(s: State, actions: seq<Action>)
    requires Inv(s) && Replay(s.journal) == Ok(Abs(s.tables))
    ensures Replay(Run(s, actions).journal) == Ok(Abs(Run(s, actions).tables))
    decreases |actions|
  {
    if actions != [] {
      StepKeepsInv(s, actions[0]);
      StepReplays(s, actions[0]);
      ReplayExtends(Step(s, actions[0]), actions[1..]);
    }
  }

  /** Optimistic locking refines atomic calls: in every reachable state the stored orders, their items and the events of
      the ordering context are what the committed writes make of them one by one in commit order. */
  lemma Serializable(actions: seq<Action>)
    ensures Replay(Run(INITIAL, actions).journal) == Ok(Abs(Run(INITIAL, actions).tables))
  {
    ReplayExtends(INITIAL, actions);
  }

  /** Both reads, the call and the commit in a row, without interference or faults, are the serial call: the same
      orders, items and events, and nothing changed exactly when it is refused. */
  lemma UninterruptedCallIsSerial(s: State, c: ClientId, id: OrderId, reply: seq<Domain.Item>, call: Call, at: Time)
    requires Inv(s) && c !in s.sessions && id in s.tables.orders && IsItemReply(s.tables.items, id, reply)
    requires !call.Confirm?
    ensures var s' := Step(Step(Step(s, ReadHeader(c, id)), ReadItems(c, reply)), CommitCall(c, call, NO_FAULTS, at));
            match Execute(Abs(s.tables), Update(id, call))
            case Ok(m) => Abs(s'.tables) == m
            case Err(_) => s'.tables == s.tables
  {
    var base := Rebuild(id, s.tables.orders[id], reply);
    var s2 := Enter(s, c, Loaded(base));
    assert Step(Step(s, ReadHeader(c, id)), ReadItems(c, reply)) == s2;
    assert Step(s2, CommitCall(c, call, NO_FAULTS, at)) == CommitStep(s2, c, base, call, NO_FAULTS, at);
    CurrentCallIsSerial(s.tables, base, call, at);
  }

  lemma CurrentCallIsSerial(t: Tables, base: OrderValue, call: Call, at: Time)
    requires TablesOk(t) && Current(t, base)
    ensures match Execute(Abs(t), Update(base.id, call))
            case Ok(m) =>
              Attempt(t, base, call, NO_FAULTS, at).Ok? && Abs(Attempt(t, base, call, NO_FAULTS, at).value) == m
            case Err(_) => Attempt(t, base, call, NO_FAULTS, at).Err?
  {
    AcceptedIffNext(base, ItemsOf(t.items, base.id), call);
    if Domain.Try(base, call).Ok? {
      AttemptOkIffCurrent(t, base, call, at);
      AttemptExecutes(t, base, call, NO_FAULTS, at);
    }
  }
}
