/** Any number of clients placing, confirming and moving orders, each loading an order in two separate
    queries and writing under the version check, interleaved in every possible way. */
module OrderProtocol {
  import opened Kernel
  import opened Outbox
  import opened OrderStore
  import Domain = OrderDomain

  type OrderValue = Domain.OrderValue
  type Call = Domain.Call
  type ClientId = nat

  datatype Session =
    | HalfRead(id: OrderId, header: Header)
    | Loaded(base: OrderValue)
    | Cleared(base: OrderValue)

  /** A committed write: a new order, or which order by which lifecycle method. */
  datatype Update = Placed(draft: OrderValue) | Update(id: OrderId, call: Call)

  datatype State = State(tables: Tables, sessions: map<ClientId, Session>, journal: seq<Update>)

  datatype Action =
    | Place(draft: OrderValue)
    | ReadHeader(c: ClientId, id: OrderId)
    | ReadItems(c: ClientId, reply: seq<Domain.Item>)
    | CheckAvailability(c: ClientId, stock: Domain.Item -> Availability)
    | CommitConfirm(c: ClientId, reserved: bool, faults: Faults, now: Time)
    | CommitCall(c: ClientId, call: Call, faults: Faults, at: Time)
    | WorkerWrite(row: nat, status: Status, attempts: int)
    | OtherContext(event: Event, at: Time)

  const INITIAL := State(Tables(map[], map[], []), map[], [])

  function Leave(s: State, c: ClientId): State {
    s.(sessions := s.sessions - {c})
  }

  function Enter(s: State, c: ClientId, session: Session): State {
    s.(sessions := s.sessions[c := session])
  }

  /** The client calls the lifecycle method on its copy and runs its transaction. */
  function Attempt(t: Tables, base: OrderValue, call: Call, f: Faults, at: Time): Result<Tables> {
    var o :- Domain.Try(base, call);
    CommitOrder(t, o, f, at)
  }

  function CommitStep(s: State, c: ClientId, base: OrderValue, call: Call, f: Faults, at: Time): State {
    match Attempt(s.tables, base, call, f, at)
    case Ok(t) => Leave(s, c).(tables := t, journal := s.journal + [Update(base.id, call)])
    case Err(_) => Leave(s, c)
  }

  /** One atomic step; an action that is not enabled changes nothing. */
  ghost function Step(s: State, a: Action): State {
    match a
    case Place(o) =>
      if o.status != Domain.Draft then s
      else
        (match PlaceOrder(s.tables, o)
         case Ok(t) => s.(tables := t, journal := s.journal + [Placed(o)])
         case Err(_) => s)
    case ReadHeader(c, id) =>
      if c !in s.sessions && id in s.tables.orders then Enter(s, c, HalfRead(id, s.tables.orders[id])) else s
    case ReadItems(c, reply) =>
      if c in s.sessions && s.sessions[c].HalfRead? && IsItemReply(s.tables.items, s.sessions[c].id, reply)
      then Enter(s, c, Loaded(Rebuild(s.sessions[c].id, s.sessions[c].header, reply)))
      else s
    case CheckAvailability(c, stock) =>
      if c in s.sessions && s.sessions[c].Loaded? then
        var base := s.sessions[c].base;
        if base.status == Domain.Draft && forall item :: item in base.items ==> stock(item).CanConfirm()
        then Enter(s, c, Cleared(base))
        else Leave(s, c)
      else s
    case CommitConfirm(c, reserved, f, now) =>
      if c in s.sessions && s.sessions[c].Cleared? then
        if reserved then CommitStep(s, c, s.sessions[c].base, Domain.Confirm(now), f, now) else Leave(s, c)
      else s
    case CommitCall(c, call, f, at) =>
      if c in s.sessions && s.sessions[c].Loaded? && !call.Confirm?
      then CommitStep(s, c, s.sessions[c].base, call, f, at)
      else s
    case WorkerWrite(row, status, attempts) =>
      s.(tables := s.tables.(outbox := SetStatus(s.tables.outbox, row, status, attempts)))
    case OtherContext(event, at) =>
      if event.Inventory() then s.(tables := s.tables.(outbox := s.tables.outbox + [NewRow(event, at)])) else s
  }

  ghost function Run(s: State, actions: seq<Action>): State
    decreases |actions|
  {
    if actions == [] then s else Run(Step(s, actions[0]), actions[1..])
  }

  // ---------- The optimistic-lock law ----------

  /** The copy is the order as stored: header, and items in some order. */
  ghost predicate Current(t: Tables, base: OrderValue) {
    && base.id in t.orders
    && base == Rebuild(base.id, t.orders[base.id], base.items)
    && IsItemReply(t.items, base.id, base.items)
  }

  ghost predicate Lawful(t: Tables, base: OrderValue) {
    && base.id in t.orders
    && base.version <= t.orders[base.id].version
    && base.events == []
    && (base.version == t.orders[base.id].version ==> Current(t, base))
  }

  ghost predicate SessionOk(t: Tables, session: Session) {
    match session
    case HalfRead(id, h) =>
      && id in t.orders && h.version <= t.orders[id].version
      && (h.version == t.orders[id].version ==> h == t.orders[id])
    case Loaded(base) => Lawful(t, base)
    case Cleared(base) => Lawful(t, base) && base.status == Domain.Draft
  }

  ghost predicate TablesOk(t: Tables) {
    && ItemsFiled(t.items)
    && (forall k :: k in t.items ==> t.items[k].order in t.orders)
    && (forall id :: id in t.orders && t.orders[id].status !in {Domain.Draft, Domain.Cancelled} ==>
          ItemsOf(t.items, id) != {})
  }

  ghost predicate Inv(s: State) {
    TablesOk(s.tables) && forall c :: c in s.sessions ==> SessionOk(s.tables, s.sessions[c])
  }

  /** Stored orders keep header and items, or move to a higher version. */
  ghost predicate Evolves(t: Tables, t': Tables) {
    forall id :: id in t.orders ==>
      && id in t'.orders
      && t.orders[id].version <= t'.orders[id].version
      && (t.orders[id].version == t'.orders[id].version ==>
            t'.orders[id] == t.orders[id] && ItemsOf(t'.items, id) == ItemsOf(t.items, id))
  }

  lemma SessionSurvives(t: Tables, t': Tables, session: Session)
    requires Evolves(t, t') && SessionOk(t, session)
    ensures SessionOk(t', session)
  {
  }

  /** A successful attempt is the lifecycle call on the order as stored: the status moves along an edge or
      stays, the version goes up by one, exactly the recorded events are appended, other orders keep
      header and items. */
  ghost predicate IsUpdate(t: Tables, t': Tables, base: OrderValue, call: Call, at: Time) {
    && Current(t, base)
    && Domain.Try(base, call).Ok?
    && (var o := Domain.Try(base, call).value;
        && t'.orders == t.orders[base.id := WithStatus(t.orders[base.id], o.status)]
        && (o.status == base.status || Domain.Edge(base.status, o.status))
        && t'.outbox == t.outbox + NewRows(o.events, at))
    && ItemsOf(t.items, base.id) <= ItemsOf(t'.items, base.id)
    && (forall other :: other != base.id ==> ItemsOf(t'.items, other) == ItemsOf(t.items, other))
  }

  /** What an accepted call may do to the copy. */
  lemma AcceptedCall(o: OrderValue, call: Call)
    requires Domain.Try(o, call).Ok?
    ensures var o' := Domain.Try(o, call).value;
            && o'.id == o.id && o'.version == o.version && o'.totalPrice == o.totalPrice && o'.notes == o.notes
            && (o'.status == o.status || Domain.Edge(o.status, o'.status))
            && (o'.status !in {Domain.Draft, Domain.Cancelled} ==>
                  o'.items == o.items && (o.status == Domain.Draft ==> o.items != []))
  {
  }

  lemma AttemptIsUpdate(t: Tables, base: OrderValue, call: Call, f: Faults, at: Time)
    requires TablesOk(t) && Lawful(t, base) && Attempt(t, base, call, f, at).Ok?
    ensures var t' := Attempt(t, base, call, f, at).value;
            IsUpdate(t, t', base, call, at) && TablesOk(t') && Evolves(t, t')
  {
    var o := Domain.Try(base, call).value;
    AcceptedCall(base, call);
    WriteMoves(t, base, o, f, at);
    assert UpdatedHeader(t.orders[base.id], o) == WithStatus(t.orders[base.id], o.status);
  }

  lemma WriteMoves(t: Tables, base: OrderValue, o: OrderValue, f: Faults, at: Time)
    requires TablesOk(t) && Lawful(t, base) && CommitOrder(t, o, f, at).Ok?
    requires o.id == base.id && o.version == base.version
    requires o.status == base.status || Domain.Edge(base.status, o.status)
    requires o.status !in {Domain.Draft, Domain.Cancelled} ==>
               o.items == base.items && (base.status == Domain.Draft ==> base.items != [])
    ensures var t' := CommitOrder(t, o, f, at).value;
            && Current(t, base) && TablesOk(t') && Evolves(t, t')
            && ItemsOf(t.items, base.id) <= ItemsOf(t'.items, base.id)
            && (forall other :: other != base.id ==> ItemsOf(t'.items, other) == ItemsOf(t.items, other))
  {
    var t' := CommitOrder(t, o, f, at).value;
    UpsertFrames(t.items, o.id, o.items);
    UpsertKeepsStored(t.items, o.id, o.items);
    if o.status !in {Domain.Draft, Domain.Cancelled} && base.status == Domain.Draft {
      assert base.items[0] in base.items;
      assert base.items[0] in ItemsOf(t.items, base.id);
    }
    assert t.orders[base.id].status == base.status;
    OrderRewritten(t, t', base.id);
  }

  lemma OrderRewritten(t: Tables, t': Tables, id: OrderId)
    requires TablesOk(t) && id in t.orders && id in t'.orders
    requires t'.orders == t.orders[id := t'.orders[id]] && t'.orders[id].version > t.orders[id].version
    requires ItemsFiled(t'.items)
    requires forall k :: k in t'.items ==> t'.items[k].order == id || (k in t.items && t'.items[k] == t.items[k])
    requires forall other :: other != id ==> ItemsOf(t'.items, other) == ItemsOf(t.items, other)
    requires t'.orders[id].status !in {Domain.Draft, Domain.Cancelled} ==> ItemsOf(t'.items, id) != {}
    ensures TablesOk(t') && Evolves(t, t')
  {
  }

  lemma PlaceKeepsTables(t: Tables, o: OrderValue)
    requires TablesOk(t) && o.status == Domain.Draft && PlaceOrder(t, o).Ok?
    ensures var t' := PlaceOrder(t, o).value; TablesOk(t') && Evolves(t, t')
  {
    UpsertFrames(t.items, o.id, o.items);
    UpsertKeepsStored(t.items, o.id, o.items);
  }

  lemma TablesMove(s: State, s': State)
    requires Inv(s) && TablesOk(s'.tables) && Evolves(s.tables, s'.tables)
    requires forall c :: c in s'.sessions ==> c in s.sessions && s'.sessions[c] == s.sessions[c]
    ensures Inv(s')
  {
    forall c | c in s'.sessions
      ensures SessionOk(s'.tables, s'.sessions[c])
    {
      SessionSurvives(s.tables, s'.tables, s.sessions[c]);
    }
  }

  lemma CommitStepKeepsInv(s: State, c: ClientId, base: OrderValue, call: Call, f: Faults, at: Time)
    requires Inv(s) && Lawful(s.tables, base)
    ensures Inv(CommitStep(s, c, base, call, f, at))
    ensures Evolves(s.tables, CommitStep(s, c, base, call, f, at).tables)
  {
    if Attempt(s.tables, base, call, f, at).Ok? {
      AttemptIsUpdate(s.tables, base, call, f, at);
      TablesMove(s, CommitStep(s, c, base, call, f, at));
    }
  }

  lemma StepKeepsInv(s: State, a: Action)
    requires Inv(s)
    ensures Inv(Step(s, a)) && Evolves(s.tables, Step(s, a).tables)
  {
    match a
    case Place(o) =>
      if o.status == Domain.Draft && PlaceOrder(s.tables, o).Ok? {
        PlaceKeepsTables(s.tables, o);
        TablesMove(s, Step(s, a));
      }
    case CommitConfirm(c, reserved, f, now) =>
      if c in s.sessions && s.sessions[c].Cleared? && reserved {
        CommitStepKeepsInv(s, c, s.sessions[c].base, Domain.Confirm(now), f, now);
      }
    case CommitCall(c, call, f, at) =>
      if c in s.sessions && s.sessions[c].Loaded? && !call.Confirm? {
        CommitStepKeepsInv(s, c, s.sessions[c].base, call, f, at);
      }
    case WorkerWrite(_, _, _) => TablesMove(s, Step(s, a));
    case OtherContext(_, _) => TablesMove(s, Step(s, a));
    case _ => PrivateStepKeepsInv(s, a);
  }

  /** Steps that change one client's private state only. */
  lemma PrivateStepKeepsInv(s: State, a: Action)
    requires Inv(s) && (a.ReadHeader? || a.ReadItems? || a.CheckAvailability?)
    ensures Inv(Step(s, a)) && Step(s, a).tables == s.tables
  {
  }

  lemma {:induction false} RunKeepsInv(s: State, actions: seq<Action>)
    requires Inv(s)
    ensures Inv(Run(s, actions)) && Evolves(s.tables, Run(s, actions).tables)
    decreases |actions|
  {
    if actions != [] {
      StepKeepsInv(s, actions[0]);
      RunKeepsInv(Step(s, actions[0]), actions[1..]);
    }
  }

  // ---------- Theorems over every interleaving ----------

  /** Short of a database failure, an accepted call on the stored version is written and any other is refused. */
  lemma AttemptOkIffCurrent(t: Tables, base: OrderValue, call: Call, at: Time)
    requires Lawful(t, base) && Domain.Try(base, call).Ok?
    ensures Current(t, base) ==> Attempt(t, base, call, NO_FAULTS, at).Ok?
    ensures !Current(t, base) ==> Attempt(t, base, call, NO_FAULTS, at) == Err(OptimisticLock)
  {
    AcceptedCall(base, call);
    assert Current(t, base) <==> base.version == t.orders[base.id].version;
  }

  lemma CallCommitsIffCurrent(s: State, c: ClientId, call: Call, at: Time)
    requires Inv(s) && c in s.sessions && s.sessions[c].Loaded?
    requires Domain.Try(s.sessions[c].base, call).Ok? && !call.Confirm?
    ensures var base := s.sessions[c].base;
            var s' := Step(s, CommitCall(c, call, NO_FAULTS, at));
            && (Current(s.tables, base) ==> IsUpdate(s.tables, s'.tables, base, call, at))
            && (!Current(s.tables, base) ==> s'.tables == s.tables && s'.journal == s.journal)
  {
    var base := s.sessions[c].base;
    assert Step(s, CommitCall(c, call, NO_FAULTS, at)) == CommitStep(s, c, base, call, NO_FAULTS, at);
    AttemptOkIffCurrent(s.tables, base, call, at);
    if Current(s.tables, base) {
      AttemptIsUpdate(s.tables, base, call, NO_FAULTS, at);
    }
  }

  /** Torn reads never commit: short of a database failure, an accepted lifecycle call is written exactly when
      the copy, header and items, is the order as stored now; it then is that call on the stored order. */
  lemma TornOrderNeverCommits(before: seq<Action>, c: ClientId, call: Call, at: Time)
    requires var s := Run(INITIAL, before); c in s.sessions && s.sessions[c].Loaded?
    requires Domain.Try(Run(INITIAL, before).sessions[c].base, call).Ok? && !call.Confirm?
    ensures var s := Run(INITIAL, before);
            var base := s.sessions[c].base;
            var s' := Step(s, CommitCall(c, call, NO_FAULTS, at));
            && (Current(s.tables, base) ==> IsUpdate(s.tables, s'.tables, base, call, at))
            && (!Current(s.tables, base) ==> s'.tables == s.tables && s'.journal == s.journal)
  {
    RunKeepsInv(INITIAL, before);
    CallCommitsIffCurrent(Run(INITIAL, before), c, call, at);
  }

  /** A confirmation that changes anything takes the stored order from draft to confirmed and appends exactly
      one order.confirmed; a cleared client whose order moved in the meantime changes nothing. */
  lemma ConfirmationLeavesDraft(before: seq<Action>, c: ClientId, reserved: bool, f: Faults, now: Time)
    requires var s := Run(INITIAL, before); c in s.sessions && s.sessions[c].Cleared?
    ensures var s := Run(INITIAL, before);
            var s' := Step(s, CommitConfirm(c, reserved, f, now));
            var id := s.sessions[c].base.id;
            && id in s.tables.orders && id in s'.tables.orders
            && (s'.tables != s.tables ==>
                  && Current(s.tables, s.sessions[c].base)
                  && s.tables.orders[id].status == Domain.Draft
                  && s'.tables.orders[id].status == Domain.Confirmed
                  && s'.tables.outbox == s.tables.outbox + [NewRow(OrderConfirmedEvent(id), now)])
            && (!Current(s.tables, s.sessions[c].base) ==> s'.tables == s.tables)
  {
    RunKeepsInv(INITIAL, before);
    var s := Run(INITIAL, before);
    var base := s.sessions[c].base;
    if reserved && Attempt(s.tables, base, Domain.Confirm(now), f, now).Ok? {
      AttemptIsUpdate(s.tables, base, Domain.Confirm(now), f, now);
      ConfirmRecordsOne(base, now);
    }
  }

  /** Both reads, the availability check and the commit in a row, without interference, are the confirmation
      handler; OrderStore.ConfirmSucceedsIff says when it goes through. */
  lemma UninterruptedConfirmIsHandler(s: State, c: ClientId, id: OrderId, reply: seq<Domain.Item>,
                                      stock: Domain.Item -> Availability, reserved: bool, f: Faults, now: Time)
    requires Inv(s) && c !in s.sessions && id in s.tables.orders && IsItemReply(s.tables.items, id, reply)
    ensures var s' := Step(Step(Step(Step(s, ReadHeader(c, id)), ReadItems(c, reply)), CheckAvailability(c, stock)),
                           CommitConfirm(c, reserved, f, now));
            match ConfirmOutcome(s.tables, Rebuild(id, s.tables.orders[id], reply), stock, reserved, f, now)
            case Ok(t) => s'.tables == t
            case Err(_) => s'.tables == s.tables
  {
    var base := Rebuild(id, s.tables.orders[id], reply);
    assert Step(Step(s, ReadHeader(c, id)), ReadItems(c, reply)) == Enter(s, c, Loaded(base));
    CheckThenCommit(Enter(s, c, Loaded(base)), c, base, stock, reserved, f, now);
  }

  lemma CheckThenCommit(s: State, c: ClientId, base: OrderValue, stock: Domain.Item -> Availability, reserved: bool,
                        f: Faults, now: Time)
    requires c in s.sessions && s.sessions[c] == Loaded(base)
    ensures var s' := Step(Step(s, CheckAvailability(c, stock)), CommitConfirm(c, reserved, f, now));
            match ConfirmOutcome(s.tables, base, stock, reserved, f, now)
            case Ok(t) => s'.tables == t
            case Err(_) => s'.tables == s.tables
  {
    var s1 := Step(s, CheckAvailability(c, stock));
    NoRefusalIff(base.items, stock);
    if base.status == Domain.Draft && FirstRefusal(base.items, stock) == None {
      assert s1 == Enter(s, c, Cleared(base));
    } else {
      assert s1 == Leave(s, c);
    }
  }

  predicate Confirms(u: Update, id: OrderId) {
    u.Update? && u.id == id && u.call.Confirm?
  }

  function ConfirmCommits(journal: seq<Update>, id: OrderId): nat {
    if journal == [] then 0
    else ConfirmCommits(journal[..|journal| - 1], id) +
         (if Confirms(journal[|journal| - 1], id) then 1 else 0)
  }

  function ConfirmedEvents(t: Tables, id: OrderId): nat {
    Domain.Confirmations(EventsOf(t.outbox), id)
  }

  /** How many order.confirmed events an order's stored status allows. */
  ghost predicate EventsFitStatus(t: Tables, id: OrderId) {
    if id !in t.orders || t.orders[id].status == Domain.Draft then ConfirmedEvents(t, id) == 0
    else if t.orders[id].status == Domain.Cancelled then ConfirmedEvents(t, id) <= 1
    else ConfirmedEvents(t, id) == 1
  }

  ghost predicate ConfirmedOnce(s: State) {
    forall id :: ConfirmedEvents(s.tables, id) == ConfirmCommits(s.journal, id) && EventsFitStatus(s.tables, id)
  }

  lemma AppendEvents(o: seq<OutboxRow>, events: seq<Event>, at: Time, id: OrderId)
    requires |events| <= 1
    ensures Domain.Confirmations(EventsOf(o + NewRows(events, at)), id) ==
            Domain.Confirmations(EventsOf(o), id) +
            (if events == [OrderConfirmedEvent(id)] then 1 else 0)
  {
    if events == [] {
      assert o + NewRows(events, at) == o;
    } else {
      EventsAppend(o, events[0], at);
      assert events == [events[0]];
      Domain.CountsAppend(EventsOf(o), events[0], id);
    }
  }

  lemma EventsAppend(o: seq<OutboxRow>, e: Event, at: Time)
    ensures EventsOf(o + NewRows([e], at)) == EventsOf(o) + [e]
  {
  }

  lemma CommitCountsAppend(journal: seq<Update>, u: Update, id: OrderId)
    ensures ConfirmCommits(journal + [u], id) ==
            ConfirmCommits(journal, id) + (if Confirms(u, id) then 1 else 0)
  {
    assert (journal + [u])[..|journal|] == journal;
  }

  /** The events one lifecycle call records. */
  lemma CallEvents(base: OrderValue, call: Call, id: OrderId)
    requires base.events == [] && Domain.Try(base, call).Ok?
    ensures |Domain.Try(base, call).value.events| <= 1
    ensures Domain.Try(base, call).value.events == [OrderConfirmedEvent(id)] <==> call.Confirm? && id == base.id
  {
    var events := Domain.Try(base, call).value.events;
    match call
    case Confirm(_) => assert events == [OrderConfirmedEvent(base.id)];
    case Cancel(reason, _) => assert events == [OrderCancelledEvent(base.id, reason, "cancelled")];
    case _ => assert events == [];
  }

  lemma CommitStepKeepsConfirmedOnce(s: State, c: ClientId, base: OrderValue, call: Call, f: Faults, at: Time)
    requires Inv(s) && Lawful(s.tables, base) && ConfirmedOnce(s)
    ensures ConfirmedOnce(CommitStep(s, c, base, call, f, at))
  {
    var s' := CommitStep(s, c, base, call, f, at);
    if Attempt(s.tables, base, call, f, at).Ok? {
      AttemptIsUpdate(s.tables, base, call, f, at);
      forall id
        ensures ConfirmedEvents(s'.tables, id) == ConfirmCommits(s'.journal, id) && EventsFitStatus(s'.tables, id)
      {
        UpdateKeepsCounts(s.tables, s'.tables, base, call, at, id);
        CommitCountsAppend(s.journal, Update(base.id, call), id);
      }
    }
  }

  lemma UpdateKeepsCounts(t: Tables, t': Tables, base: OrderValue, call: Call, at: Time, id: OrderId)
    requires base.events == [] && IsUpdate(t, t', base, call, at) && EventsFitStatus(t, id)
    ensures ConfirmedEvents(t', id) == ConfirmedEvents(t, id) + (if base.id == id && call.Confirm? then 1 else 0)
    ensures EventsFitStatus(t', id)
  {
    CallEvents(base, call, id);
    AppendEvents(t.outbox, Domain.Try(base, call).value.events, at, id);
  }

  /** Steps of pollers and of the other contexts. */
  lemma OutsideKeepsConfirmedOnce(s: State, a: Action)
    requires ConfirmedOnce(s) && (a.WorkerWrite? || a.OtherContext?)
    ensures ConfirmedOnce(Step(s, a))
  {
    var s' := Step(s, a);
    forall id
      ensures ConfirmedEvents(s'.tables, id) == ConfirmedEvents(s.tables, id) && EventsFitStatus(s'.tables, id)
    {
      assert EventsFitStatus(s.tables, id);
      if a.WorkerWrite? {
        assert EventsOf(s'.tables.outbox) == EventsOf(s.tables.outbox);
      } else if a.event.Inventory() {
        assert NewRows([a.event], a.at) == [NewRow(a.event, a.at)];
        AppendEvents(s.tables.outbox, [a.event], a.at, id);
      }
    }
  }

  lemma PlaceKeepsConfirmedOnce(s: State, o: OrderValue)
    requires ConfirmedOnce(s) && o.status == Domain.Draft && PlaceOrder(s.tables, o).Ok?
    ensures ConfirmedOnce(Step(s, Place(o)))
  {
    var s' := Step(s, Place(o));
    forall id
      ensures ConfirmedEvents(s'.tables, id) == ConfirmCommits(s'.journal, id) && EventsFitStatus(s'.tables, id)
    {
      assert EventsFitStatus(s.tables, id);
      CommitCountsAppend(s.journal, Placed(o), id);
    }
  }

  lemma StepKeepsConfirmedOnce(s: State, a: Action)
    requires Inv(s) && ConfirmedOnce(s)
    ensures ConfirmedOnce(Step(s, a))
  {
    var s' := Step(s, a);
    match a
    case CommitConfirm(c, reserved, f, now) =>
      if c in s.sessions && s.sessions[c].Cleared? && reserved {
        CommitStepKeepsConfirmedOnce(s, c, s.sessions[c].base, Domain.Confirm(now), f, now);
      }
    case CommitCall(c, call, f, at) =>
      if c in s.sessions && s.sessions[c].Loaded? && !call.Confirm? {
        CommitStepKeepsConfirmedOnce(s, c, s.sessions[c].base, call, f, at);
      }
    case WorkerWrite(_, _, _) => OutsideKeepsConfirmedOnce(s, a);
    case OtherContext(_, _) => OutsideKeepsConfirmedOnce(s, a);
    case Place(o) =>
      if o.status == Domain.Draft && PlaceOrder(s.tables, o).Ok? {
        PlaceKeepsConfirmedOnce(s, o);
      }
    case _ =>
      assert s'.tables.outbox == s.tables.outbox;
      assert forall id :: EventsFitStatus(s.tables, id) ==> EventsFitStatus(s'.tables, id);
  }

  lemma {:induction false} RunKeepsConfirmedOnce(s: State, actions: seq<Action>)
    requires Inv(s) && ConfirmedOnce(s)
    ensures ConfirmedOnce(Run(s, actions))
    decreases |actions|
  {
    if actions != [] {
      StepKeepsInv(s, actions[0]);
      StepKeepsConfirmedOnce(s, actions[0]);
      RunKeepsConfirmedOnce(Step(s, actions[0]), actions[1..]);
    }
  }

  /** Confirmation happens exactly once: however many confirmations race with each other and with every other
      lifecycle update, an order has at most one order.confirmed in the outbox, has one exactly when a
      confirmation of it committed, none while it is a draft, and one in every later uncancelled status. */
  lemma ConfirmedExactlyOnce(actions: seq<Action>, id: OrderId)
    ensures var s := Run(INITIAL, actions);
            && ConfirmedEvents(s.tables, id) == ConfirmCommits(s.journal, id) <= 1
            && EventsFitStatus(s.tables, id)
  {
    RunKeepsConfirmedOnce(INITIAL, actions);
    assert EventsFitStatus(Run(INITIAL, actions).tables, id);
  }

  /** Every stored order past draft and not cancelled has a stored item. */
  lemma ConfirmedOrdersHaveItems(actions: seq<Action>, id: OrderId)
    requires id in Run(INITIAL, actions).tables.orders
    requires Run(INITIAL, actions).tables.orders[id].status !in {Domain.Draft, Domain.Cancelled}
    ensures ItemsOf(Run(INITIAL, actions).tables.items, id) != {}
  {
    RunKeepsInv(INITIAL, actions);
  }

  /** What the call asks to have stored differs from what is stored in two cases only: it removes an item, or it adds
      one whose identifier another stored item has. */
  ghost predicate CallFitsItems(t: Tables, id: OrderId, call: Call) {
    && !call.RemoveItem?
    && (call.AddItem? && call.item.id in t.items ==> t.items[call.item.id] == StoredItem(id, call.item))
  }

  /** The items read back as the copy had them exactly when the call fits: a removed item comes back, an added one
      whose identifier is taken is dropped without an error, and every other committed call reads back. */
  lemma ItemsReadBackIff(t: Tables, base: OrderValue, call: Call, f: Faults, at: Time)
    requires TablesOk(t) && Lawful(t, base) && Attempt(t, base, call, f, at).Ok?
    ensures (forall item :: item in ItemsOf(Attempt(t, base, call, f, at).value.items, base.id) <==>
                            item in Domain.Try(base, call).value.items)
            <==> CallFitsItems(t, base.id, call)
  {
    var o := Domain.Try(base, call).value;
    assert Current(t, base);
    if call.AddItem? {
      AddedItemReadsBackIff(t, base, call.item);
    } else if call.RemoveItem? {
      RemovedItemComesBack(t, base, call, f, at);
      RemovedItemIsGone(base, call.product);
    } else {
      RemovedItemComesBack(t, base, call, f, at);
      AcceptedCall(base, call);
      assert o.items == base.items;
    }
  }

  lemma AddedItemReadsBackIff(t: Tables, base: OrderValue, item: Domain.Item)
    requires TablesOk(t) && Current(t, base)
    ensures (forall x :: x in ItemsOf(UpsertItems(t.items, base.id, base.items + [item]), base.id) <==>
                         x in base.items + [item])
            <==> (item.id in t.items ==> t.items[item.id] == StoredItem(base.id, item))
  {
    var list := base.items + [item];
    assert list[..|list| - 1] == base.items;
    StoredItemsUpsertNothing(t.items, base.id, base.items);
    var items' := UpsertItems(t.items, base.id, list);
    assert items' == UpsertOne(t.items, base.id, item);
    if item.id !in t.items {
      forall x
        ensures x in ItemsOf(items', base.id) <==> x in ItemsOf(t.items, base.id) || x == item
      {
        if x in ItemsOf(t.items, base.id) {
          var k :| k in t.items && t.items[k].order == base.id && t.items[k].item == x;
          assert items'[k] == t.items[k];
        }
        assert items'[item.id] == StoredItem(base.id, item);
      }
    } else {
      assert item in list;
    }
  }

  lemma RemovedItemIsGone(base: OrderValue, product: ProductId)
    requires forall i, j :: 0 <= i < j < |base.items| ==> base.items[i].id != base.items[j].id
    requires base.RemoveItem(product).Ok?
    ensures exists item :: item in base.items && item !in base.RemoveItem(product).value.items
  {
    var i := Domain.FirstIndex(base.items, product);
    assert base.items[i] in base.items && base.items[i] !in base.items[..i] + base.items[i + 1..];
  }

  /** Placing an order stores what it lists exactly when no listed identifier is taken and none is listed for two
      different items; otherwise items are dropped without an error. */
  lemma PlacedItemsReadBackIff(t: Tables, o: OrderValue)
    requires TablesOk(t) && PlaceOrder(t, o).Ok?
    ensures (forall item :: item in ItemsOf(PlaceOrder(t, o).value.items, o.id) <==> item in o.items)
            <==> (forall item :: item in o.items ==> item.id !in t.items) && NoSharedIds(o.items)
  {
    var items' := UpsertItems(t.items, o.id, o.items);
    UpsertKeepsStored(t.items, o.id, o.items);
    if (forall item :: item in o.items ==> item.id !in t.items) && NoSharedIds(o.items) {
      forall item
        ensures item in ItemsOf(items', o.id) <==> item in o.items
      {
        ListedIsStored(t, o, item);
      }
    }
    if forall item :: item in ItemsOf(items', o.id) <==> item in o.items {
      forall item | item in o.items
        ensures item.id !in t.items && items'[item.id] == StoredItem(o.id, item)
      {
        assert item in ItemsOf(items', o.id);
        var k :| k in items' && items'[k].order == o.id && items'[k].item == item;
      }
    }
  }

  ghost predicate NoSharedIds(list: seq<Domain.Item>) {
    forall x, y :: x in list && y in list && x.id == y.id ==> x == y
  }

  lemma ListedIsStored(t: Tables, o: OrderValue, item: Domain.Item)
    requires TablesOk(t) && o.id !in t.orders
    requires (forall x :: x in o.items ==> x.id !in t.items) && NoSharedIds(o.items)
    ensures item in ItemsOf(UpsertItems(t.items, o.id, o.items), o.id) <==> item in o.items
  {
    var items' := UpsertItems(t.items, o.id, o.items);
    UpsertKeepsStored(t.items, o.id, o.items);
    if item in o.items {
      assert items'[item.id].item in o.items && items'[item.id].item.id == item.id;
    }
    if item in ItemsOf(items', o.id) {
      var k :| k in items' && items'[k].order == o.id && items'[k].item == item;
      assert k !in t.items;
    }
  }

  /** Stored items are only ever added: a committed call other than AddItem leaves the items table as it was, so
      an item removed from a copy is still stored after that copy is saved. */
  lemma RemovedItemComesBack(t: Tables, base: OrderValue, call: Call, f: Faults, at: Time)
    requires TablesOk(t) && Lawful(t, base) && !call.AddItem? && Attempt(t, base, call, f, at).Ok?
    ensures Attempt(t, base, call, f, at).value.items == t.items
  {
    var o := Domain.Try(base, call).value;
    assert Current(t, base);
    forall item | item in o.items
      ensures item in ItemsOf(t.items, base.id)
    {
      assert item in base.items;
    }
    StoredItemsUpsertNothing(t.items, base.id, o.items);
  }
}
