/** Any number of receive, consume and write-off clients and freshness passes, interleaved statement by
    statement over the shared tables. An action sequence is one interleaving; every theorem about Run(...)
    is therefore about all of them. */
module InventoryProtocol {
  import opened Kernel
  import opened Outbox
  import opened InventoryDomain
  import opened InventoryStore
  import App = InventoryApplication

  type ClientId = nat

  datatype Op =
    | Receive(batch: BatchValue)
    | Consume(id: BatchId, qty: int)
    | Writeoff(id: BatchId, qty: int, reason: string)
    | Recalc(id: BatchId, now: Time)

  datatype Outcome = Succeeded | Rejected(error: Error) | PassReturned(now: Time, loaded: seq<BatchValue>)

  /** Where a handler stands. Everything here is private to the client. */
  datatype Session =
    | Created(batch: BatchValue)
    | Loaded(base: BatchValue)
    | Decided(base: BatchValue, op: Op, batch: BatchValue)
    | Passing(now: Time, loaded: seq<BatchValue>, next: nat)
    | Finished(outcome: Outcome)

  /** The committed tables, the clients, and (history only) the committed operations in commit order. */
  datatype State = State(tables: Tables, sessions: map<ClientId, Session>, journal: seq<Op>)

  datatype Action =
    | New(c: ClientId, id: BatchId, store: StoreId, ingredient: IngredientId, qty: int, price: Money,
          receivedAt: Time, expiresAt: Time)
    | FindByID(c: ClientId, id: BatchId)
    | Decide(c: ClientId, op: Op)
    | Commit(c: ClientId, faults: Faults, at: Time)
    | FindActive(c: ClientId, reply: seq<BatchRow>, now: Time)
    | Visit(c: ClientId, refused: bool)
    | WorkerWrite(row: nat, status: Status, attempts: int)
    | OtherContext(event: Event, at: Time)

  const INITIAL := State(Tables(map[], []), map[], [])

  predicate Idle(s: State, c: ClientId) {
    c in s.sessions ==> s.sessions[c].Finished?
  }

  function Enter(s: State, c: ClientId, session: Session): State {
    s.(sessions := s.sessions[c := session])
  }

  /** The domain method of a command, on the loaded copy. */
  function Decision(base: BatchValue, op: Op): Result<BatchValue> {
    match op
    case Consume(id, qty) => base.Consume(qty)
    case Writeoff(id, qty, reason) => base.Writeoff(qty, reason)
    case _ => Err(BatchNotFound)
  }

  predicate Targets(op: Op, id: BatchId) {
    (op.Consume? || op.Writeoff?) && op.id == id
  }

  function CommitStep(s: State, c: ClientId, batch: BatchValue, isNew: bool, op: Op, f: Faults, at: Time): State {
    match CommitBatch(s.tables, batch, isNew, f, at)
    case Err(e) => Enter(s, c, Finished(Rejected(e)))
    case Ok(t) => Enter(s, c, Finished(Succeeded)).(tables := t, journal := s.journal + [op])
  }

  function VisitStep(s: State, c: ClientId, p: Session, refused: bool): State
    requires p.Passing?
  {
    if p.next >= |p.loaded| then Enter(s, c, Finished(PassReturned(p.now, p.loaded)))
    else
      var b := p.loaded[p.next];
      match App.PassOne(s.tables.rows, b, p.now, refused)
      case Err(e) => Enter(s, c, Finished(Rejected(e)))
      case Ok(rows) =>
        Enter(s, c, p.(next := p.next + 1)).(
          tables := s.tables.(rows := rows),
          journal := if b.Recalculate(p.now).Some? then s.journal + [Recalc(b.id, p.now)] else s.journal)
  }

  /** One atomic step; an action that is not enabled changes nothing. */
  ghost function Step(s: State, a: Action): State {
    match a
    case New(c, id, store, ingredient, qty, price, receivedAt, expiresAt) =>
      if Idle(s, c)
      then Enter(s, c, Created(NewBatch(id, store, ingredient, qty, price, receivedAt, expiresAt)))
      else s
    case FindByID(c, id) =>
      if !Idle(s, c) then s
      else if id in s.tables.rows then Enter(s, c, Loaded(RowToBatch(s.tables.rows[id])))
      else Enter(s, c, Finished(Rejected(BatchNotFound)))
    case Decide(c, op) =>
      if c in s.sessions && s.sessions[c].Loaded? && Targets(op, s.sessions[c].base.id) then
        var base := s.sessions[c].base;
        match Decision(base, op)
        case Ok(b) => Enter(s, c, Decided(base, op, b))
        case Err(e) => Enter(s, c, Finished(Rejected(e)))
      else s
    case Commit(c, f, at) =>
      if c !in s.sessions then s
      else
        (match s.sessions[c]
         case Created(b) => CommitStep(s, c, b, true, Receive(b), f, at)
         case Decided(_, op, b) => CommitStep(s, c, b, false, op, f, at)
         case _ => s)
    case FindActive(c, reply, now) =>
      if Idle(s, c) && IsSelection(s.tables.rows, IsActive, reply)
      then Enter(s, c, Passing(now, App.Loaded(reply), 0))
      else s
    case Visit(c, refused) =>
      if c in s.sessions && s.sessions[c].Passing? then VisitStep(s, c, s.sessions[c], refused) else s
    case WorkerWrite(row, status, attempts) =>
      s.(tables := s.tables.(outbox := SetStatus(s.tables.outbox, row, status, attempts)))
    case OtherContext(event, at) =>
      if event.Inventory() then s
      else s.(tables := s.tables.(outbox := s.tables.outbox + [NewRow(event, at)]))
  }

  ghost function Run(s: State, actions: seq<Action>): State
    decreases |actions|
  {
    if actions == [] then s else Run(Step(s, actions[0]), actions[1..])
  }

  // ---------- How rows may change ----------

  /** What any number of commits may do to one row. */
  ghost predicate RowEvolves(r: BatchRow, r': BatchRow) {
    && r.version <= r'.version
    && (r.version == r'.version ==> r' == r)
    && r.freshness.Rank() <= r'.freshness.Rank()
    && (r.freshness == Expired ==> r' == r)
    && r'.storeId == r.storeId && r'.ingredientId == r.ingredientId && r'.receivedQty == r.receivedQty
    && r'.purchasePrice == r.purchasePrice && r'.receivedAt == r.receivedAt && r'.expiresAt == r.expiresAt
  }

  ghost predicate Evolves(rows: Rows, rows': Rows) {
    forall id :: id in rows ==> id in rows' && RowEvolves(rows[id], rows'[id])
  }

  // ---------- The invariant ----------

  ghost predicate RowsOk(rows: Rows) {
    WellFiled(rows) && forall id :: id in rows ==> rows[id].writeOffReason != Some("")
  }

  /** The optimistic-lock law: a loaded copy is at most as new as the row, and equal to it at equal versions.
      Freshness only advances in between. */
  ghost predicate Lawful(rows: Rows, base: BatchValue) {
    && base.id in rows
    && base.version <= rows[base.id].version
    && (base.version == rows[base.id].version ==> base == RowToBatch(rows[base.id]))
    && base.expiresAt == rows[base.id].expiresAt
    && base.freshness.Rank() <= rows[base.id].freshness.Rank()
  }

  /** The rank a visit at an instant leaves of a loaded batch. */
  function VisitedRank(b: BatchValue, now: Time): nat {
    match b.Recalculate(now)
    case None => b.freshness.Rank()
    case Some(changed) => changed.freshness.Rank()
  }

  /** Each of the first n loaded batches is stored at least as far on as its visit took it. */
  ghost predicate VisitedUpTo(rows: Rows, now: Time, loaded: seq<BatchValue>, n: nat) {
    forall i :: 0 <= i < n && i < |loaded| ==>
      && loaded[i].id in rows && rows[loaded[i].id].expiresAt == loaded[i].expiresAt
      && VisitedRank(loaded[i], now) <= rows[loaded[i].id].freshness.Rank()
  }

  ghost predicate SessionOk(rows: Rows, session: Session) {
    match session
    case Created(b) =>
      b == NewBatch(b.id, b.storeId, b.ingredientId, b.receivedQty, b.purchasePrice, b.receivedAt, b.expiresAt)
    case Loaded(base) => Lawful(rows, base)
    case Decided(base, op, b) => Lawful(rows, base) && Targets(op, base.id) && Decision(base, op) == Ok(b)
    case Passing(now, loaded, next) =>
      && next <= |loaded|
      && (forall i :: 0 <= i < |loaded| ==>
            Lawful(rows, loaded[i]) && loaded[i].freshness != Expired && loaded[i].remainingQty > 0)
      && VisitedUpTo(rows, now, loaded, next)
    case Finished(PassReturned(now, loaded)) => VisitedUpTo(rows, now, loaded, |loaded|)
    case Finished(_) => true
  }

  ghost predicate Inv(s: State) {
    && RowsOk(s.tables.rows)
    && forall c :: c in s.sessions ==> SessionOk(s.tables.rows, s.sessions[c])
  }

  lemma SessionSurvives(rows: Rows, rows': Rows, session: Session)
    requires Evolves(rows, rows') && SessionOk(rows, session)
    ensures SessionOk(rows', session)
  {
  }

  // ---------- The serial machine: each committed operation applied atomically to the current row ----------

  datatype Serial = Serial(rows: Rows, events: seq<Event>)

  /** The freshness one pass moves a row to: straight to expired, otherwise one step towards its class. */
  function Advance(r: BatchRow, now: Time): Freshness {
    if now > r.expiresAt then Expired
    else if r.freshness == Fresh && now > r.expiresAt - AGING_THRESHOLD then Aging
    else if r.freshness == Aging && now > r.expiresAt - CRITICAL_THRESHOLD then Critical
    else r.freshness
  }

  function Take(m: Serial, id: BatchId, qty: int, event: Event): Result<Serial> {
    if id !in m.rows then Err(BatchNotFound)
    else
      var r := m.rows[id];
      if r.freshness == Expired then Err(BatchExpired)
      else if qty > r.remainingQty then Err(InsufficientBatch)
      else
        Ok(Serial(m.rows[id := r.(remainingQty := r.remainingQty - qty, version := r.version + 1)],
                  m.events + [event]))
  }

  /** An atomic command; no versions are compared. */
  function Execute(m: Serial, op: Op): Result<Serial> {
    match op
    case Receive(b) =>
      if b.id in m.rows then Err(DuplicateKey)
      else
        Ok(Serial(m.rows[b.id := BatchRow(b.id, b.storeId, b.ingredientId, b.receivedQty, b.receivedQty,
                                          b.purchasePrice, b.receivedAt, b.expiresAt, Fresh, false, None, 1)],
                  m.events + [BatchReceivedEvent(b.id, b.ingredientId, b.storeId, b.receivedQty)]))
    case Consume(id, qty) =>
      if id !in m.rows then Err(BatchNotFound)
      else
        var r := m.rows[id];
        Take(m, id, qty, BatchConsumedEvent(id, r.ingredientId, r.storeId, qty, r.remainingQty - qty))
    case Writeoff(id, qty, reason) => Take(m, id, qty, BatchWrittenOffEvent(id, qty, reason))
    case Recalc(id, now) =>
      if id in m.rows && IsActive(m.rows[id]) && Advance(m.rows[id], now) != m.rows[id].freshness then
        var r := m.rows[id];
        Ok(m.(rows := m.rows[id := r.(freshness := Advance(r, now), version := r.version + 1)]))
      else Err(BatchNotFound)
  }

  function Replay(journal: seq<Op>): Result<Serial> {
    if journal == [] then Ok(Serial(map[], []))
    else
      var m :- Replay(journal[..|journal| - 1]);
      Execute(m, journal[|journal| - 1])
  }

  /** What the serial machine sees of the tables, and of the concurrent state. */
  function AbsTables(t: Tables): Serial {
    Serial(t.rows, ContextEvents(t.outbox, true))
  }

  function Abs(s: State): Serial {
    AbsTables(s.tables)
  }

  // ---------- Each step keeps the invariant and is one serial operation or none ----------

  ghost predicate Good(s: State, s': State) {
    && Evolves(s.tables.rows, s'.tables.rows)
    && Inv(s')
    && ((s'.journal == s.journal && Abs(s') == Abs(s)) ||
        (exists op :: s'.journal == s.journal + [op] && Execute(Abs(s), op) == Ok(Abs(s'))))
  }

  lemma EnterIsGood(s: State, c: ClientId, session: Session)
    requires Inv(s) && SessionOk(s.tables.rows, session)
    ensures Good(s, Enter(s, c, session))
  {
  }

  lemma TablesMoveIsGood(s: State, s': State, c: ClientId, op: Op)
    requires Inv(s) && c in s'.sessions && s'.sessions == s.sessions[c := s'.sessions[c]]
    requires Evolves(s.tables.rows, s'.tables.rows) && RowsOk(s'.tables.rows)
    requires SessionOk(s'.tables.rows, s'.sessions[c])
    requires s'.journal == s.journal + [op] && Execute(Abs(s), op) == Ok(Abs(s'))
    ensures Good(s, s')
  {
    forall d | d in s'.sessions
      ensures SessionOk(s'.tables.rows, s'.sessions[d])
    {
      if d != c {
        SessionSurvives(s.tables.rows, s'.tables.rows, s.sessions[d]);
      }
    }
  }

  lemma PublishOne(o: seq<OutboxRow>, e: Event, at: Time)
    requires e.Inventory()
    ensures ContextEvents(o + NewRows([e], at), true) == ContextEvents(o, true) + [e]
  {
    assert NewRows([e], at) == [NewRow(e, at)];
    ContextEventsAppend(o, NewRow(e, at), true);
  }

  lemma ReceiveCommitIsGood(s: State, c: ClientId, f: Faults, at: Time)
    requires Inv(s) && c in s.sessions && s.sessions[c].Created?
    ensures Good(s, Step(s, Commit(c, f, at)))
  {
    var b := s.sessions[c].batch;
    var s' := Step(s, Commit(c, f, at));
    match CommitBatch(s.tables, b, true, f, at)
    case Err(e) => EnterIsGood(s, c, Finished(Rejected(e)));
    case Ok(t) =>
      assert b.id !in s.tables.rows;
      PublishOne(s.tables.outbox, b.events[0], at);
      TablesMoveIsGood(s, s', c, Receive(b));
  }

  /** A decision taken on the current row, written back, is the atomic command. */
  lemma DecisionExecutes(rows: Rows, events: seq<Event>, base: BatchValue, op: Op, b: BatchValue)
    requires RowsOk(rows) && base.id in rows && base == RowToBatch(rows[base.id])
    requires Targets(op, base.id) && Decision(base, op) == Ok(b)
    ensures |b.events| == 1 && b.events[0].Inventory()
    ensures UpdateRow(rows, b).Ok?
    ensures Execute(Serial(rows, events), op) == Ok(Serial(UpdateRow(rows, b).value, events + b.events))
    ensures Evolves(rows, UpdateRow(rows, b).value) && RowsOk(UpdateRow(rows, b).value)
  {
    var r := rows[base.id];
    assert r.writeOffReason == NilableStr(PtrStr(r.writeOffReason));
    assert UpdatedRow(r, b) == r.(remainingQty := r.remainingQty - op.qty, version := r.version + 1);
    if op.Consume? {
      assert b.events == [BatchConsumedEvent(op.id, r.ingredientId, r.storeId, op.qty, r.remainingQty - op.qty)];
    } else {
      assert b.events == [BatchWrittenOffEvent(op.id, op.qty, op.reason)];
    }
  }

  lemma CommandCommitIsGood(s: State, c: ClientId, f: Faults, at: Time)
    requires Inv(s) && c in s.sessions && s.sessions[c].Decided?
    ensures Good(s, Step(s, Commit(c, f, at)))
  {
    var base, op, b := s.sessions[c].base, s.sessions[c].op, s.sessions[c].batch;
    assert b.id == base.id && b.version == base.version;
    match CommitBatch(s.tables, b, false, f, at)
    case Err(e) => EnterIsGood(s, c, Finished(Rejected(e)));
    case Ok(t) =>
      DecisionExecutes(s.tables.rows, Abs(s).events, base, op, b);
      assert b.events == [b.events[0]];
      PublishOne(s.tables.outbox, b.events[0], at);
      TablesMoveIsGood(s, Step(s, Commit(c, f, at)), c, op);
  }

  lemma VisitIsGood(s: State, c: ClientId, refused: bool)
    requires Inv(s) && c in s.sessions && s.sessions[c].Passing?
    ensures Good(s, VisitStep(s, c, s.sessions[c], refused))
  {
    var p := s.sessions[c];
    var s' := VisitStep(s, c, p, refused);
    if p.next >= |p.loaded| {
      EnterIsGood(s, c, Finished(PassReturned(p.now, p.loaded)));
    } else {
      var b := p.loaded[p.next];
      match App.PassOne(s.tables.rows, b, p.now, refused)
      case Err(e) => EnterIsGood(s, c, Finished(Rejected(e)));
      case Ok(rows) =>
        if b.Recalculate(p.now).None? {
          EnterIsGood(s, c, p.(next := p.next + 1));
          assert s' == Enter(s, c, p.(next := p.next + 1));
        } else {
          assert b == RowToBatch(s.tables.rows[b.id]);
          VisitedRow(s.tables.rows, rows, p);
          VisitExecutes(s.tables.rows, rows, Abs(s).events, b, p.now);
          TablesMoveIsGood(s, s', c, Recalc(b.id, p.now));
        }
    }
  }

  /** A visit that saves a current copy is the atomic recalculation. */
  lemma VisitExecutes(rows: Rows, rows': Rows, events: seq<Event>, b: BatchValue, now: Time)
    requires RowsOk(rows) && b.id in rows && b == RowToBatch(rows[b.id])
    requires b.freshness != Expired && b.remainingQty > 0
    requires b.Recalculate(now).Some? && Ok(rows') == App.PassOne(rows, b, now, false)
    ensures Execute(Serial(rows, events), Recalc(b.id, now)) == Ok(Serial(rows', events))
  {
    var r := rows[b.id];
    assert r.writeOffReason == NilableStr(PtrStr(r.writeOffReason));
    assert UpdatedRow(r, b.Recalculate(now).value) == r.(freshness := Advance(r, now), version := r.version + 1);
  }

  lemma VisitedRow(rows: Rows, rows': Rows, p: Session)
    requires p.Passing? && p.next < |p.loaded| && RowsOk(rows) && SessionOk(rows, p)
    requires var b := p.loaded[p.next];
             b.Recalculate(p.now).Some? && b == RowToBatch(rows[b.id]) &&
             Ok(rows') == App.PassOne(rows, b, p.now, false)
    ensures Evolves(rows, rows') && RowsOk(rows') && SessionOk(rows', p.(next := p.next + 1))
  {
    var b := p.loaded[p.next];
    assert rows' == rows[b.id := UpdatedRow(rows[b.id], b.Recalculate(p.now).value)];
    assert Evolves(rows, rows');
    SessionSurvives(rows, rows', p);
  }

  lemma FreshPassIsOk(rows: Rows, reply: seq<BatchRow>, now: Time)
    requires IsSelection(rows, IsActive, reply)
    ensures SessionOk(rows, Passing(now, App.Loaded(reply), 0))
  {
    forall i | 0 <= i < |reply|
      ensures Lawful(rows, App.Loaded(reply)[i]) && IsActive(reply[i])
    {
      assert reply[i] in reply;
    }
  }

  lemma StepIsGood(s: State, a: Action)
    requires Inv(s)
    ensures Good(s, Step(s, a))
  {
    match a
    case New(_, _, _, _, _, _, _, _) => PrivateStepIsGood(s, a);
    case FindByID(_, _) => PrivateStepIsGood(s, a);
    case Decide(_, _) => PrivateStepIsGood(s, a);
    case Commit(c, f, at) =>
      if c in s.sessions && s.sessions[c].Created? {
        ReceiveCommitIsGood(s, c, f, at);
      } else if c in s.sessions && s.sessions[c].Decided? {
        CommandCommitIsGood(s, c, f, at);
      }
    case FindActive(c, reply, now) =>
      if Idle(s, c) && IsSelection(s.tables.rows, IsActive, reply) {
        FreshPassIsOk(s.tables.rows, reply, now);
        EnterIsGood(s, c, Passing(now, App.Loaded(reply), 0));
      }
    case Visit(c, refused) =>
      if c in s.sessions && s.sessions[c].Passing? {
        VisitIsGood(s, c, refused);
      }
    case WorkerWrite(_, _, _) => OutsideStepIsGood(s, a);
    case OtherContext(_, _) => OutsideStepIsGood(s, a);
  }

  /** Steps that change one client's private state only. */
  lemma PrivateStepIsGood(s: State, a: Action)
    requires Inv(s) && (a.New? || a.FindByID? || a.Decide?)
    ensures Good(s, Step(s, a))
  {
  }

  /** Steps of pollers and of the other contexts. */
  lemma OutsideStepIsGood(s: State, a: Action)
    requires Inv(s) && (a.WorkerWrite? || a.OtherContext?)
    ensures Good(s, Step(s, a))
  {
    match a
    case WorkerWrite(row, status, attempts) =>
      ContextEventsSamePayloads(s.tables.outbox, SetStatus(s.tables.outbox, row, status, attempts), true);
    case OtherContext(event, at) =>
      ContextEventsAppend(s.tables.outbox, NewRow(event, at), true);
  }
}
