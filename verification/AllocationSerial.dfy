/** Ordering batches behave as if each committed command had been applied atomically, one after another. */
module AllocationSerial {
  import opened Kernel
  import opened AllocationDomain
  import opened AllocationStore
  import opened AllocationProtocol

  /** The stored batches as the serial machine sees them, header and allocations together. */
  ghost function Stored(t: Tables): map<BatchId, BatchValue> {
    map id | id in t.batches :: StoredBatch(t, id)
  }

  /** An atomic command; there are no rows, copies or versions to compare. */
  ghost function Execute(m: map<BatchId, BatchValue>, command: Command): Result<map<BatchId, BatchValue>> {
    match command
    case Create(b) => if b.id in m then Err(DuplicateKey) else Ok(m[b.id := b])
    case Apply(id, op) =>
      if id !in m then Err(BatchNotFound)
      else
        var b := m[id];
        match op
        case Allocate(order, q) =>
          if q > b.qty - Sum(b.allocations) then Err(InsufficientQty)
          else Ok(m[id := b.(allocations := b.allocations[order := q], version := b.version + 1)])
        case Deallocate(order) =>
          if order !in b.allocations then Err(OrderNotAllocated)
          else Ok(m[id := b.(allocations := b.allocations - {order}, version := b.version + 1)])
  }

  /** The client's decision on a copy is the serial operation on it. */
  lemma DecisionExecutes(m: map<BatchId, BatchValue>, id: BatchId, op: Op)
    requires id in m
    ensures match Decision(m[id], op)
            case Ok(b) => Execute(m, Apply(id, op)) == Ok(m[id := b.(version := m[id].version + 1)])
            case Err(e) => Execute(m, Apply(id, op)) == Err(e)
  {
    match op
    case Allocate(order, q) => AllocateIs(m[id], order, q);
    case Deallocate(order) => DeallocateIs(m[id], order);
  }

  ghost function Replay(journal: seq<Command>): Result<map<BatchId, BatchValue>> {
    if journal == [] then Ok(map[])
    else
      var m :- Replay(journal[..|journal| - 1]);
      Execute(m, journal[|journal| - 1])
  }

  lemma WriteExecutes(t: Tables, session: Session, inserted: seq<AllocRow>, at: Time)
    requires TablesOk(t) && SessionOk(t, session) && (session.Created? || session.Decided?)
    requires IsInsertion(session.batch, inserted) && Write(t, session, inserted, at).Ok?
    ensures Execute(Stored(t), CommandOf(session)) == Ok(Stored(Write(t, session, inserted, at).value))
  {
    WriteIsCommand(t, session, inserted, at);
    CommandExecutes(t, Write(t, session, inserted, at).value, session);
  }

  lemma CommandExecutes(t: Tables, t': Tables, session: Session)
    requires (session.Created? || session.Decided?) && IsCommand(t, t', session)
    ensures Execute(Stored(t), CommandOf(session)) == Ok(Stored(t'))
  {
    if session.Created? {
      StoredAfter(t, t', session.batch.id, session.batch);
    } else {
      OperationExecutes(t, t', session.base, session.op);
    }
  }

  lemma OperationExecutes(t: Tables, t': Tables, base: BatchValue, op: Op)
    requires base.id in t.batches && t'.batches.Keys == t.batches.Keys && base == StoredBatch(t, base.id)
    requires Decision(base, op).Ok?
    requires StoredBatch(t', base.id) == Decision(base, op).value.(version := base.version + 1)
    requires forall other :: other in t.batches && other != base.id ==> StoredBatch(t', other) == StoredBatch(t, other)
    ensures Execute(Stored(t), Apply(base.id, op)) == Ok(Stored(t'))
  {
    assert Stored(t)[base.id] == base;
    DecisionExecutes(Stored(t), base.id, op);
    StoredAfter(t, t', base.id, Decision(base, op).value.(version := base.version + 1));
  }

  lemma StoredAfter(t: Tables, t': Tables, id: BatchId, b: BatchValue)
    requires t'.batches.Keys == t.batches.Keys + {id} && StoredBatch(t', id) == b
    requires forall other :: other in t.batches && other != id ==>
               other in t'.batches && StoredBatch(t', other) == StoredBatch(t, other)
    ensures Stored(t') == Stored(t)[id := b]
  {
  }

  /** One step is one serial command, or changes neither tables nor journal. */
  lemma StepExecutes(s: State, a: Action)
    requires Inv(s)
    ensures var s' := Step(s, a);
            (s'.journal == s.journal && s'.tables == s.tables) ||
            (exists command :: s'.journal == s.journal + [command] &&
                               Execute(Stored(s.tables), command) == Ok(Stored(s'.tables)))
  {
    if a.Commit? && CanWrite(s, a.c, a.inserted) && !a.refused &&
       Write(s.tables, s.sessions[a.c], a.inserted, a.at).Ok? {
      WriteExecutes(s.tables, s.sessions[a.c], a.inserted, a.at);
      assert Step(s, a).journal == s.journal + [CommandOf(s.sessions[a.c])];
    }
  }

  lemma ReplayAppend(journal: seq<Command>, command: Command, m: map<BatchId, BatchValue>, m': map<BatchId, BatchValue>)
    requires Replay(journal) == Ok(m) && Execute(m, command) == Ok(m')
    ensures Replay(journal + [command]) == Ok(m')
  {
    assert (journal + [command])[..|journal|] == journal;
  }

  lemma StepReplays(s: State, a: Action)
    requires Inv(s) && Replay(s.journal) == Ok(Stored(s.tables))
    ensures Replay(Step(s, a).journal) == Ok(Stored(Step(s, a).tables))
  {
    var next := Step(s, a);
    StepExecutes(s, a);
    if next.journal != s.journal || Stored(next.tables) != Stored(s.tables) {
      var command :| next.journal == s.journal + [command] &&
                     Execute(Stored(s.tables), command) == Ok(Stored(next.tables));
      ReplayAppend(s.journal, command, Stored(s.tables), Stored(next.tables));
    }
  }

  lemma {:induction false} ReplayExtends(s: State, actions: seq<Action>)
    requires Inv(s) && Replay(s.journal) == Ok(Stored(s.tables))
    ensures Replay(Run(s, actions).journal) == Ok(Stored(Run(s, actions).tables))
    decreases |actions|
  {
    if actions != [] {
      StepKeepsInv(s, actions[0]);
      StepReplays(s, actions[0]);
      ReplayExtends(Step(s, actions[0]), actions[1..]);
    }
  }

  /** Optimistic locking refines atomic commands: in every reachable state each stored batch, allocations and version
      included, is what the committed commands make of it one by one in commit order. */
  lemma Serializable(actions: seq<Action>)
    ensures Replay(Run(INITIAL, actions).journal) == Ok(Stored(Run(INITIAL, actions).tables))
  {
    assert Stored(INITIAL.tables) == map[];
    ReplayExtends(INITIAL, actions);
  }

  /** Both reads, the decision and the commit in a row, without interference, are the serial operation: the same
      result, and refused with nothing changed exactly when it is refused. */
  lemma UninterruptedCommandIsSerial(s: State, c: ClientId, id: BatchId, reply: seq<AllocRow>, op: Op,
                                     inserted: seq<AllocRow>, at: Time)
    requires Inv(s) && c !in s.sessions && id in s.tables.batches
    requires multiset(reply) == multiset(RowsOf(s.tables.allocs, id))
    requires var d := Decision(StoredBatch(s.tables, id), op); d.Ok? ==> IsInsertion(d.value, inserted)
    ensures var s' := Step(Step(Step(Step(s, ReadHeader(c, id)), ReadAllocations(c, reply)), Decide(c, op)),
                           Commit(c, inserted, false, at));
            match Execute(Stored(s.tables), Apply(id, op))
            case Ok(m) => Stored(s'.tables) == m
            case Err(_) => s'.tables == s.tables
  {
    var stored := StoredBatch(s.tables, id);
    ReadsLoad(s, c, id, reply);
    DecideThenCommit(s.tables, Enter(s, c, Loaded(stored)), c, stored, op, inserted, at);
    OutcomeIsSerial(s.tables, id, op, inserted, at);
  }

  /** The update of a batch decided on as it is stored is the serial operation. */
  lemma OutcomeIsSerial(t: Tables, id: BatchId, op: Op, inserted: seq<AllocRow>, at: Time)
    requires TablesOk(t) && id in t.batches
    requires var d := Decision(StoredBatch(t, id), op); d.Ok? ==> IsInsertion(d.value, inserted)
    ensures match Decision(StoredBatch(t, id), op)
            case Err(e) => Execute(Stored(t), Apply(id, op)) == Err(e)
            case Ok(b) => UpdateTables(t, b, inserted, at).Ok? &&
                          Execute(Stored(t), Apply(id, op)) == Ok(Stored(UpdateTables(t, b, inserted, at).value))
  {
    var stored := StoredBatch(t, id);
    match Decision(stored, op)
    case Err(_) =>
      assert Stored(t)[id] == stored;
      DecisionExecutes(Stored(t), id, op);
    case Ok(b) =>
      DecisionKeepsIdentity(stored, op);
      UpdateRoundTrip(t, b, inserted, at);
      OperationExecutes(t, UpdateTables(t, b, inserted, at).value, stored, op);
  }

  /** New and commit in a row, under a free identifier: the whole stock, no shares, version 0. */
  lemma UninterruptedCreateIsStored(s: State, c: ClientId, id: BatchId, sku: string, qty: int, eta: Option<Time>,
                                    at: Time)
    requires Inv(s) && c !in s.sessions && id !in s.tables.batches
    ensures var s' := Step(Step(s, New(c, id, sku, qty, eta)), Commit(c, [], false, at));
            Stored(s'.tables) == Stored(s.tables)[id := BatchValue(id, sku, qty, eta, map[], 0)]
  {
    var b := BatchValue(id, sku, qty, eta, map[], 0);
    var s1 := Step(s, New(c, id, sku, qty, eta));
    assert s1 == Enter(s, c, Created(b));
    assert IsInsertion(b, []);
    assert Step(s1, Commit(c, [], false, at)).tables == SaveTables(s.tables, b, [], at).value;
    SaveRoundTrip(s.tables, b, [], at);
    StoredAfter(s.tables, SaveTables(s.tables, b, [], at).value, id, b);
  }
}
