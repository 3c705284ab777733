/** Any number of clients loading an ordering batch in two separate queries, changing their copy and
    writing it back under the version check, interleaved in every possible way. */
module AllocationProtocol {
  import opened Kernel
  import opened AllocationDomain
  import opened AllocationStore

  type ClientId = nat

  datatype Op = Allocate(order: OrderId, qty: int) | Deallocate(order: OrderId)

  datatype Session =
    | Created(batch: BatchValue)
    | HalfRead(id: BatchId, header: Header)
    | Loaded(base: BatchValue)
    | Decided(base: BatchValue, op: Op, batch: BatchValue)

  datatype Command = Create(batch: BatchValue) | Apply(id: BatchId, op: Op)

  /** The tables, the clients (no entry: between requests), and (history only) the committed commands in order. */
  datatype State = State(tables: Tables, sessions: map<ClientId, Session>, journal: seq<Command>)

  datatype Action =
    | New(c: ClientId, id: BatchId, sku: string, qty: int, eta: Option<Time>)
    | ReadHeader(c: ClientId, id: BatchId)
    | ReadAllocations(c: ClientId, reply: seq<AllocRow>)
    | Decide(c: ClientId, op: Op)
    | Commit(c: ClientId, inserted: seq<AllocRow>, refused: bool, at: Time)

  const INITIAL := State(Tables(map[], []), map[], [])

  ghost function Decision(b: BatchValue, op: Op): Result<BatchValue> {
    match op
    case Allocate(order, qty) => b.Allocate(order, qty)
    case Deallocate(order) => b.Deallocate(order)
  }

  function Enter(s: State, c: ClientId, session: Session): State {
    s.(sessions := s.sessions[c := session])
  }

  function Leave(s: State, c: ClientId): State {
    s.(sessions := s.sessions - {c})
  }

  /** The outcome of the client's transaction: the new tables, or an error that rolls everything back. */
  function Write(t: Tables, session: Session, inserted: seq<AllocRow>, at: Time): Result<Tables>
    requires session.Created? || session.Decided?
  {
    if session.Created? then SaveTables(t, session.batch, inserted, at)
    else UpdateTables(t, session.batch, inserted, at)
  }

  function CommandOf(session: Session): Command
    requires session.Created? || session.Decided?
  {
    if session.Created? then Create(session.batch) else Apply(session.base.id, session.op)
  }

  ghost predicate CanWrite(s: State, c: ClientId, inserted: seq<AllocRow>) {
    && c in s.sessions
    && (s.sessions[c].Created? || s.sessions[c].Decided?)
    && IsInsertion(s.sessions[c].batch, inserted)
  }

  /** One atomic step; an action that is not enabled changes nothing. */
  ghost function Step(s: State, a: Action): State {
    match a
    case New(c, id, sku, qty, eta) =>
      if c in s.sessions then s else Enter(s, c, Created(NewBatch(id, sku, qty, eta)))
    case ReadHeader(c, id) =>
      if c in s.sessions || id !in s.tables.batches then s
      else Enter(s, c, HalfRead(id, s.tables.batches[id]))
    case ReadAllocations(c, reply) =>
      if c in s.sessions && s.sessions[c].HalfRead? &&
         multiset(reply) == multiset(RowsOf(s.tables.allocs, s.sessions[c].id))
      then Enter(s, c, Loaded(Rebuild(s.sessions[c].id, s.sessions[c].header, reply)))
      else s
    case Decide(c, op) =>
      if c in s.sessions && s.sessions[c].Loaded? then
        var base := s.sessions[c].base;
        match Decision(base, op)
        case Ok(b) => Enter(s, c, Decided(base, op, b))
        case Err(_) => Leave(s, c)
      else s
    case Commit(c, inserted, refused, at) =>
      if !CanWrite(s, c, inserted) then s
      else if refused then Leave(s, c)
      else
        match Write(s.tables, s.sessions[c], inserted, at)
        case Ok(t) => Leave(s, c).(tables := t, journal := s.journal + [CommandOf(s.sessions[c])])
        case Err(_) => Leave(s, c)
  }

  ghost function Run(s: State, actions: seq<Action>): State
    decreases |actions|
  {
    if actions == [] then s else Run(Step(s, actions[0]), actions[1..])
  }

  // ---------- The optimistic-lock law, for both halves of a read ----------

  /** A header or a whole copy read earlier is at most as new as the stored batch, and equal to it when the
      versions agree. A torn copy carries the older version, so it is never equal and never current again. */
  ghost predicate SessionOk(t: Tables, session: Session) {
    match session
    case Created(b) => b == NewBatch(b.id, b.sku, b.qty, b.eta)
    case HalfRead(id, h) =>
      && id in t.batches && h.version <= t.batches[id].version
      && (h.version == t.batches[id].version ==> h == t.batches[id])
    case Loaded(base) => Lawful(t, base)
    case Decided(base, op, b) => Lawful(t, base) && Decision(base, op) == Ok(b)
  }

  ghost predicate Lawful(t: Tables, base: BatchValue) {
    && base.id in t.batches
    && base.version <= t.batches[base.id].version
    && (base.version == t.batches[base.id].version ==> base == StoredBatch(t, base.id))
  }

  ghost predicate Inv(s: State) {
    TablesOk(s.tables) && forall c :: c in s.sessions ==> SessionOk(s.tables, s.sessions[c])
  }

  /** Stored batches only move to a higher version, or stay as they are. */
  ghost predicate Evolves(t: Tables, t': Tables) {
    forall id :: id in t.batches ==>
      && id in t'.batches
      && t.batches[id].version <= t'.batches[id].version
      && (t.batches[id].version == t'.batches[id].version ==>
            t'.batches[id] == t.batches[id] && StoredBatch(t', id) == StoredBatch(t, id))
  }

  lemma SessionSurvives(t: Tables, t': Tables, session: Session)
    requires Evolves(t, t') && SessionOk(t, session)
    ensures SessionOk(t', session)
  {
  }

  /** A successful write either adds a new batch or applies the client's operation to the stored batch,
      header and allocations of one version together; nothing else moves. */
  ghost predicate IsCommand(t: Tables, t': Tables, session: Session)
    requires session.Created? || session.Decided?
  {
    && (session.Created? ==>
          session.batch.id !in t.batches && t'.batches.Keys == t.batches.Keys + {session.batch.id} &&
          StoredBatch(t', session.batch.id) == session.batch)
    && (session.Decided? ==>
          && session.base.id in t.batches && t'.batches.Keys == t.batches.Keys
          && session.base == StoredBatch(t, session.base.id)
          && Decision(StoredBatch(t, session.base.id), session.op).Ok?
          && StoredBatch(t', session.base.id) ==
               Decision(StoredBatch(t, session.base.id), session.op).value.(version := session.base.version + 1))
    && (forall other :: other in t.batches && (session.Created? || other != session.base.id) ==>
          other in t'.batches && StoredBatch(t', other) == StoredBatch(t, other))
  }

  lemma WriteIsCommand(t: Tables, session: Session, inserted: seq<AllocRow>, at: Time)
    requires TablesOk(t) && SessionOk(t, session) && (session.Created? || session.Decided?)
    requires IsInsertion(session.batch, inserted) && Write(t, session, inserted, at).Ok?
    ensures var t' := Write(t, session, inserted, at).value;
            IsCommand(t, t', session) && TablesOk(t') && Evolves(t, t')
  {
    if session.Created? {
      SaveIsCommand(t, session, inserted, at);
    } else {
      UpdateIsCommand(t, session, inserted, at);
    }
  }

  lemma SaveIsCommand(t: Tables, session: Session, inserted: seq<AllocRow>, at: Time)
    requires TablesOk(t) && SessionOk(t, session) && session.Created?
    requires IsInsertion(session.batch, inserted) && SaveTables(t, session.batch, inserted, at).Ok?
    ensures var t' := SaveTables(t, session.batch, inserted, at).value;
            IsCommand(t, t', session) && TablesOk(t') && Evolves(t, t')
  {
    SaveRoundTrip(t, session.batch, inserted, at);
  }

  lemma UpdateIsCommand(t: Tables, session: Session, inserted: seq<AllocRow>, at: Time)
    requires TablesOk(t) && SessionOk(t, session) && session.Decided?
    requires IsInsertion(session.batch, inserted) && UpdateTables(t, session.batch, inserted, at).Ok?
    ensures var t' := UpdateTables(t, session.batch, inserted, at).value;
            IsCommand(t, t', session) && TablesOk(t') && Evolves(t, t')
  {
    DecisionKeepsIdentity(session.base, session.op);
    UpdateRoundTrip(t, session.batch, inserted, at);
  }

  lemma DecisionKeepsIdentity(b: BatchValue, op: Op)
    requires Decision(b, op).Ok?
    ensures Decision(b, op).value == b.(allocations := Decision(b, op).value.allocations)
  {
  }

  lemma StepKeepsInv(s: State, a: Action)
    requires Inv(s)
    ensures Inv(Step(s, a)) && Evolves(s.tables, Step(s, a).tables)
  {
    match a
    case New(_, _, _, _, _) => PrivateStepKeepsInv(s, a);
    case ReadHeader(_, _) => PrivateStepKeepsInv(s, a);
    case ReadAllocations(c, reply) => ReadKeepsInv(s, c, reply);
    case Decide(_, _) => PrivateStepKeepsInv(s, a);
    case Commit(c, inserted, refused, at) =>
      if CanWrite(s, c, inserted) && !refused && Write(s.tables, s.sessions[c], inserted, at).Ok? {
        CommitKeepsInv(s, c, inserted, at);
      }
  }

  /** Steps that change one client's private state only. */
  lemma PrivateStepKeepsInv(s: State, a: Action)
    requires Inv(s) && (a.New? || a.ReadHeader? || a.Decide?)
    ensures Inv(Step(s, a)) && Step(s, a).tables == s.tables
  {
  }

  lemma ReadKeepsInv(s: State, c: ClientId, reply: seq<AllocRow>)
    requires Inv(s)
    ensures Inv(Step(s, ReadAllocations(c, reply))) && Step(s, ReadAllocations(c, reply)).tables == s.tables
  {
    if c in s.sessions && s.sessions[c].HalfRead? &&
       multiset(reply) == multiset(RowsOf(s.tables.allocs, s.sessions[c].id)) {
      AllocMapOrderIrrelevant(RowsOf(s.tables.allocs, s.sessions[c].id), reply);
    }
  }

  lemma CommitKeepsInv(s: State, c: ClientId, inserted: seq<AllocRow>, at: Time)
    requires Inv(s) && CanWrite(s, c, inserted) && Write(s.tables, s.sessions[c], inserted, at).Ok?
    ensures var s' := Step(s, Commit(c, inserted, false, at)); Inv(s') && Evolves(s.tables, s'.tables)
  {
    WriteIsCommand(s.tables, s.sessions[c], inserted, at);
    TablesMove(s, Step(s, Commit(c, inserted, false, at)));
  }

  lemma TablesMove(s: State, s': State)
    requires Inv(s) && TablesOk(s'.tables) && Evolves(s.tables, s'.tables)
    requires forall c :: c in s'.sessions ==> c in s.sessions && s'.sessions[c] == s.sessions[c]
    ensures Inv(s')
  {
    forall c | c in s'.sessions
      ensures SessionOk(s'.tables, s'.sessions[c])
    {
      SessionSurvives(s.tables, s'.tables, s.sessions[c]);
    }
  }

  lemma {:induction false} RunKeepsInv(s: State, actions: seq<Action>)
    requires Inv(s)
    ensures Inv(Run(s, actions)) && Evolves(s.tables, Run(s, actions).tables)
    decreases |actions|
  {
    if actions != [] {
      StepKeepsInv(s, actions[0]);
      RunKeepsInv(Step(s, actions[0]), actions[1..]);
    }
  }

  // ---------- Theorems over every interleaving ----------

  lemma CommitAtVersion(s: State, c: ClientId, inserted: seq<AllocRow>, at: Time)
    requires Inv(s) && CanWrite(s, c, inserted) && s.sessions[c].Decided?
    ensures var base := s.sessions[c].base;
            var s' := Step(s, Commit(c, inserted, false, at));
            && base.id in s.tables.batches
            && (base == StoredBatch(s.tables, base.id) ==> IsCommand(s.tables, s'.tables, s.sessions[c]))
            && (base != StoredBatch(s.tables, base.id) ==> s'.tables == s.tables)
  {
    var session := s.sessions[c];
    assert session.batch.id == session.base.id && session.batch.version == session.base.version;
    if session.base.version == s.tables.batches[session.base.id].version {
      assert Write(s.tables, session, inserted, at).Ok?;
      WriteIsCommand(s.tables, session, inserted, at);
    }
  }

  /** Torn reads never commit: an update goes through exactly when the copy it was computed from, header and
      allocations, is the batch as stored now; it then is that one operation on the stored batch, and
      otherwise it changes nothing. */
  lemma TornReadsNeverCommit(before: seq<Action>, c: ClientId, inserted: seq<AllocRow>, at: Time)
    requires CanWrite(Run(INITIAL, before), c, inserted) && Run(INITIAL, before).sessions[c].Decided?
    ensures var s := Run(INITIAL, before);
            var base := s.sessions[c].base;
            var s' := Step(s, Commit(c, inserted, false, at));
            && base.id in s.tables.batches
            && (base == StoredBatch(s.tables, base.id) ==> IsCommand(s.tables, s'.tables, s.sessions[c]))
            && (base != StoredBatch(s.tables, base.id) ==> s'.tables == s.tables)
  {
    RunKeepsInv(INITIAL, before);
    CommitAtVersion(Run(INITIAL, before), c, inserted, at);
  }

  lemma ReadsLoad(s: State, c: ClientId, id: BatchId, reply: seq<AllocRow>)
    requires Inv(s) && c !in s.sessions && id in s.tables.batches
    requires multiset(reply) == multiset(RowsOf(s.tables.allocs, id))
    ensures Step(Step(s, ReadHeader(c, id)), ReadAllocations(c, reply)) ==
            Enter(s, c, Loaded(StoredBatch(s.tables, id)))
  {
    AllocMapOrderIrrelevant(RowsOf(s.tables.allocs, id), reply);
    var half := HalfRead(id, s.tables.batches[id]);
    assert Step(s, ReadHeader(c, id)) == Enter(s, c, half);
    AllocationsRead(Enter(s, c, half), c, reply);
    EnterTwice(s, c, half, Loaded(StoredBatch(s.tables, id)));
  }

  lemma AllocationsRead(s: State, c: ClientId, reply: seq<AllocRow>)
    requires c in s.sessions && s.sessions[c].HalfRead?
    requires multiset(reply) == multiset(RowsOf(s.tables.allocs, s.sessions[c].id))
    ensures Step(s, ReadAllocations(c, reply)) ==
            Enter(s, c, Loaded(Rebuild(s.sessions[c].id, s.sessions[c].header, reply)))
  {
  }

  lemma EnterTwice(s: State, c: ClientId, first: Session, second: Session)
    ensures Enter(Enter(s, c, first), c, second) == Enter(s, c, second)
  {
  }

  lemma DecideThenCommit(t: Tables, s: State, c: ClientId, base: BatchValue, op: Op, inserted: seq<AllocRow>, at: Time)
    requires c in s.sessions && s.sessions[c] == Loaded(base) && s.tables == t
    requires Decision(base, op).Ok? ==> IsInsertion(Decision(base, op).value, inserted)
    ensures var s' := Step(Step(s, Decide(c, op)), Commit(c, inserted, false, at));
            match Decision(base, op)
            case Err(_) => s'.tables == t
            case Ok(b) => s'.tables == match UpdateTables(t, b, inserted, at) case Ok(t') => t' case Err(_) => t
  {
    var s1 := Step(s, Decide(c, op));
    match Decision(base, op)
    case Err(_) => assert s1 == Leave(s, c);
    case Ok(b) => assert s1 == Enter(s, c, Decided(base, op, b));
  }

  /** If another commit on the batch falls between the two queries, the copy is dead: in every continuation
      in which the client decides on it, the commit finds a newer version and changes nothing. */
  lemma TornCopyStaysDead(before: seq<Action>, between: seq<Action>, rest: seq<Action>, c: ClientId,
                          inserted: seq<AllocRow>, at: Time)
    requires c in Run(INITIAL, before).sessions && Run(INITIAL, before).sessions[c].HalfRead?
    requires var half := Run(INITIAL, before).sessions[c];
             var t := Run(Run(INITIAL, before), between).tables;
             half.id in t.batches ==> t.batches[half.id].version != half.header.version
    requires var half := Run(INITIAL, before).sessions[c];
             var s := Run(Run(Run(INITIAL, before), between), rest);
             && CanWrite(s, c, inserted) && s.sessions[c].Decided?
             && s.sessions[c].base.id == half.id && s.sessions[c].base.version == half.header.version
    ensures var s := Run(Run(Run(INITIAL, before), between), rest);
            && Write(s.tables, s.sessions[c], inserted, at) == Err(OptimisticLock)
            && Step(s, Commit(c, inserted, false, at)).tables == s.tables
  {
    var s0 := Run(INITIAL, before);
    var s1 := Run(s0, between);
    var s := Run(s1, rest);
    RunKeepsInv(INITIAL, before);
    RunKeepsInv(s0, between);
    RunKeepsInv(s1, rest);
    HeaderFallsBehind(s0.tables, s1.tables, s.tables, s0.sessions[c]);
    OldCopyIsRefused(s, c, inserted, at);
  }

  /** A header that was once found changed stays older than the stored batch. */
  lemma HeaderFallsBehind(t0: Tables, t1: Tables, t: Tables, half: Session)
    requires half.HalfRead? && SessionOk(t0, half) && Evolves(t0, t1) && Evolves(t1, t)
    requires half.id in t1.batches ==> t1.batches[half.id].version != half.header.version
    ensures half.id in t.batches && half.header.version < t.batches[half.id].version
  {
  }

  lemma OldCopyIsRefused(s: State, c: ClientId, inserted: seq<AllocRow>, at: Time)
    requires Inv(s) && CanWrite(s, c, inserted) && s.sessions[c].Decided?
    requires var base := s.sessions[c].base;
             base.id in s.tables.batches && base.version < s.tables.batches[base.id].version
    ensures Write(s.tables, s.sessions[c], inserted, at) == Err(OptimisticLock)
    ensures Step(s, Commit(c, inserted, false, at)).tables == s.tables
  {
    DecisionKeepsIdentity(s.sessions[c].base, s.sessions[c].op);
  }

  /** Commands with a negative quantity are the only ones excluded. */
  predicate Sensible(a: Action) {
    match a
    case New(_, _, _, qty, _) => qty >= 0
    case Decide(_, Allocate(_, qty)) => qty >= 0
    case _ => true
  }

  ghost predicate SensibleSession(session: Session) {
    match session
    case Created(b) => b.Valid()
    case Decided(_, Allocate(_, qty), _) => qty >= 0
    case _ => true
  }

  ghost predicate NothingOverbooked(s: State) {
    && (forall id :: id in s.tables.batches ==> StoredBatch(s.tables, id).Valid())
    && (forall c :: c in s.sessions ==> SensibleSession(s.sessions[c]))
  }

  lemma DecisionKeepsValid(b: BatchValue, op: Op)
    requires b.Valid() && Decision(b, op).Ok? && (op.Allocate? ==> op.qty >= 0)
    ensures Decision(b, op).value.Valid()
  {
    match op
    case Allocate(order, qty) => AllocateKeepsValidIff(b, order, qty);
    case Deallocate(order) => DeallocateKeepsValid(b, order);
  }

  lemma StepKeepsNothingOverbooked(s: State, a: Action)
    requires Inv(s) && NothingOverbooked(s) && Sensible(a)
    ensures NothingOverbooked(Step(s, a))
  {
    match a
    case New(c, id, sku, qty, eta) => NewBatchValidIff(id, sku, qty, eta);
    case Commit(c, inserted, refused, at) =>
      if CanWrite(s, c, inserted) && !refused && Write(s.tables, s.sessions[c], inserted, at).Ok? {
        WriteKeepsValid(s.tables, s.sessions[c], inserted, at);
      }
    case _ =>
  }

  lemma WriteKeepsValid(t: Tables, session: Session, inserted: seq<AllocRow>, at: Time)
    requires TablesOk(t) && SessionOk(t, session) && SensibleSession(session) && (session.Created? || session.Decided?)
    requires IsInsertion(session.batch, inserted) && Write(t, session, inserted, at).Ok?
    requires forall id :: id in t.batches ==> StoredBatch(t, id).Valid()
    ensures var t' := Write(t, session, inserted, at).value;
            forall id :: id in t'.batches ==> StoredBatch(t', id).Valid()
  {
    WriteIsCommand(t, session, inserted, at);
    if session.Decided? {
      DecisionKeepsValid(session.base, session.op);
    }
  }

  lemma {:induction false} RunKeepsNothingOverbooked(s: State, actions: seq<Action>)
    requires Inv(s) && NothingOverbooked(s) && forall a :: a in actions ==> Sensible(a)
    ensures NothingOverbooked(Run(s, actions))
    decreases |actions|
  {
    if actions != [] {
      assert actions[0] in actions;
      StepKeepsInv(s, actions[0]);
      StepKeepsNothingOverbooked(s, actions[0]);
      RunKeepsNothingOverbooked(Step(s, actions[0]), actions[1..]);
    }
  }

  /** No stored batch is ever over-allocated, under every interleaving of commands with quantities >= 0;
      AllocateKeepsValidIff and NegativeAllocationOverbooks show that the condition is needed. */
  lemma NoStoredBatchOverAllocated(actions: seq<Action>, id: BatchId)
    requires forall a :: a in actions ==> Sensible(a)
    requires id in Run(INITIAL, actions).tables.batches
    ensures StoredBatch(Run(INITIAL, actions).tables, id).Valid()
  {
    RunKeepsNothingOverbooked(INITIAL, actions);
  }
}
