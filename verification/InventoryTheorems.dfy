/** What holds of every interleaving of inventory clients and freshness passes. */
module InventoryTheorems {
  import opened Kernel
  import opened Outbox
  import opened InventoryDomain
  import opened InventoryStore
  import opened InventoryProtocol
  import App = InventoryApplication
  import Lag = FreshnessLag

  // ---------- Runs ----------

  lemma {:induction false} RunIsGood(s: State, actions: seq<Action>)
    requires Inv(s)
    ensures Inv(Run(s, actions))
    ensures Evolves(s.tables.rows, Run(s, actions).tables.rows)
    decreases |actions|
  {
    if actions != [] {
      StepIsGood(s, actions[0]);
      RunIsGood(Step(s, actions[0]), actions[1..]);
    }
  }

  lemma {:induction false} ReplayExtends(s: State, actions: seq<Action>)
    requires Inv(s) && Replay(s.journal) == Ok(Abs(s))
    ensures var s' := Run(s, actions);
            Replay(s'.journal) == Ok(Abs(s'))
    decreases |actions|
  {
    if actions != [] {
      var next := Step(s, actions[0]);
      StepIsGood(s, actions[0]);
      if next.journal != s.journal || Abs(next) != Abs(s) {
        var op :| next.journal == s.journal + [op] && Execute(Abs(s), op) == Ok(Abs(next));
        assert next.journal[..|next.journal| - 1] == s.journal;
      }
      ReplayExtends(next, actions[1..]);
    }
  }

  /** Optimistic locking refines atomic commands: the stored rows (versions included) and the inventory
      events are those of the committed operations executed one after another in commit order. */
  lemma Serializable(actions: seq<Action>)
    ensures var s := Run(INITIAL, actions);
            Replay(s.journal) == Ok(Abs(s))
  {
    ReplayExtends(INITIAL, actions);
  }

  /** No lost update and no ABA: unless the database itself fails, a commit succeeds exactly when the row is
      still, in every column, the one the client loaded; then it is the atomic command on that row, and
      otherwise it changes nothing and reports a lock conflict. */
  lemma CommitSucceedsIffRowUnchanged(before: seq<Action>, c: ClientId, at: Time)
    requires var s := Run(INITIAL, before); c in s.sessions && s.sessions[c].Decided?
    ensures var s := Run(INITIAL, before);
            var s' := Step(s, Commit(c, NO_FAULTS, at));
            var base := s.sessions[c].base;
            && base.id in s.tables.rows
            && (s'.sessions[c] == Finished(Succeeded) <==> RowToBatch(s.tables.rows[base.id]) == base)
            && (s'.sessions[c] == Finished(Succeeded) ==> Execute(Abs(s), s.sessions[c].op) == Ok(Abs(s')))
            && (s'.sessions[c] != Finished(Succeeded) ==>
                  s'.sessions[c] == Finished(Rejected(OptimisticLock)) && s'.tables == s.tables)
  {
    RunIsGood(INITIAL, before);
    CommitOkIffUnchanged(Run(INITIAL, before), c, at);
  }

  lemma CommitOkIffUnchanged(s: State, c: ClientId, at: Time)
    requires Inv(s) && c in s.sessions && s.sessions[c].Decided?
    ensures var base, op, b := s.sessions[c].base, s.sessions[c].op, s.sessions[c].batch;
            var s' := Step(s, Commit(c, NO_FAULTS, at));
            && s' == CommitStep(s, c, b, false, op, NO_FAULTS, at)
            && base.id in s.tables.rows
            && (RowToBatch(s.tables.rows[base.id]) == base ==>
                  s'.sessions[c] == Finished(Succeeded) && Execute(Abs(s), op) == Ok(Abs(s')))
            && (RowToBatch(s.tables.rows[base.id]) != base ==>
                  s'.sessions[c] == Finished(Rejected(OptimisticLock)) && s'.tables == s.tables)
  {
    var base, op, b := s.sessions[c].base, s.sessions[c].op, s.sessions[c].batch;
    assert b.id == base.id && b.version == base.version;
    if RowToBatch(s.tables.rows[base.id]) == base {
      DecisionExecutes(s.tables.rows, Abs(s).events, base, op, b);
      assert b.events == [b.events[0]];
      PublishOne(s.tables.outbox, b.events[0], at);
    }
  }

  /** A received batch never overwrites a row, even if its identifier were already taken. */
  lemma ReceiveNeverOverwrites(before: seq<Action>, c: ClientId, f: Faults, at: Time)
    requires var s := Run(INITIAL, before); c in s.sessions && s.sessions[c].Created?
    ensures var s := Run(INITIAL, before);
            var s' := Step(s, Commit(c, f, at));
            s.sessions[c].batch.id in s.tables.rows ==> s'.tables == s.tables
  {
    RunIsGood(INITIAL, before);
  }

  /** A handler that ends in an error leaves both tables as they were. */
  lemma ErrorLeavesTables(s: State, a: Action, c: ClientId)
    requires c in Step(s, a).sessions && Step(s, a).sessions[c].Finished?
    requires Step(s, a).sessions[c].outcome.Rejected?
    requires c in s.sessions ==> s.sessions[c] != Step(s, a).sessions[c]
    ensures Step(s, a).tables == s.tables && Step(s, a).journal == s.journal
  {
  }

  /** Read, decide and commit in a row, without interference, are the consume and write-off handlers. */
  lemma UninterruptedCommandIsHandler(s: State, c: ClientId, id: BatchId, op: Op, f: Faults, at: Time)
    requires Inv(s) && Idle(s, c) && Targets(op, id)
    ensures var s' := Run(s, [FindByID(c, id), Decide(c, op), Commit(c, f, at)]);
            c in s'.sessions &&
            match (if op.Consume? then App.ConsumeOutcome(s.tables, id, op.qty, f, at)
                   else App.WriteOffOutcome(s.tables, id, op.qty, op.reason, f, at))
            case Ok(t) => s'.tables == t && s'.sessions[c] == Finished(Succeeded)
            case Err(e) => s'.tables == s.tables && s'.sessions[c] == Finished(Rejected(e))
  {
    RunOfThree(s, FindByID(c, id), Decide(c, op), Commit(c, f, at));
    var s1 := Step(s, FindByID(c, id));
    if id in s.tables.rows {
      var base := RowToBatch(s.tables.rows[id]);
      assert s1 == Enter(s, c, Loaded(base)) && base.id == id;
      DecideThenCommit(s1, c, op, f, at);
    } else {
      assert Step(Step(s1, Decide(c, op)), Commit(c, f, at)) == s1;
    }
  }

  lemma RunOfThree(s: State, a1: Action, a2: Action, a3: Action)
    ensures Run(s, [a1, a2, a3]) == Step(Step(Step(s, a1), a2), a3)
  {
    assert [a1, a2, a3][1..] == [a2, a3] && [a2, a3][1..] == [a3] && [a3][1..] == [];
    var s1 := Step(s, a1);
    var s2 := Step(s1, a2);
    var s3 := Step(s2, a3);
    assert Run(s, [a1, a2, a3]) == Run(s1, [a2, a3]) == Run(s2, [a3]) == Run(s3, []) == s3;
  }

  lemma DecideThenCommit(s: State, c: ClientId, op: Op, f: Faults, at: Time)
    requires c in s.sessions && s.sessions[c].Loaded? && Targets(op, s.sessions[c].base.id)
    ensures var s' := Step(Step(s, Decide(c, op)), Commit(c, f, at));
            c in s'.sessions &&
            match App.Withdraw(s.tables, Decision(s.sessions[c].base, op), f, at)
            case Ok(t) => s'.tables == t && s'.sessions[c] == Finished(Succeeded)
            case Err(e) => s'.tables == s.tables && s'.sessions[c] == Finished(Rejected(e))
  {
    var base := s.sessions[c].base;
    var s1 := Step(s, Decide(c, op));
    match Decision(base, op)
    case Ok(b) =>
      assert s1 == Enter(s, c, Decided(base, op, b));
      assert Step(s1, Commit(c, f, at)) == CommitStep(s1, c, b, false, op, f, at);
    case Err(e) =>
      assert s1 == Enter(s, c, Finished(Rejected(e)));
  }

  /** Without interference or faults, a command is the serial command, accepted or refused: the same rows and events,
      and nothing changed with the serial machine's error exactly when that refuses. */
  lemma UninterruptedCommandIsSerial(s: State, c: ClientId, id: BatchId, op: Op, at: Time)
    requires Inv(s) && Idle(s, c) && Targets(op, id)
    ensures var s' := Run(s, [FindByID(c, id), Decide(c, op), Commit(c, NO_FAULTS, at)]);
            c in s'.sessions &&
            match Execute(Abs(s), op)
            case Ok(m) => Abs(s') == m && s'.sessions[c] == Finished(Succeeded)
            case Err(e) => s'.tables == s.tables && s'.sessions[c] == Finished(Rejected(e))
  {
    UninterruptedCommandIsHandler(s, c, id, op, NO_FAULTS, at);
    OutcomeIsSerial(s.tables, op, at);
  }

  lemma OutcomeIsSerial(t: Tables, op: Op, at: Time)
    requires RowsOk(t.rows) && (op.Consume? || op.Writeoff?)
    ensures match (if op.Consume? then App.ConsumeOutcome(t, op.id, op.qty, NO_FAULTS, at)
                   else App.WriteOffOutcome(t, op.id, op.qty, op.reason, NO_FAULTS, at))
            case Ok(t') => Execute(AbsTables(t), op) == Ok(AbsTables(t'))
            case Err(e) => Execute(AbsTables(t), op) == Err(e)
  {
    if op.Consume? {
      App.ConsumeOutcomeIs(t, op.id, op.qty, at);
    } else {
      App.WriteOffOutcomeIs(t, op.id, op.qty, op.reason, at);
    }
    if op.id in t.rows {
      var r := t.rows[op.id];
      var e := if op.Consume? then BatchConsumedEvent(op.id, r.ingredientId, r.storeId, op.qty, r.remainingQty - op.qty)
               else BatchWrittenOffEvent(op.id, op.qty, op.reason);
      ContextEventsAppend(t.outbox, OutboxRow(e, Pending, 0, 5, at), true);
    }
  }

  /** The visits of one pass from a given batch on, and the return. */
  function Visits(c: ClientId, loaded: seq<BatchValue>, from: nat, refused: set<BatchId>): seq<Action>
    decreases |loaded| - from
  {
    if from >= |loaded| then [Visit(c, false)]
    else [Visit(c, loaded[from].id in refused)] + Visits(c, loaded, from + 1, refused)
  }

  lemma {:induction false} FinishedVisitsDoNothing(s: State, c: ClientId, loaded: seq<BatchValue>, from: nat,
                                                   refused: set<BatchId>)
    requires c in s.sessions && s.sessions[c].Finished?
    ensures Run(s, Visits(c, loaded, from, refused)) == s
    decreases |loaded| - from
  {
    var v := Visits(c, loaded, from, refused);
    assert Step(s, v[0]) == s;
    if from >= |loaded| {
      assert v[1..] == [];
    } else {
      FinishedVisitsDoNothing(s, c, loaded, from + 1, refused);
      assert v[1..] == Visits(c, loaded, from + 1, refused);
    }
  }

  /** The visits of a pass in a row, without interference, are the loop of the handler. */
  lemma {:induction false} UninterruptedVisitsArePass(s: State, c: ClientId, refused: set<BatchId>)
    requires c in s.sessions && s.sessions[c].Passing? && s.sessions[c].next <= |s.sessions[c].loaded|
    ensures var p := s.sessions[c];
            var s' := Run(s, Visits(c, p.loaded, p.next, refused));
            var (rows, err) := App.PassOver(s.tables.rows, p.loaded[p.next..], p.now, refused);
            && s'.tables == s.tables.(rows := rows)
            && c in s'.sessions
            && s'.sessions[c] == Finished(if err == None then PassReturned(p.now, p.loaded) else Rejected(err.value))
    decreases |s.sessions[c].loaded| - s.sessions[c].next
  {
    var p := s.sessions[c];
    var v := Visits(c, p.loaded, p.next, refused);
    var s1 := Step(s, v[0]);
    if p.next == |p.loaded| {
      assert v[1..] == [];
    } else {
      assert v[1..] == Visits(c, p.loaded, p.next + 1, refused);
      assert p.loaded[p.next..][1..] == p.loaded[p.next + 1..];
      if s1.sessions[c].Finished? {
        FinishedVisitsDoNothing(s1, c, p.loaded, p.next + 1, refused);
      } else {
        UninterruptedVisitsArePass(s1, c, refused);
      }
    }
  }

  /** New and commit in a row, without interference, are the receive handler. */
  lemma UninterruptedReceiveIsHandler(s: State, a: Action, c: ClientId, f: Faults, at: Time)
    requires a.New? && a.c == c && Idle(s, c)
    ensures var s' := Run(s, [a, Commit(c, f, at)]);
            var b := NewBatch(a.id, a.store, a.ingredient, a.qty, a.price, a.receivedAt, a.expiresAt);
            c in s'.sessions &&
            match CommitBatch(s.tables, b, true, f, at)
            case Ok(t) => s'.tables == t && s'.sessions[c] == Finished(Succeeded)
            case Err(e) => s'.tables == s.tables && s'.sessions[c] == Finished(Rejected(e))
  {
    var commit := Commit(c, f, at);
    assert [a, commit][1..] == [commit] && [commit][1..] == [];
    var s2 := Step(Step(s, a), commit);
    assert Run(Step(s, a), [commit]) == Run(s2, []) == s2;
  }

  /** Loading, visiting and returning without interference are the pass of the handler. */
  lemma UninterruptedPassIsHandler(s: State, c: ClientId, reply: seq<BatchRow>, now: Time, refused: set<BatchId>)
    requires Idle(s, c) && IsSelection(s.tables.rows, IsActive, reply)
    ensures var loaded := App.Loaded(reply);
            var s' := Run(s, [FindActive(c, reply, now)] + Visits(c, loaded, 0, refused));
            var (rows, err) := App.PassOver(s.tables.rows, loaded, now, refused);
            && s'.tables == s.tables.(rows := rows)
            && c in s'.sessions
            && s'.sessions[c] == Finished(if err == None then PassReturned(now, loaded) else Rejected(err.value))
  {
    var loaded := App.Loaded(reply);
    var visits := Visits(c, loaded, 0, refused);
    assert ([FindActive(c, reply, now)] + visits)[1..] == visits;
    UninterruptedVisitsArePass(Step(s, FindActive(c, reply, now)), c, refused);
    assert loaded[0..] == loaded;
  }

  // ---------- Expiry ----------

  /** Expiry is absorbing: once expired, a stored row never changes again; until then its rank never falls. */
  lemma ExpiredRowIsFrozen(before: seq<Action>, after: seq<Action>, id: BatchId)
    requires id in Run(INITIAL, before).tables.rows
    ensures var s := Run(INITIAL, before);
            var s' := Run(s, after);
            && id in s'.tables.rows
            && s.tables.rows[id].freshness.Rank() <= s'.tables.rows[id].freshness.Rank()
            && (s.tables.rows[id].freshness == Expired ==> s'.tables.rows[id] == s.tables.rows[id])
  {
    RunIsGood(INITIAL, before);
    RunIsGood(Run(INITIAL, before), after);
  }

  /** A pass that returned nil: at any later time, each batch it loaded past its expiry is stored as expired,
      and no availability query returns it. */
  lemma ReturnedPassIsSound(before: seq<Action>, after: seq<Action>, c: ClientId, i: nat,
                            query: BatchRow -> bool, reply: seq<BatchRow>)
    requires var s := Run(INITIAL, before); c in s.sessions && s.sessions[c].Finished?
    requires Run(INITIAL, before).sessions[c].outcome.PassReturned?
    requires i < |Run(INITIAL, before).sessions[c].outcome.loaded|
    requires var p := Run(INITIAL, before).sessions[c].outcome; p.now > p.loaded[i].expiresAt
    requires forall r :: query(r) ==> IsActive(r)
    requires IsSelection(Run(Run(INITIAL, before), after).tables.rows, query, reply)
    ensures var b := Run(INITIAL, before).sessions[c].outcome.loaded[i];
            var rows := Run(Run(INITIAL, before), after).tables.rows;
            && b.id in rows && rows[b.id].freshness == Expired
            && forall r :: r in reply ==> r.id != b.id
  {
    RunIsGood(INITIAL, before);
    RunIsGood(Run(INITIAL, before), after);
  }

  /** Every finder's WHERE clause excludes expired rows, as ReturnedPassIsSound needs. */
  lemma FindersSkipExpired(r: BatchRow, store: StoreId, ingredient: IngredientId)
    ensures IsAvailable(r, store, ingredient) ==> IsActiveIn(r, store)
    ensures IsActiveIn(r, store) ==> IsActive(r)
    ensures IsActive(r) ==> r.freshness != Expired
  {
  }

  /** A returned pass took each batch it loaded at least one step towards its class, and to expired if it was
      past its expiry. */
  lemma VisitedRankReaches(b: BatchValue, now: Time)
    ensures var target := Lag.ClassAt(b.expiresAt, now).Rank();
            && VisitedRank(b, now) >= b.freshness.Rank()
            && (target == 3 ==> VisitedRank(b, now) == 3)
            && (VisitedRank(b, now) >= target || VisitedRank(b, now) == b.freshness.Rank() + 1)
  {
  }

  /** Freshness lag under interference, from below: once a pass has returned, and a second one that loaded the
      batch afterwards has returned too, the stored freshness is never again below the class of the first
      pass's instant, whatever other clients and passes do in between and later. */
  lemma TwoReturnedPassesBoundLag(before: seq<Action>, between: seq<Action>, middle: seq<Action>, after: seq<Action>,
                                  c: ClientId, d: ClientId, i: nat, j: nat, reply: seq<BatchRow>, t2: Time)
    requires var s1 := Run(INITIAL, before);
             && c in s1.sessions && s1.sessions[c].Finished? && s1.sessions[c].outcome.PassReturned?
             && i < |s1.sessions[c].outcome.loaded| && s1.sessions[c].outcome.now <= t2
    requires var s2 := Run(Run(INITIAL, before), between);
             && IsSelection(s2.tables.rows, IsActive, reply) && j < |reply|
             && reply[j].id == Run(INITIAL, before).sessions[c].outcome.loaded[i].id
    requires var s3 := Run(Step(Run(Run(INITIAL, before), between), FindActive(d, reply, t2)), middle);
             d in s3.sessions && s3.sessions[d] == Finished(PassReturned(t2, App.Loaded(reply)))
    ensures var s3 := Run(Step(Run(Run(INITIAL, before), between), FindActive(d, reply, t2)), middle);
            var rows := Run(s3, after).tables.rows;
            && reply[j].id in rows
            && Lag.ClassAt(rows[reply[j].id].expiresAt, Run(INITIAL, before).sessions[c].outcome.now).Rank()
               <= rows[reply[j].id].freshness.Rank()
  {
    var s1 := Run(INITIAL, before);
    var s2 := Run(s1, between);
    var s3 := Run(Step(s2, FindActive(d, reply, t2)), middle);
    RunIsGood(INITIAL, before);
    RunIsGood(s1, between);
    StepIsGood(s2, FindActive(d, reply, t2));
    RunIsGood(Step(s2, FindActive(d, reply, t2)), middle);
    RunIsGood(s3, after);
    BothPassesHold(s1, s2, s3, Run(s3, after), c, d, i, j, reply, t2);
  }

  lemma BothPassesHold(s1: State, s2: State, s3: State, s4: State, c: ClientId, d: ClientId, i: nat, j: nat,
                       reply: seq<BatchRow>, t2: Time)
    requires Inv(s1) && Evolves(s1.tables.rows, s2.tables.rows) && Inv(s3) && Evolves(s3.tables.rows, s4.tables.rows)
    requires c in s1.sessions && s1.sessions[c].Finished? && s1.sessions[c].outcome.PassReturned?
    requires i < |s1.sessions[c].outcome.loaded| && s1.sessions[c].outcome.now <= t2
    requires IsSelection(s2.tables.rows, IsActive, reply) && j < |reply|
    requires reply[j].id == s1.sessions[c].outcome.loaded[i].id
    requires d in s3.sessions && s3.sessions[d] == Finished(PassReturned(t2, App.Loaded(reply)))
    ensures var rows := s4.tables.rows;
            && reply[j].id in rows
            && Lag.ClassAt(rows[reply[j].id].expiresAt, s1.sessions[c].outcome.now).Rank()
               <= rows[reply[j].id].freshness.Rank()
  {
    var p := s1.sessions[c].outcome;
    assert reply[j] in reply;
    assert SessionOk(s1.tables.rows, s1.sessions[c]) && SessionOk(s3.tables.rows, s3.sessions[d]);
    FirstPassLeaves(s1.tables.rows, s2.tables.rows, p.now, p.loaded, i);
    SecondPassReaches(s2.tables.rows, s3.tables.rows, s4.tables.rows, reply, j, p.now, t2);
  }

  /** At t, the row is on its way: expired if it deserves that, no longer fresh if it deserves any class but fresh. */
  ghost predicate OnItsWay(r: BatchRow, t: Time) {
    var target := Lag.ClassAt(r.expiresAt, t).Rank();
    (target == 3 ==> r.freshness.Rank() == 3) && (target >= 1 ==> r.freshness.Rank() >= 1)
  }

  lemma FirstPassLeaves(rows: Rows, rows': Rows, t: Time, loaded: seq<BatchValue>, i: nat)
    requires i < |loaded| && VisitedUpTo(rows, t, loaded, |loaded|) && Evolves(rows, rows')
    ensures loaded[i].id in rows'
    ensures OnItsWay(rows'[loaded[i].id], t)
  {
    VisitedRankReaches(loaded[i], t);
  }

  /** A pass at or after t that loads such a row and returns leaves it at the class of t or beyond. */
  lemma SecondPassReaches(rows: Rows, rows': Rows, later: Rows, reply: seq<BatchRow>, j: nat, t: Time, t2: Time)
    requires j < |reply| && reply[j].id in rows && rows[reply[j].id] == reply[j] && OnItsWay(reply[j], t) && t <= t2
    requires VisitedUpTo(rows', t2, App.Loaded(reply), |reply|) && Evolves(rows', later)
    ensures reply[j].id in later
    ensures Lag.ClassAt(later[reply[j].id].expiresAt, t).Rank() <= later[reply[j].id].freshness.Rank()
  {
    VisitedRankReaches(App.Loaded(reply)[j], t2);
  }

  predicate Witness(op: Op, r: BatchRow) {
    op.Recalc? && op.id == r.id && r.freshness.Rank() <= Lag.ClassAt(r.expiresAt, op.now).Rank()
  }

  ghost predicate FreshnessWitnessed(m: Serial, journal: seq<Op>) {
    forall id :: id in m.rows && m.rows[id].freshness != Fresh ==>
      exists i :: 0 <= i < |journal| && Witness(journal[i], m.rows[id])
  }

  lemma ExecuteWitnesses(m: Serial, op: Op, id: BatchId)
    requires WellFiled(m.rows) && Execute(m, op).Ok? && id in Execute(m, op).value.rows
    ensures var m' := Execute(m, op).value;
            && WellFiled(m'.rows)
            && (m'.rows[id].freshness == Fresh || Witness(op, m'.rows[id]) ||
                (id in m.rows && m'.rows[id].freshness == m.rows[id].freshness
                 && m'.rows[id].expiresAt == m.rows[id].expiresAt))
  {
  }

  lemma {:induction false} ReplayWitnessesFreshness(journal: seq<Op>)
    requires Replay(journal).Ok?
    ensures WellFiled(Replay(journal).value.rows) && FreshnessWitnessed(Replay(journal).value, journal)
  {
    if journal != [] {
      var init, op := journal[..|journal| - 1], journal[|journal| - 1];
      ReplayWitnessesFreshness(init);
      var m, m' := Replay(init).value, Replay(journal).value;
      assert WellFiled(m'.rows) by {
        forall id | id in m'.rows
          ensures m'.rows[id].id == id && m'.rows[id].version >= 1
        {
          ExecuteWitnesses(m, op, id);
        }
      }
      forall id | id in m'.rows && m'.rows[id].freshness != Fresh
        ensures exists i :: 0 <= i < |journal| && Witness(journal[i], m'.rows[id])
      {
        ExecuteWitnesses(m, op, id);
        if Witness(op, m'.rows[id]) {
          assert journal[|init|] == op;
        } else {
          var i :| 0 <= i < |init| && Witness(init[i], m.rows[id]);
          assert Witness(journal[i], m'.rows[id]);
        }
      }
    }
  }

  /** Freshness is never ahead of the clock: a stored row that is not fresh owes its freshness to a committed pass
      at whose instant the batch deserved at least that class. */
  lemma FreshnessOnlyByTheClock(actions: seq<Action>)
    ensures var s := Run(INITIAL, actions); FreshnessWitnessed(Abs(s), s.journal)
  {
    Serializable(actions);
    ReplayWitnessesFreshness(Run(INITIAL, actions).journal);
  }

  /** A row is stored as expired only if some pass committed on it at an instant after its expiry. */
  lemma ExpiredOnlyByTheClock(actions: seq<Action>, id: BatchId)
    requires id in Run(INITIAL, actions).tables.rows && Run(INITIAL, actions).tables.rows[id].freshness == Expired
    ensures var s := Run(INITIAL, actions);
            exists i :: 0 <= i < |s.journal| && s.journal[i].Recalc? && s.journal[i].id == id &&
                        s.journal[i].now > s.tables.rows[id].expiresAt
  {
    var s := Run(INITIAL, actions);
    RunIsGood(INITIAL, actions);
    FreshnessOnlyByTheClock(actions);
    var i :| 0 <= i < |s.journal| && Witness(s.journal[i], Abs(s).rows[id]);
    assert s.journal[i].now > s.tables.rows[id].expiresAt;
  }

  // ---------- The outbox as a ledger ----------

  function Withdrawal(e: Event, id: BatchId): int {
    match e
    case BatchConsumedEvent(b, _, _, qty, _) => if b == id then qty else 0
    case BatchWrittenOffEvent(b, qty, _) => if b == id then qty else 0
    case _ => 0
  }

  function Receipt(e: Event, id: BatchId): int {
    if e.BatchReceivedEvent? && e.batch == id then e.qty else 0
  }

  function Withdrawn(events: seq<Event>, id: BatchId): int {
    if events == [] then 0
    else Withdrawn(events[..|events| - 1], id) + Withdrawal(events[|events| - 1], id)
  }

  function Received(events: seq<Event>, id: BatchId): int {
    if events == [] then 0
    else Received(events[..|events| - 1], id) + Receipt(events[|events| - 1], id)
  }

  function Balance(events: seq<Event>, id: BatchId): int {
    Received(events, id) - Withdrawn(events, id)
  }

  predicate IsReceiptOf(e: Event, id: BatchId) {
    e.BatchReceivedEvent? && e.batch == id
  }

  /** Receipt minus withdrawals is the stored stock; a batch that is not stored has no movements. */
  ghost predicate Balanced(m: Serial) {
    && (forall id :: id in m.rows ==>
          m.rows[id].remainingQty == m.rows[id].receivedQty - Withdrawn(m.events, id) &&
          Received(m.events, id) == m.rows[id].receivedQty)
    && (forall id :: id !in m.rows ==> Withdrawn(m.events, id) == 0 && Received(m.events, id) == 0)
  }

  /** Each consumption carries the balance right after it. */
  ghost predicate RunningBalances(events: seq<Event>) {
    forall i :: 0 <= i < |events| && events[i].BatchConsumedEvent? ==>
      events[i].remainingQty == Balance(events[..i + 1], events[i].batch)
  }

  /** The stored batches are exactly those with a receipt, and no batch has two. */
  ghost predicate OneReceiptEach(m: Serial) {
    && (forall i, id :: 0 <= i < |m.events| && IsReceiptOf(m.events[i], id) ==> id in m.rows)
    && (forall i, j, id :: 0 <= i < j < |m.events| && IsReceiptOf(m.events[i], id) ==> !IsReceiptOf(m.events[j], id))
    && (forall id :: id in m.rows ==> exists i :: 0 <= i < |m.events| && IsReceiptOf(m.events[i], id))
  }

  ghost predicate Ledger(m: Serial) {
    Balanced(m) && RunningBalances(m.events) && OneReceiptEach(m)
  }

  lemma LedgerAppend(events: seq<Event>, e: Event)
    ensures forall id :: Withdrawn(events + [e], id) == Withdrawn(events, id) + Withdrawal(e, id)
    ensures forall id :: Received(events + [e], id) == Received(events, id) + Receipt(e, id)
  {
    assert (events + [e])[..|events|] == events;
  }

  /** The movement an operation writes down. */
  lemma ExecuteKeepsBalanced(m: Serial, op: Op) returns (e: Event)
    requires Balanced(m) && Execute(m, op).Ok? && !op.Recalc?
    ensures var m' := Execute(m, op).value;
            && m'.events == m.events + [e] && Balanced(m')
            && m.rows.Keys <= m'.rows.Keys
            && (e.BatchConsumedEvent? ==> e.batch in m'.rows && e.remainingQty == m'.rows[e.batch].remainingQty)
            && (forall id :: id in m'.rows && id !in m.rows <==> IsReceiptOf(e, id))
  {
    var m' := Execute(m, op).value;
    e := m'.events[|m.events|];
    if op.Receive? {
      ReceiptBalances(m, m', op.batch.id, e);
    } else {
      WithdrawalBalances(m, m', op.id, e, op.qty);
    }
  }

  lemma ReceiptBalances(m: Serial, m': Serial, id: BatchId, e: Event)
    requires Balanced(m) && id !in m.rows && id in m'.rows
    requires m'.rows == m.rows[id := m'.rows[id]] && m'.events == m.events + [e]
    requires IsReceiptOf(e, id) && e.qty == m'.rows[id].receivedQty == m'.rows[id].remainingQty
    ensures Balanced(m')
  {
    LedgerAppend(m.events, e);
  }

  lemma WithdrawalBalances(m: Serial, m': Serial, id: BatchId, e: Event, qty: int)
    requires Balanced(m) && id in m.rows && id in m'.rows
    requires m'.rows == m.rows[id := m'.rows[id]] && m'.events == m.events + [e]
    requires m'.rows[id].receivedQty == m.rows[id].receivedQty
    requires m'.rows[id].remainingQty == m.rows[id].remainingQty - qty
    requires forall b :: Receipt(e, b) == 0 && Withdrawal(e, b) == if b == id then qty else 0
    ensures Balanced(m')
  {
    LedgerAppend(m.events, e);
  }

  lemma RunningBalancesAppend(events: seq<Event>, e: Event)
    requires RunningBalances(events)
    requires e.BatchConsumedEvent? ==> e.remainingQty == Balance(events + [e], e.batch)
    ensures RunningBalances(events + [e])
  {
    var all := events + [e];
    forall i | 0 <= i < |all| && all[i].BatchConsumedEvent?
      ensures all[i].remainingQty == Balance(all[..i + 1], all[i].batch)
    {
      if i < |events| {
        assert all[..i + 1] == events[..i + 1];
      } else {
        assert all[..i + 1] == all;
      }
    }
  }

  lemma OneReceiptAppend(m: Serial, m': Serial, e: Event)
    requires OneReceiptEach(m) && m'.events == m.events + [e]
    requires m.rows.Keys <= m'.rows.Keys
    requires forall id :: id in m'.rows && id !in m.rows <==> IsReceiptOf(e, id)
    ensures OneReceiptEach(m')
  {
    forall id | id in m'.rows
      ensures exists i :: 0 <= i < |m'.events| && IsReceiptOf(m'.events[i], id)
    {
      if id in m.rows {
        var i :| 0 <= i < |m.events| && IsReceiptOf(m.events[i], id);
        assert IsReceiptOf(m'.events[i], id);
      } else {
        assert IsReceiptOf(m'.events[|m.events|], id);
      }
    }
  }

  lemma ExecuteKeepsLedger(m: Serial, op: Op)
    requires Ledger(m) && Execute(m, op).Ok?
    ensures Ledger(Execute(m, op).value)
  {
    var m' := Execute(m, op).value;
    if op.Recalc? {
      assert m'.events == m.events && m'.rows.Keys == m.rows.Keys;
    } else {
      var e := ExecuteKeepsBalanced(m, op);
      RunningBalancesAppend(m.events, e);
      OneReceiptAppend(m, m', e);
    }
  }

  lemma {:induction false} ReplayKeepsLedger(journal: seq<Op>)
    requires Replay(journal).Ok?
    ensures Ledger(Replay(journal).value)
  {
    if journal != [] {
      ReplayKeepsLedger(journal[..|journal| - 1]);
      ExecuteKeepsLedger(Replay(journal[..|journal| - 1]).value, journal[|journal| - 1]);
    }
  }

  /** The outbox is an exact ledger in every reachable state: one receipt per stored batch, receipt minus
      withdrawals is the stored stock, every consumption carries the running balance, and no event is about
      a batch that is not stored. */
  lemma OutboxIsLedger(actions: seq<Action>)
    ensures Ledger(Abs(Run(INITIAL, actions)))
  {
    Serializable(actions);
    ReplayKeepsLedger(Run(INITIAL, actions).journal);
  }

  predicate FreshnessNews(e: Event) {
    e.BatchExpiredEvent? || e.BatchFreshnessChangedEvent?
  }

  lemma {:induction false} ReplayPublishesNoFreshness(journal: seq<Op>)
    requires Replay(journal).Ok?
    ensures forall e :: e in Replay(journal).value.events ==> !FreshnessNews(e)
  {
    if journal != [] {
      ReplayPublishesNoFreshness(journal[..|journal| - 1]);
    }
  }

  /** Passes lose their events: under every interleaving the outbox holds no expiry and no change of freshness,
      so no poller ever sees one from there. */
  lemma PassesPublishNothing(actions: seq<Action>, i: nat)
    requires i < |Run(INITIAL, actions).tables.outbox|
    ensures !FreshnessNews(Run(INITIAL, actions).tables.outbox[i].event)
  {
    var s := Run(INITIAL, actions);
    Serializable(actions);
    ReplayPublishesNoFreshness(s.journal);
    if s.tables.outbox[i].event.Inventory() {
      ContextEventsComplete(s.tables.outbox, i);
    }
  }

  // ---------- Quantities ----------

  predicate Counts(op: Op) {
    (op.Consume? || op.Writeoff?) ==> op.qty >= 0
  }

  /** The commands with a negative quantity are the only ones excluded. */
  predicate Sensible(a: Action) {
    a.Decide? ==> Counts(a.op)
  }

  ghost predicate AllCount(s: State) {
    && (forall i :: 0 <= i < |s.journal| ==> Counts(s.journal[i]))
    && (forall c :: c in s.sessions && s.sessions[c].Decided? ==> Counts(s.sessions[c].op))
  }

  lemma StepKeepsCounts(s: State, a: Action)
    requires AllCount(s) && Sensible(a)
    ensures AllCount(Step(s, a))
  {
  }

  lemma {:induction false} RunKeepsCounts(s: State, actions: seq<Action>)
    requires AllCount(s) && forall a :: a in actions ==> Sensible(a)
    ensures AllCount(Run(s, actions))
    decreases |actions|
  {
    if actions != [] {
      assert actions[0] in actions;
      StepKeepsCounts(s, actions[0]);
      RunKeepsCounts(Step(s, actions[0]), actions[1..]);
    }
  }

  lemma {:induction false} ReplayKeepsWithinReceived(journal: seq<Op>)
    requires Replay(journal).Ok? && forall i :: 0 <= i < |journal| ==> Counts(journal[i])
    ensures var m := Replay(journal).value;
            forall id :: id in m.rows ==> m.rows[id].remainingQty <= m.rows[id].receivedQty
  {
    if journal != [] {
      ReplayKeepsWithinReceived(journal[..|journal| - 1]);
      assert Counts(journal[|journal| - 1]);
    }
  }

  /** Under every interleaving of commands with quantities >= 0, no stored batch holds more than was received;
      InventoryDomain.QtyIsSafeIff shows that the condition is needed. */
  lemma StockWithinReceived(actions: seq<Action>, id: BatchId)
    requires forall a :: a in actions ==> Sensible(a)
    requires id in Run(INITIAL, actions).tables.rows
    ensures var r := Run(INITIAL, actions).tables.rows[id]; r.remainingQty <= r.receivedQty
  {
    Serializable(actions);
    RunKeepsCounts(INITIAL, actions);
    ReplayKeepsWithinReceived(Run(INITIAL, actions).journal);
  }

  lemma {:induction false} ReplayKeepsStockNonNegative(journal: seq<Op>)
    requires Replay(journal).Ok?
    ensures var m := Replay(journal).value;
            forall id :: id in m.rows && m.rows[id].receivedQty >= 0 ==> m.rows[id].remainingQty >= 0
  {
    if journal != [] {
      ReplayKeepsStockNonNegative(journal[..|journal| - 1]);
    }
  }

  /** No withdrawal, whatever its sign, takes the stock of a batch received with at least zero below zero. */
  lemma StockNeverNegative(actions: seq<Action>, id: BatchId)
    requires id in Run(INITIAL, actions).tables.rows
    ensures var r := Run(INITIAL, actions).tables.rows[id];
            r.receivedQty >= 0 ==> r.remainingQty >= 0
  {
    Serializable(actions);
    ReplayKeepsStockNonNegative(Run(INITIAL, actions).journal);
  }

  lemma {:induction false} RunConcat(s: State, first: seq<Action>, rest: seq<Action>)
    ensures Run(s, first + rest) == Run(Run(s, first), rest)
    decreases |first|
  {
    if first == [] {
      assert first + rest == rest;
    } else {
      RunConcat(Step(s, first[0]), first[1..], rest);
      assert (first + rest)[1..] == first[1..] + rest;
    }
  }

  ghost predicate StaysNonNegative(s: State, id: BatchId) {
    forall rest :: IsNonNegative(Run(s, rest), id)
  }

  ghost predicate IsNonNegative(s: State, id: BatchId) {
    id in s.tables.rows && s.tables.rows[id].remainingQty >= 0
  }

  /** A batch from which nothing has been taken yet stays at or above zero in every continuation exactly when it
      was received with at least zero. */
  lemma StaysNonNegativeIff(before: seq<Action>, id: BatchId)
    requires id in Run(INITIAL, before).tables.rows
    requires var r := Run(INITIAL, before).tables.rows[id]; r.remainingQty == r.receivedQty
    ensures StaysNonNegative(Run(INITIAL, before), id) <==> Run(INITIAL, before).tables.rows[id].receivedQty >= 0
  {
    var s := Run(INITIAL, before);
    RunIsGood(INITIAL, before);
    if s.tables.rows[id].receivedQty >= 0 {
      forall rest
        ensures IsNonNegative(Run(s, rest), id)
      {
        RunIsGood(s, rest);
        RunConcat(INITIAL, before, rest);
        StockNeverNegative(before + rest, id);
      }
    } else {
      assert Run(s, []) == s && !IsNonNegative(Run(s, []), id);
    }
  }

  /** Nothing checks the quantity of a receipt: in any run, receiving a batch under a free identifier leaves it at or
      above zero for ever exactly when the quantity is not negative. */
  lemma ReceiptIsSafeIff(before: seq<Action>, a: Action, at: Time)
    requires a.New? && Idle(Run(INITIAL, before), a.c) && a.id !in Run(INITIAL, before).tables.rows
    ensures StaysNonNegative(Run(Run(INITIAL, before), [a, Commit(a.c, NO_FAULTS, at)]), a.id) <==> a.qty >= 0
  {
    var s := Run(INITIAL, before);
    var both := [a, Commit(a.c, NO_FAULTS, at)];
    UninterruptedReceiveIsHandler(s, a, a.c, NO_FAULTS, at);
    RunConcat(INITIAL, before, both);
    StaysNonNegativeIff(before + both, a.id);
  }

  /** A receipt of -5 is accepted and stores -5. */
  lemma NegativeReceiptIsStored(a: Action, at: Time)
    requires a.New? && a.qty == -5
    ensures var rows := Run(INITIAL, [a, Commit(a.c, NO_FAULTS, at)]).tables.rows;
            a.id in rows && rows[a.id].remainingQty == -5
  {
    UninterruptedReceiveIsHandler(INITIAL, a, a.c, NO_FAULTS, at);
  }

  /** Neither do withdrawals: receiving 10 and consuming -5 stores 15. */
  lemma NegativeConsumptionInflatesStock(a: Action, at: Time)
    requires a.New? && a.qty == 10
    ensures var c, id := a.c, a.id;
            var receive := [a, Commit(c, NO_FAULTS, at)];
            var consume := [FindByID(c, id), Decide(c, Consume(id, -5)), Commit(c, NO_FAULTS, at)];
            var rows := Run(INITIAL, receive + consume).tables.rows;
            id in rows && rows[id].remainingQty == 15 > rows[id].receivedQty == 10
  {
    var c, id := a.c, a.id;
    var receive := [a, Commit(c, NO_FAULTS, at)];
    var consume := [FindByID(c, id), Decide(c, Consume(id, -5)), Commit(c, NO_FAULTS, at)];
    var s := Run(INITIAL, receive);
    RunConcat(INITIAL, receive, consume);
    RunIsGood(INITIAL, receive);
    UninterruptedReceiveIsHandler(INITIAL, a, c, NO_FAULTS, at);
    UninterruptedCommandIsHandler(s, c, id, Consume(id, -5), NO_FAULTS, at);
    assert RowToBatch(s.tables.rows[id]).Consume(-5).value.remainingQty == 15;
  }
}
