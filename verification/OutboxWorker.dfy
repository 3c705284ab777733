/** OutboxWorker.processOnce and Run over the real dispatcher, whose only effect is the freshness pass. */
module OutboxWorker {
  import opened Kernel
  import opened Outbox
  import opened WorkerProtocol
  import opened OutboxRounds
  import Store = InventoryStore
  import Application = InventoryApplication
  import Lag = FreshnessLag

  /** What the clock and the database do to the pass triggered by one event. */
  datatype Circumstances = Circumstances(now: Time, queryFails: bool, refused: set<BatchId>)

  function EventName(e: Event): string {
    match e
    case BatchReceivedEvent(_, _, _, _) => "inventory.batch_received"
    case BatchConsumedEvent(_, _, _, _, _) => "inventory.batch_consumed"
    case BatchWrittenOffEvent(_, _, _) => "inventory.batch_written_off"
    case BatchFreshnessChangedEvent(_, _) => "inventory.batch_freshness_changed"
    case BatchExpiredEvent(_, _, _, _) => "inventory.batch_expired"
    case OrderCreatedEvent(_) => "order.created"
    case OrderConfirmedEvent(_) => "order.confirmed"
    case OrderCancelledEvent(_, _, _) => "order.cancelled"
  }

  /** The events on which stock leaves a batch. */
  predicate Triggers(e: Event) {
    e.BatchConsumedEvent? || e.BatchExpiredEvent? || e.BatchWrittenOffEvent?
  }

  /** What the handler may do with an event to the batches, and answer: a pass over the active rows, listed in an
      order of the database's choice, decides both; without a pass nothing happens and the answer is nil. */
  ghost predicate Answers(rows: Store.Rows, event: Event, c: Circumstances, ok: bool, rows': Store.Rows) {
    if !Triggers(event) then ok && rows' == rows
    else if c.queryFails then !ok && rows' == rows
    else exists reply :: IsPass(rows, reply, c, ok, rows')
  }

  ghost predicate IsPass(rows: Store.Rows, reply: seq<Store.BatchRow>, c: Circumstances, ok: bool, rows': Store.Rows) {
    && Store.IsSelection(rows, Store.IsActive, reply)
    && var (after, err) := Application.PassOver(rows, Application.Loaded(reply), c.now, c.refused);
       rows' == after && (ok <==> err == None)
  }

  /** The event handler wired in main: some events trigger a freshness pass, the rest are only logged.
      It adds no outbox rows. */
  method Dispatch(db: Store.Database, event: Event, c: Circumstances) returns (ok: bool)
    requires Store.WellFiled(db.rows)
    modifies db
    ensures db.outbox == old(db.outbox)
    ensures Store.WellFiled(db.rows) && db.rows.Keys == old(db.rows.Keys)
    ensures Answers(old(db.rows), event, c, ok, db.rows)
  {
    var name := EventName(event);
    if name == "inventory.batch_consumed" ||
       name == "inventory.batch_expired" ||
       name == "inventory.batch_written_off" {
      ghost var rows := db.rows;
      var err, reply := Application.RecalcFreshness(db, c.now, c.queryFails, c.refused);
      ok := err == None;
      assert c.queryFails || IsPass(rows, reply, c, ok, db.rows);
    } else {
      ok := true;
    }
  }

  /** The sub-select of the claim: eligible rows, oldest first, at most 50; ties in any order. */
  method SelectOldest(o: seq<OutboxRow>) returns (rows: seq<nat>, ghost chosen: set<nat>)
    ensures OldestClaim(o, chosen)
    ensures forall i :: i in rows <==> i in chosen
    ensures CanClaim(o, rows)
  {
    rows, chosen := [], {};
    var todo := set i: nat | i < |o| && Eligible(o[i]);
    while todo != {} && |rows| < CLAIM_LIMIT
      invariant forall i :: i in todo || i in chosen <==> 0 <= i < |o| && Eligible(o[i])
      invariant todo !! chosen && |chosen| == |rows| <= CLAIM_LIMIT
      invariant forall i :: i in rows <==> i in chosen
      invariant forall k, l :: 0 <= k < l < |rows| ==> rows[k] != rows[l]
      invariant forall i, j :: i in chosen && j in todo ==> o[i].createdAt <= o[j].createdAt
      decreases todo
    {
      OldestExists(o, todo);
      var i :| i in todo && forall j :: j in todo ==> o[i].createdAt <= o[j].createdAt;
      todo := todo - {i};
      chosen := chosen + {i};
      rows := rows + [i];
    }
    forall i | 0 <= i < |o| && Eligible(o[i]) && i !in chosen
      ensures |chosen| == CLAIM_LIMIT && forall j :: j in chosen ==> o[j].createdAt <= o[i].createdAt
    {
      assert i in todo;
    }
    forall k | 0 <= k < |rows|
      ensures rows[k] < |o| && Eligible(o[rows[k]])
    {
      assert rows[k] in rows;
    }
  }

  /** The claim statement: marks the selected rows and returns them as updated. */
  method Claim(db: Store.Database) returns (events: seq<Claimed>, ghost ids: set<nat>)
    modifies db`outbox
    ensures OldestClaim(old(db.outbox), ids)
    ensures db.outbox == ClaimRows(old(db.outbox), RowsOf(events))
    ensures CanClaim(old(db.outbox), RowsOf(events))
    ensures forall i :: i in ids <==> i in RowsOf(events)
    ensures forall k :: 0 <= k < |events| ==>
              events[k].row < |db.outbox| && events[k] == ToClaimed(db.outbox, events[k].row)
  {
    var rows;
    rows, ids := SelectOldest(db.outbox);
    var o := ClaimRows(db.outbox, rows);
    db.outbox := o;
    events := seq(|rows|, k requires 0 <= k < |rows| && rows[k] < |o| => ToClaimed(o, rows[k]));
    assert RowsOf(events) == rows;
  }

  function RowsOf(events: seq<Claimed>): (rows: seq<nat>)
    ensures |rows| == |events| && forall k :: 0 <= k < |events| ==> rows[k] == events[k].row
  {
    seq(|events|, k requires 0 <= k < |events| => events[k].row)
  }

  /** The table in the middle of a round: settled, still claimed, or untouched. */
  ghost predicate MidRound(start: seq<OutboxRow>, o: seq<OutboxRow>, ids: set<nat>, results: Results) {
    && |o| == |start|
    && forall i :: 0 <= i < |start| ==>
         o[i] == if i in results then Settle(start[i], results[i])
                 else if i in ids then ClaimRow(start[i]) else start[i]
  }

  lemma MidRoundStep(start: seq<OutboxRow>, o: seq<OutboxRow>, ids: set<nat>, results: Results, ev: Claimed, ok: bool)
    requires MidRound(start, o, ids, results)
    requires ev.row < |start| && ev.row in ids && ev.row !in results
    requires ev.attempts == start[ev.row].attempts + 1 && ev.maxAttempts == start[ev.row].maxAttempts
    ensures MidRound(start, WriteStatus(o, ev.row, NewStatus(ev, ok)), ids, results[ev.row := ok])
  {
  }

  /** The batches between the handler calls of a round: call k on row order[k] took trace[k] to trace[k + 1] and
      gave the outcome on record. */
  ghost predicate Handled(o: seq<OutboxRow>, order: seq<nat>, trace: seq<Store.Rows>, results: Results,
                          circumstances: nat -> Circumstances)
  {
    && |trace| == |order| + 1
    && (forall k :: 0 <= k < |order| ==> HandledAt(o, order[k], trace[k], trace[k + 1], results, circumstances))
    && (forall k, l :: 0 <= k < l < |order| ==> order[k] != order[l])
    && (forall i :: i in results <==> i in order)
  }

  ghost predicate HandledAt(o: seq<OutboxRow>, i: nat, rows: Store.Rows, rows': Store.Rows, results: Results,
                            circumstances: nat -> Circumstances)
  {
    i < |o| && i in results && Answers(rows, o[i].event, circumstances(i), results[i], rows')
  }

  /** The outcomes of a round are the handler's answers, each claimed event handled once, one after another. */
  ghost predicate IsHandledRound(o: seq<OutboxRow>, results: Results, circumstances: nat -> Circumstances,
                                 rows: Store.Rows, rows': Store.Rows)
  {
    exists order, trace ::
      Handled(o, order, trace, results, circumstances) && trace[0] == rows && trace[|order|] == rows'
  }

  lemma HandledNext(o: seq<OutboxRow>, order: seq<nat>, trace: seq<Store.Rows>, results: Results,
                    circumstances: nat -> Circumstances, i: nat, ok: bool, rows': Store.Rows)
    requires Handled(o, order, trace, results, circumstances) && i < |o| && i !in results
    requires Answers(trace[|order|], o[i].event, circumstances(i), ok, rows')
    ensures Handled(o, order + [i], trace + [rows'], results[i := ok], circumstances)
  {
    var order', trace', results' := order + [i], trace + [rows'], results[i := ok];
    forall k | 0 <= k < |order'|
      ensures HandledAt(o, order'[k], trace'[k], trace'[k + 1], results', circumstances)
    {
      if k < |order| {
        assert order[k] in order && HandledAt(o, order[k], trace[k], trace[k + 1], results, circumstances);
      }
    }
    assert forall k :: 0 <= k < |order| ==> order[k] in order;
  }

  /** One round: it claims the oldest rows, calls the handler once on each, and every claimed row ends as its
      handler call says. */
  method ProcessOnce(db: Store.Database, circumstances: nat -> Circumstances) returns (ghost results: Results)
    requires Store.WellFiled(db.rows)
    modifies db
    ensures Store.WellFiled(db.rows) && db.rows.Keys == old(db.rows.Keys)
    ensures OldestClaim(old(db.outbox), results.Keys)
    ensures db.outbox == AfterRound(old(db.outbox), results)
    ensures IsHandledRound(old(db.outbox), results, circumstances, old(db.rows), db.rows)
  {
    ghost var start := db.outbox;
    var events;
    ghost var ids;
    events, ids := Claim(db);
    forall k | 0 <= k < |events|
      ensures RowsOf(events)[k] in RowsOf(events) && RowsOf(events)[k] == events[k].row
    {
    }
    results := HandleAll(db, events, circumstances, start, ids);
    assert results.Keys == ids;
    assert db.outbox == AfterRound(start, results);
  }

  /** The loop over the claimed events. */
  method HandleAll(db: Store.Database, events: seq<Claimed>, circumstances: nat -> Circumstances,
                   ghost start: seq<OutboxRow>, ghost ids: set<nat>)
      returns (ghost results: Results)
    requires Store.WellFiled(db.rows) && MidRound(start, db.outbox, ids, map[])
    requires forall k :: 0 <= k < |events| ==>
               && events[k].row in ids && events[k].row < |start|
               && events[k].attempts == start[events[k].row].attempts + 1
               && events[k].maxAttempts == start[events[k].row].maxAttempts
    requires forall k, l :: 0 <= k < l < |events| ==> events[k].row != events[l].row
    modifies db
    ensures Store.WellFiled(db.rows) && db.rows.Keys == old(db.rows.Keys)
    ensures forall i :: i in results <==> i in RowsOf(events)
    ensures MidRound(start, db.outbox, ids, results)
    ensures IsHandledRound(start, results, circumstances, old(db.rows), db.rows)
  {
    results := map[];
    ghost var trace := [db.rows];
    for n := 0 to |events|
      invariant Store.WellFiled(db.rows) && db.rows.Keys == old(db.rows.Keys)
      invariant MidRound(start, db.outbox, ids, results)
      invariant Handled(start, RowsOf(events[..n]), trace, results, circumstances)
      invariant trace[0] == old(db.rows) && trace[n] == db.rows
    {
      var ev := events[n];
      assert RowsOf(events[..n + 1]) == RowsOf(events[..n]) + [ev.row];
      ghost var before, order := db.outbox, RowsOf(events[..n]);
      assert ev.row !in order;
      var ok := HandleOne(db, ev, circumstances);
      MidRoundStep(start, before, ids, results, ev, ok);
      HandledNext(start, order, trace, results, circumstances, ev.row, ok, db.rows);
      results := results[ev.row := ok];
      trace := trace + [db.rows];
    }
    assert events[..|events|] == events;
  }

  /** The loop body: call the handler on the event, write its outcome back as the row's status. */
  method HandleOne(db: Store.Database, ev: Claimed, circumstances: nat -> Circumstances) returns (ok: bool)
    requires Store.WellFiled(db.rows) && ev.row < |db.outbox|
    modifies db
    ensures Store.WellFiled(db.rows) && db.rows.Keys == old(db.rows.Keys)
    ensures Answers(old(db.rows), old(db.outbox)[ev.row].event, circumstances(ev.row), ok, db.rows)
    ensures db.outbox == WriteStatus(old(db.outbox), ev.row, NewStatus(ev, ok))
  {
    ok := Dispatch(db, db.outbox[ev.row].event, circumstances(ev.row));
    var newStatus: Status := if ok then Done else if ev.attempts >= ev.maxAttempts then Failed else Pending;
    db.outbox := WriteStatus(db.outbox, ev.row, newStatus);
  }

  lemma RoundKeepsPayloads(o: seq<OutboxRow>, results: Results)
    ensures SamePayloads(o, AfterRound(o, results))
  {
  }

  /** n rounds with no other client: a history without publications in which every outcome is the handler's answer.
      Once n reaches the attempts the table owes, every event is done or failed. */
  method Run(db: Store.Database, n: nat, circumstances: nat -> nat -> Circumstances)
      returns (ghost tables: seq<seq<OutboxRow>>, ghost rounds: seq<Results>, ghost stocks: seq<Store.Rows>)
    requires Store.WellFiled(db.rows) && NoneStranded(db.outbox) && NoneProcessing(db.outbox)
    modifies db
    ensures |rounds| == n && IsHistory(tables, rounds, false)
    ensures tables[0] == old(db.outbox) && tables[n] == db.outbox
    ensures AreHandledRounds(tables, rounds, stocks, circumstances)
    ensures stocks[0] == old(db.rows) && stocks[n] == db.rows
    ensures n >= Debt(old(db.outbox)) ==> Finished(db.outbox)
    ensures SamePayloads(old(db.outbox), db.outbox)
  {
    tables, rounds, stocks := [db.outbox], [], [db.rows];
    for k := 0 to n
      invariant Store.WellFiled(db.rows)
      invariant |rounds| == k && IsHistory(tables, rounds, false)
      invariant tables[0] == old(db.outbox) && tables[k] == db.outbox
      invariant AreHandledRounds(tables, rounds, stocks, circumstances)
      invariant stocks[0] == old(db.rows) && stocks[k] == db.rows
      invariant SamePayloads(old(db.outbox), db.outbox)
    {
      ghost var results := ProcessOnce(db, circumstances(k));
      HistoryExtends(tables, rounds, false, results, db.outbox);
      HandledRoundsExtend(tables, rounds, stocks, circumstances, results, db.outbox, db.rows);
      RoundKeepsPayloads(tables[k], results);
      tables, rounds, stocks := tables + [db.outbox], rounds + [results], stocks + [db.rows];
    }
    if n >= Debt(old(db.outbox)) {
      DrainTerminates(tables, rounds);
    }
  }

  /** The batches between rounds: round k took stocks[k] to stocks[k + 1]. */
  ghost predicate AreHandledRounds(tables: seq<seq<OutboxRow>>, rounds: seq<Results>, stocks: seq<Store.Rows>,
                                   circumstances: nat -> nat -> Circumstances)
  {
    && |tables| == |stocks| == |rounds| + 1
    && forall k :: 0 <= k < |rounds| ==>
         IsHandledRound(tables[k], rounds[k], circumstances(k), stocks[k], stocks[k + 1])
  }

  lemma HandledRoundsExtend(tables: seq<seq<OutboxRow>>, rounds: seq<Results>, stocks: seq<Store.Rows>,
                            circumstances: nat -> nat -> Circumstances, results: Results,
                            o: seq<OutboxRow>, rows: Store.Rows)
    requires AreHandledRounds(tables, rounds, stocks, circumstances)
    requires IsHandledRound(tables[|rounds|], results, circumstances(|rounds|), stocks[|rounds|], rows)
    ensures AreHandledRounds(tables + [o], rounds + [results], stocks + [rows], circumstances)
  {
    var ts, rs, ss := tables + [o], rounds + [results], stocks + [rows];
    forall k | 0 <= k < |rs|
      ensures IsHandledRound(ts[k], rs[k], circumstances(k), ss[k], ss[k + 1])
    {
      if k < |rounds| {
        assert IsHandledRound(tables[k], rounds[k], circumstances(k), stocks[k], stocks[k + 1]);
      }
    }
  }

  /** Without query failures and refused saves every answer is nil, so no claimed event fails. */
  lemma HealthyAnswersAreNil(rows: Store.Rows, event: Event, c: Circumstances, ok: bool, rows': Store.Rows)
    requires Store.WellFiled(rows) && Answers(rows, event, c, ok, rows')
    requires Healthy(c)
    ensures ok && rows' == if Triggers(event) then Lag.PassTable(rows, c.now) else rows
  {
    if Triggers(event) {
      var reply :| IsPass(rows, reply, c, ok, rows');
      Lag.UndisturbedPass(rows, reply, c.now);
    }
  }

  /** Which events run a pass, constructor by constructor: stock consumed, expired or written off. Such a call answers
      nil and leaves the table after one pass, if the pass is undisturbed, and an error with nothing changed if its
      query fails; every other event is answered nil with nothing changed, whatever the circumstances. */
  lemma AnswersByEvent(rows: Store.Rows, event: Event, c: Circumstances, ok: bool, rows': Store.Rows)
    requires Store.WellFiled(rows) && Answers(rows, event, c, ok, rows')
    ensures event.BatchConsumedEvent? || event.BatchExpiredEvent? || event.BatchWrittenOffEvent? ==>
              && (Healthy(c) ==> ok && rows' == Lag.PassTable(rows, c.now))
              && (c.queryFails ==> !ok && rows' == rows)
    ensures event.BatchReceivedEvent? || event.BatchFreshnessChangedEvent? || event.OrderCreatedEvent? ||
            event.OrderConfirmedEvent? || event.OrderCancelledEvent? ==>
              ok && rows' == rows
  {
    if Healthy(c) {
      HealthyAnswersAreNil(rows, event, c, ok, rows');
    }
  }

  predicate Healthy(c: Circumstances) {
    !c.queryFails && c.refused == {}
  }

  lemma {:induction false} HealthyPrefix(o: seq<OutboxRow>, order: seq<nat>, trace: seq<Store.Rows>, results: Results,
                                         circumstances: nat -> Circumstances, k: nat)
    requires Handled(o, order, trace, results, circumstances) && Store.WellFiled(trace[0]) && k <= |order|
    requires forall i :: i in results ==> Healthy(circumstances(i))
    ensures Store.WellFiled(trace[k]) && forall j :: 0 <= j < k ==> results[order[j]]
  {
    if k > 0 {
      HealthyPrefix(o, order, trace, results, circumstances, k - 1);
      var i := order[k - 1];
      assert HandledAt(o, i, trace[k - 1], trace[k - 1 + 1], results, circumstances);
      HealthyAnswersAreNil(trace[k - 1], o[i].event, circumstances(i), results[i], trace[k]);
      Lag.PassTableIsFiled(trace[k - 1], circumstances(i).now);
    }
  }

  /** In a round without query failures and refused saves, every claimed event ends done. */
  lemma HealthyRoundFinishes(o: seq<OutboxRow>, results: Results, circumstances: nat -> Circumstances,
                             rows: Store.Rows, rows': Store.Rows, i: nat)
    requires IsHandledRound(o, results, circumstances, rows, rows') && Store.WellFiled(rows)
    requires forall j :: j in results ==> Healthy(circumstances(j))
    requires i in results && i < |o|
    ensures AfterRound(o, results)[i].status == Done
  {
    var order, trace :| Handled(o, order, trace, results, circumstances) && trace[0] == rows && trace[|order|] == rows';
    HealthyPrefix(o, order, trace, results, circumstances, |order|);
    assert i in order;
  }
}
