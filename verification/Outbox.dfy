/** The outbox_events table: an append-only sequence of rows, a row's id being its position. */
module Outbox {
  import opened Kernel

  datatype Status = Pending | Processing | Done | Failed

  datatype OutboxRow = OutboxRow(event: Event, status: Status, attempts: int, maxAttempts: int, createdAt: Time)

  // Column default of max_attempts.
  const DEFAULT_MAX_ATTEMPTS := 5

  function NewRow(e: Event, at: Time): (row: OutboxRow)
    ensures row.event == e && row.createdAt == at
    ensures row.status == Pending && row.attempts == 0 && row.maxAttempts == 5
  {
    OutboxRow(e, Pending, 0, DEFAULT_MAX_ATTEMPTS, at)
  }

  /** The rows PublishTx inserts for a list of events. */
  function NewRows(events: seq<Event>, at: Time): (rows: seq<OutboxRow>)
    ensures |rows| == |events|
    ensures forall i :: 0 <= i < |rows| ==> rows[i] == NewRow(events[i], at)
  {
    seq(|events|, i requires 0 <= i < |events| => NewRow(events[i], at))
  }

  /** PublishTx: inserts the events one by one into the transaction's view; stops at the first refused insert. */
  method Publish(o: seq<OutboxRow>, events: seq<Event>, at: Time, f: Faults)
      returns (err: Option<Error>, o': seq<OutboxRow>)
    ensures err == if f.Publishes(|events|) then None else Some(StoreFailure)
    ensures err == None <==> forall i :: 0 <= i < |events| ==> f.refusedInsert != Some(i)
    ensures o <= o' <= o + NewRows(events, at)
    ensures err == None ==> o' == o + NewRows(events, at)
  {
    err, o' := None, o;
    for i := 0 to |events|
      invariant err == None && f.Publishes(i)
      invariant o' == o + NewRows(events, at)[..i]
    {
      if f.refusedInsert == Some(i) {
        return Some(StoreFailure), o';
      }
      o' := o' + [NewRow(events[i], at)];
      assert NewRows(events, at)[..i + 1] == NewRows(events, at)[..i] + [NewRow(events[i], at)];
    }
    assert NewRows(events, at)[..|events|] == NewRows(events, at);
  }

  /** Same rows up to the columns a worker writes. */
  ghost predicate SamePayloads(a: seq<OutboxRow>, b: seq<OutboxRow>) {
    |a| == |b| && forall i :: 0 <= i < |a| ==> a[i].event == b[i].event
  }

  /** A worker writing the status and attempts of one row. */
  function SetStatus(o: seq<OutboxRow>, i: nat, status: Status, attempts: int): (r: seq<OutboxRow>)
    ensures SamePayloads(o, r)
  {
    if i < |o| then o[i := o[i].(status := status, attempts := attempts)] else o
  }

  /** The events of the inventory context, or of the others, oldest insertion first. */
  function ContextEvents(o: seq<OutboxRow>, inventory: bool): seq<Event> {
    if o == [] then []
    else
      var init := ContextEvents(o[..|o| - 1], inventory);
      var e := o[|o| - 1].event;
      if e.Inventory() == inventory then init + [e] else init
  }

  lemma {:induction false} ContextEventsComplete(o: seq<OutboxRow>, i: nat)
    requires i < |o|
    ensures o[i].event in ContextEvents(o, o[i].event.Inventory())
  {
    if i < |o| - 1 {
      ContextEventsComplete(o[..|o| - 1], i);
    }
  }

  lemma ContextEventsAppend(o: seq<OutboxRow>, row: OutboxRow, inventory: bool)
    ensures ContextEvents(o + [row], inventory) ==
            ContextEvents(o, inventory) + (if row.event.Inventory() == inventory then [row.event] else [])
  {
    assert (o + [row])[..|o|] == o;
  }

  lemma {:induction false} ContextEventsSamePayloads(a: seq<OutboxRow>, b: seq<OutboxRow>, inventory: bool)
    requires SamePayloads(a, b)
    ensures ContextEvents(a, inventory) == ContextEvents(b, inventory)
  {
    if a != [] {
      ContextEventsSamePayloads(a[..|a| - 1], b[..|b| - 1], inventory);
    }
  }
}
