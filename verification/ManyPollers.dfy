/** Draining with any number of pollers: every run claims at most the attempts that are left, and if nobody crashes
    and no write is lost, a table with no round open and nothing to claim is finished. */
module ManyPollers {
  import opened Kernel
  import opened Outbox
  import opened WorkerProtocol
  import opened WorkerTheorems
  import opened OutboxRounds

  // ---------- Claims are paid for with attempts ----------

  /** The attempts an unfinished row still has. */
  function Left(r: OutboxRow): int {
    if r.status == Pending || r.status == Processing then r.maxAttempts - r.attempts else 0
  }

  function Lefts(o: seq<OutboxRow>): (w: seq<int>)
    ensures |w| == |o| && forall i :: 0 <= i < |o| ==> w[i] == Left(o[i])
  {
    seq(|o|, i requires 0 <= i < |o| => Left(o[i]))
  }

  function AttemptsLeft(o: seq<OutboxRow>): int {
    Total(Lefts(o))
  }

  /** How many rows the claims of a run take, all pollers together. */
  function RowsClaimed(s: State, actions: seq<Action>): nat
    requires Sized(s)
    decreases |actions|
  {
    if actions == [] then 0
    else (if Starts(s, actions[0]) then |actions[0].rows| else 0) + RowsClaimed(Step(s, actions[0]), actions[1..])
  }

  function Publications(actions: seq<Action>): nat {
    if actions == [] then 0 else (if actions[0].Publish? then 1 else 0) + Publications(actions[1..])
  }

  lemma {:induction false} DistinctRowsCount(rows: seq<nat>)
    requires forall k, l :: 0 <= k < l < |rows| ==> rows[k] != rows[l]
    ensures |RowSet(rows)| == |rows|
  {
    if rows == [] {
      assert RowSet(rows) == {};
    } else {
      var init, last := rows[..|rows| - 1], rows[|rows| - 1];
      DistinctRowsCount(init);
      assert rows == init + [last];
      assert RowSet(rows) == RowSet(init) + {last};
    }
  }

  lemma ClaimSpends(o: seq<OutboxRow>, rows: seq<nat>)
    requires CanClaim(o, rows)
    ensures AttemptsLeft(ClaimRows(o, rows)) <= AttemptsLeft(o) - |rows|
  {
    DistinctRowsCount(rows);
    ClaimedRowsHaveLess(o, rows);
    TotalDrops(Lefts(o), Lefts(ClaimRows(o, rows)), RowSet(rows));
  }

  lemma ClaimedRowsHaveLess(o: seq<OutboxRow>, rows: seq<nat>)
    requires CanClaim(o, rows)
    ensures var w, w' := Lefts(o), Lefts(ClaimRows(o, rows));
            && (forall i :: i in RowSet(rows) ==> i < |w|)
            && forall i :: 0 <= i < |w| ==> w'[i] <= w[i] - (if i in RowSet(rows) then 1 else 0)
  {
    forall i | i in rows
      ensures i < |o| && Eligible(o[i])
    {
      var k :| 0 <= k < |rows| && rows[k] == i;
    }
  }

  lemma WriteSpendsNothing(o: seq<OutboxRow>, c: Claimed, ok: bool)
    requires StillClaimed(o, c) && c.attempts <= c.maxAttempts
    ensures AttemptsLeft(WriteStatus(o, c.row, NewStatus(c, ok))) <= AttemptsLeft(o)
  {
    TotalDrops(Lefts(o), Lefts(WriteStatus(o, c.row, NewStatus(c, ok))), {});
  }

  lemma PublishAdds(o: seq<OutboxRow>, event: Event, at: Time)
    ensures AttemptsLeft(o + [NewRow(event, at)]) == AttemptsLeft(o) + DEFAULT_MAX_ATTEMPTS
  {
    assert Lefts(o + [NewRow(event, at)])[..|o|] == Lefts(o);
  }

  lemma StepSpends(s: State, a: Action)
    requires Inv(s)
    ensures AttemptsLeft(Step(s, a).outbox) + (if Starts(s, a) then |a.rows| else 0)
            <= AttemptsLeft(s.outbox) + (if a.Publish? then DEFAULT_MAX_ATTEMPTS else 0)
  {
    match a
    case Publish(event, at) => PublishAdds(s.outbox, event, at);
    case Claim(_, rows, _) =>
      if Starts(s, a) {
        ClaimSpends(s.outbox, rows);
      }
    case Call(_, _) =>
    case Write(w, delivered) =>
      if w in s.rounds && s.rounds[w].called.Some? && delivered {
        QueueIsRest(s, s.rounds[w]);
        WriteSpendsNothing(s.outbox, s.rounds[w].called.value.0, s.rounds[w].called.value.1);
      }
    case Crash(_) =>
  }

  /** However many pollers there are, and whatever crashes or gets lost: the rows claimed in a run are at most the
      attempts left to unfinished rows at the start, and five more for each publication. */
  lemma {:induction false} ClaimsArePaidFor(s: State, actions: seq<Action>)
    requires Inv(s)
    ensures RowsClaimed(s, actions) + AttemptsLeft(Run(s, actions).outbox)
            <= AttemptsLeft(s.outbox) + 5 * Publications(actions)
    ensures RowsClaimed(s, actions) <= AttemptsLeft(s.outbox) + 5 * Publications(actions)
    decreases |actions|
  {
    if actions == [] {
      TotalNonNegative(Lefts(s.outbox));
    } else {
      StepKeepsInv(s, actions[0]);
      StepSpends(s, actions[0]);
      ClaimsArePaidFor(Step(s, actions[0]), actions[1..]);
      TotalNonNegative(Lefts(Step(s, actions[0]).outbox));
    }
  }

  // ---------- Nothing is left behind ----------

  /** No crash, no scan error, no lost write. */
  predicate Smooth(a: Action) {
    CrashFree(a) && (a.Write? ==> a.delivered)
  }

  /** Every processing row is some worker's. */
  ghost predicate AllHeld(s: State) {
    forall i :: 0 <= i < |s.outbox| && s.outbox[i].status == Processing ==> HeldRow(s, i)
  }

  lemma StaysHeld(s: State, s': State, w: WorkerId, k: nat)
    requires w in s.rounds && w in s'.rounds && s'.rounds[w] == s.rounds[w] && k < |Held(s.rounds[w])|
    ensures HeldRow(s', Held(s.rounds[w])[k].row)
  {
  }

  lemma ClaimHolds(s: State, w: WorkerId, rows: seq<nat>, i: nat)
    requires w !in s.rounds && CanClaim(s.outbox, rows)
    requires i in rows || HeldRow(s, i)
    ensures HeldRow(ClaimStep(s, w, rows, {}), i)
  {
    var s' := ClaimStep(s, w, rows, {});
    if i in rows {
      var queue := Scan(ClaimRows(s.outbox, rows), rows, {});
      assert ToClaimed(ClaimRows(s.outbox, rows), i) in queue;
      var k :| 0 <= k < |queue| && queue[k] == ToClaimed(ClaimRows(s.outbox, rows), i);
      assert s'.rounds[w] == Round(None, queue) && Held(s'.rounds[w])[k].row == i;
    } else {
      var v, k :| v in s.rounds && 0 <= k < |Held(s.rounds[v])| && Held(s.rounds[v])[k].row == i;
      StaysHeld(s, s', v, k);
    }
  }

  lemma CallHolds(s: State, w: WorkerId, ok: bool, i: nat)
    requires Sized(s) && w in s.rounds && s.rounds[w].called == None && s.rounds[w].queue != [] && HeldRow(s, i)
    ensures HeldRow(CallStep(s, w, s.rounds[w], ok), i)
  {
    var s' := CallStep(s, w, s.rounds[w], ok);
    var v, k :| v in s.rounds && 0 <= k < |Held(s.rounds[v])| && Held(s.rounds[v])[k].row == i;
    assert v in s'.rounds && Held(s'.rounds[v]) == Held(s.rounds[v]);
  }

  lemma WriteHolds(s: State, w: WorkerId, i: nat)
    requires w in s.rounds && s.rounds[w].called.Some? && HeldRow(s, i) && i != s.rounds[w].called.value.0.row
    ensures HeldRow(WriteStep(s, w, s.rounds[w], true), i)
  {
    var s' := WriteStep(s, w, s.rounds[w], true);
    var v, k :| v in s.rounds && 0 <= k < |Held(s.rounds[v])| && Held(s.rounds[v])[k].row == i;
    if v == w {
      assert Held(s.rounds[w])[k] == s.rounds[w].queue[k - 1];
      assert Held(s'.rounds[w])[k - 1].row == i;
    } else {
      StaysHeld(s, s', v, k);
    }
  }

  lemma StepKeepsAllHeld(s: State, a: Action)
    requires Inv(s) && AllHeld(s) && Smooth(a)
    ensures AllHeld(Step(s, a))
  {
    var s' := Step(s, a);
    forall i | 0 <= i < |s'.outbox| && s'.outbox[i].status == Processing
      ensures HeldRow(s', i)
    {
      StepKeepsRowHeld(s, a, i);
    }
  }

  lemma StepKeepsRowHeld(s: State, a: Action, i: nat)
    requires Inv(s) && AllHeld(s) && Smooth(a)
    requires i < |Step(s, a).outbox| && Step(s, a).outbox[i].status == Processing
    ensures HeldRow(Step(s, a), i)
  {
    match a
    case Publish(_, _) =>
      var v, k :| v in s.rounds && 0 <= k < |Held(s.rounds[v])| && Held(s.rounds[v])[k].row == i;
      StaysHeld(s, Step(s, a), v, k);
    case Claim(w, rows, _) =>
      if Starts(s, a) {
        ClaimHolds(s, w, rows, i);
      }
    case Call(w, ok) =>
      if w in s.rounds && s.rounds[w].called == None && s.rounds[w].queue != [] {
        CallHolds(s, w, ok, i);
      }
    case Write(w, _) =>
      if w in s.rounds && s.rounds[w].called.Some? {
        QueueIsRest(s, s.rounds[w]);
        WriteHolds(s, w, i);
      }
  }

  lemma {:induction false} RunKeepsAllHeld(s: State, actions: seq<Action>)
    requires Inv(s) && AllHeld(s) && forall a :: a in actions ==> Smooth(a)
    ensures Inv(Run(s, actions)) && AllHeld(Run(s, actions))
    decreases |actions|
  {
    if actions != [] {
      assert actions[0] in actions;
      StepKeepsInv(s, actions[0]);
      StepKeepsAllHeld(s, actions[0]);
      RunKeepsAllHeld(Step(s, actions[0]), actions[1..]);
    }
  }

  /** Draining with any number of pollers and publishers, without crashes, scan errors and lost writes: once no
      round is open, the table is finished exactly when there is nothing to claim, so no poller stops too early. */
  lemma IdleIsFinishedIff(s: State, actions: seq<Action>)
    requires Inv(s) && AllHeld(s) && forall a :: a in actions ==> Smooth(a)
    requires Run(s, actions).rounds == map[]
    ensures var o := Run(s, actions).outbox;
            Finished(o) <==> forall i :: 0 <= i < |o| ==> !Eligible(o[i])
  {
    RunKeepsAllHeld(s, actions);
    var s' := Run(s, actions);
    forall i | 0 <= i < |s'.outbox|
      ensures s'.outbox[i].status != Processing
    {
    }
  }
}
