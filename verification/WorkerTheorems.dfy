/** What holds of every interleaving of outbox workers and publishers. */
module WorkerTheorems {
  import opened Kernel
  import opened Outbox
  import opened WorkerProtocol

  lemma {:induction false} RunKeepsInv(s: State, actions: seq<Action>)
    requires Inv(s)
    ensures Inv(Run(s, actions))
    decreases |actions|
  {
    if actions != [] {
      StepKeepsInv(s, actions[0]);
      RunKeepsInv(Step(s, actions[0]), actions[1..]);
    }
  }

  /** Exclusive ownership: whatever the workers hold is still exactly as they claimed it, and no event is held
      twice, by one worker or by two. */
  lemma ExclusiveOwnership(actions: seq<Action>, v: WorkerId, w: WorkerId, k: nat, l: nat)
    requires var s := Run(INITIAL, actions);
             v in s.rounds && w in s.rounds && k < |Held(s.rounds[v])| && l < |Held(s.rounds[w])|
    ensures var s := Run(INITIAL, actions);
            && StillClaimed(s.outbox, Held(s.rounds[v])[k])
            && (Held(s.rounds[v])[k].row == Held(s.rounds[w])[l].row ==> v == w && k == l)
  {
    RunKeepsInv(INITIAL, actions);
  }

  /** The unguarded status write only ever replaces the writer's own claim: it finds the row as claimed and
      decides it from the attempts it claimed with, and no other worker's event is the row. */
  lemma StatusWriteHitsOwnClaim(before: seq<Action>, w: WorkerId)
    requires var s := Run(INITIAL, before); w in s.rounds && s.rounds[w].called.Some?
    ensures var s := Run(INITIAL, before);
            var s' := Step(s, Write(w, true));
            var (c, ok) := s.rounds[w].called.value;
            && StillClaimed(s.outbox, c)
            && s'.outbox == s.outbox[c.row := s.outbox[c.row].(status :=
                 if ok then Done
                 else if s.outbox[c.row].attempts < s.outbox[c.row].maxAttempts then Pending
                 else Failed)]
            && forall v, k :: v in s.rounds && v != w && 0 <= k < |Held(s.rounds[v])| ==>
                 Held(s.rounds[v])[k].row != c.row && Held(s.rounds[v])[k].row < |s.outbox| &&
                 s'.outbox[Held(s.rounds[v])[k].row] == s.outbox[Held(s.rounds[v])[k].row]
  {
    RunKeepsInv(INITIAL, before);
    var s := Run(INITIAL, before);
    var c := s.rounds[w].called.value.0;
    assert Held(s.rounds[w])[0] == c;
    assert StillClaimed(s.outbox, Held(s.rounds[w])[0]);
    forall v, k | v in s.rounds && v != w && 0 <= k < |Held(s.rounds[v])|
      ensures Held(s.rounds[v])[k].row != c.row && Held(s.rounds[v])[k].row < |s.outbox|
    {
      assert Disjoint(s.rounds[v], s.rounds[w]);
      assert StillClaimed(s.outbox, Held(s.rounds[v])[k]);
    }
  }

  /** Row states over all runs, crashes and lost writes included: a pending row is always eligible, so none is
      stranded pending; a row fails only with its attempts used up and no handler success; a done row has had
      exactly one handler success and no row ever has two; the handler runs at most max_attempts times. */
  lemma RowStates(actions: seq<Action>, i: nat)
    requires i < |Run(INITIAL, actions).outbox|
    ensures var s := Run(INITIAL, actions);
            var r := s.outbox[i];
            && (r.status == Pending <==> Eligible(r))
            && (r.status == Failed ==> r.attempts == r.maxAttempts && s.successes[i] == 0)
            && (r.status == Done ==> s.successes[i] == 1)
            && s.successes[i] <= 1
            && s.calls[i] <= r.attempts <= r.maxAttempts
  {
    RunKeepsInv(INITIAL, actions);
  }

  lemma HeldRowsAreProcessing(s: State, w: WorkerId)
    requires Inv(s) && w in s.rounds
    ensures var r := s.rounds[w];
            && (r.called.Some? ==>
                  r.called.value.0.row < |s.outbox| && s.outbox[r.called.value.0.row].status == Processing)
            && (r.called == None && r.queue != [] ==>
                  r.queue[0].row < |s.outbox| && s.outbox[r.queue[0].row].status == Processing)
  {
    var r := s.rounds[w];
    assert r.called.Some? ==> Held(r)[0] == r.called.value.0;
    assert |Held(r)| > 0 ==> StillClaimed(s.outbox, Held(r)[0]);
  }

  /** Done and failed rows never change again. */
  lemma {:induction false} FinishedRowsAreFrozen(s: State, actions: seq<Action>, i: nat)
    requires Inv(s) && i < |s.outbox| && s.outbox[i].status in {Done, Failed}
    ensures Run(s, actions).outbox[i] == s.outbox[i]
    ensures Run(s, actions).calls[i] == s.calls[i]
    decreases |actions|
  {
    if actions != [] {
      StepKeepsInv(s, actions[0]);
      FinishedRowStays(s, actions[0], i);
      FinishedRowsAreFrozen(Step(s, actions[0]), actions[1..], i);
    }
  }

  lemma FinishedRowStays(s: State, a: Action, i: nat)
    requires Inv(s) && i < |s.outbox| && s.outbox[i].status in {Done, Failed}
    ensures Step(s, a).outbox[i] == s.outbox[i] && Step(s, a).calls[i] == s.calls[i]
  {
    if (a.Call? || a.Write?) && a.w in s.rounds {
      HeldRowsAreProcessing(s, a.w);
    }
  }

  // ---------- Attempts count handler calls ----------

  /** Some worker has claimed the event and not yet called the handler on it. */
  ghost predicate Queued(s: State, i: nat) {
    exists w, k :: w in s.rounds && 0 <= k < |s.rounds[w].queue| && s.rounds[w].queue[k].row == i
  }

  ghost predicate Counted(s: State)
    requires Sized(s)
  {
    forall i :: 0 <= i < |s.outbox| ==> s.calls[i] == s.outbox[i].attempts - (if Queued(s, i) then 1 else 0)
  }

  /** No worker crashes and every claimed row scans. Status writes may still be lost. */
  predicate CrashFree(a: Action) {
    !a.Crash? && (a.Claim? ==> a.unscanned == {})
  }

  lemma QueuedIsClaimed(s: State, i: nat)
    requires Inv(s) && Queued(s, i)
    ensures i < |s.outbox| && s.outbox[i].status == Processing
  {
    var w, k :| w in s.rounds && 0 <= k < |s.rounds[w].queue| && s.rounds[w].queue[k].row == i;
    var r := s.rounds[w];
    assert Held(r)[if r.called == None then k else k + 1] == r.queue[k];
  }

  lemma ClaimCounts(s: State, w: WorkerId, rows: seq<nat>)
    requires Inv(s) && Counted(s) && w !in s.rounds && CanClaim(s.outbox, rows)
    ensures Sized(ClaimStep(s, w, rows, {})) && Counted(ClaimStep(s, w, rows, {}))
  {
    var s' := ClaimStep(s, w, rows, {});
    forall i | 0 <= i < |s.outbox|
      ensures Queued(s', i) <==> Queued(s, i) || i in rows
      ensures i in rows ==> !Queued(s, i)
    {
      ClaimQueues(s, w, rows, i);
      if Queued(s, i) {
        QueuedIsClaimed(s, i);
      }
    }
  }

  lemma ClaimQueues(s: State, w: WorkerId, rows: seq<nat>, i: nat)
    requires w !in s.rounds && CanClaim(s.outbox, rows)
    ensures Queued(ClaimStep(s, w, rows, {}), i) <==> Queued(s, i) || i in rows
  {
    var s' := ClaimStep(s, w, rows, {});
    var queue := Scan(ClaimRows(s.outbox, rows), rows, {});
    if Queued(s, i) {
      var v, k :| v in s.rounds && 0 <= k < |s.rounds[v].queue| && s.rounds[v].queue[k].row == i;
      assert v in s'.rounds && s'.rounds[v] == s.rounds[v];
    }
    if i in rows {
      assert ToClaimed(ClaimRows(s.outbox, rows), i) in queue;
      var k :| 0 <= k < |queue| && queue[k] == ToClaimed(ClaimRows(s.outbox, rows), i);
      assert s'.rounds[w].queue[k].row == i;
    }
    if Queued(s', i) {
      var v, k :| v in s'.rounds && 0 <= k < |s'.rounds[v].queue| && s'.rounds[v].queue[k].row == i;
      if v == w {
        assert queue[k] in queue;
      } else {
        assert s.rounds[v].queue[k].row == i;
      }
    }
  }

  lemma CallCounts(s: State, w: WorkerId, ok: bool)
    requires Inv(s) && Counted(s) && w in s.rounds && s.rounds[w].called == None && s.rounds[w].queue != []
    ensures Counted(CallStep(s, w, s.rounds[w], ok))
  {
    var s' := CallStep(s, w, s.rounds[w], ok);
    var r := s.rounds[w];
    var c := r.queue[0];
    assert Held(r) == r.queue;
    assert StillClaimed(s.outbox, Held(r)[0]);
    assert Queued(s, c.row);
    forall i | 0 <= i < |s.outbox|
      ensures Queued(s', i) <==> Queued(s, i) && i != c.row
    {
      if Queued(s, i) && i != c.row {
        StaysQueued(s, w, ok, i);
      }
      if Queued(s', i) {
        WasQueued(s, w, ok, i);
      }
    }
  }

  lemma StaysQueued(s: State, w: WorkerId, ok: bool, i: nat)
    requires Inv(s) && w in s.rounds && s.rounds[w].called == None && s.rounds[w].queue != []
    requires Queued(s, i) && i != s.rounds[w].queue[0].row
    ensures Queued(CallStep(s, w, s.rounds[w], ok), i)
  {
    var s' := CallStep(s, w, s.rounds[w], ok);
    var r := s.rounds[w];
    assert Held(r) == r.queue && StillClaimed(s.outbox, Held(r)[0]);
    var v, k :| v in s.rounds && 0 <= k < |s.rounds[v].queue| && s.rounds[v].queue[k].row == i;
    var k' := if v == w then k - 1 else k;
    assert v in s'.rounds && s'.rounds[v].queue[k'].row == i;
  }

  lemma WasQueued(s: State, w: WorkerId, ok: bool, i: nat)
    requires Inv(s) && w in s.rounds && s.rounds[w].called == None && s.rounds[w].queue != []
    requires Queued(CallStep(s, w, s.rounds[w], ok), i)
    ensures Queued(s, i) && i != s.rounds[w].queue[0].row
  {
    var s' := CallStep(s, w, s.rounds[w], ok);
    var r := s.rounds[w];
    assert StillClaimed(s.outbox, Held(r)[0]);
    var v, k :| v in s'.rounds && 0 <= k < |s'.rounds[v].queue| && s'.rounds[v].queue[k].row == i;
    if v == w {
      RestAvoidsHead(s.outbox, r, k);
      assert s.rounds[w].queue[k + 1].row == i;
    } else {
      assert Disjoint(s.rounds[v], r);
      QueueAvoidsHead(s.rounds[v], r, k);
      assert s.rounds[v].queue[k].row == i;
    }
  }

  lemma RestAvoidsHead(o: seq<OutboxRow>, r: Round, k: nat)
    requires r.called == None && OwnsRows(o, r) && k + 1 < |r.queue|
    ensures r.queue[k + 1].row != r.queue[0].row
  {
    assert Held(r)[0].row != Held(r)[k + 1].row;
  }

  lemma QueueAvoidsHead(q: Round, r: Round, k: nat)
    requires Disjoint(q, r) && k < |q.queue| && r.called == None && r.queue != []
    ensures q.queue[k].row != r.queue[0].row
  {
    assert Held(q)[if q.called == None then k else k + 1] == q.queue[k];
    assert Held(r)[0] == r.queue[0];
  }

  lemma SameQueuesCount(s: State, s': State)
    requires Sized(s) && Sized(s') && Counted(s) && Inv(s)
    requires forall i :: Queued(s', i) <==> Queued(s, i)
    requires |s.outbox| <= |s'.outbox|
    requires forall i :: 0 <= i < |s.outbox| ==>
               s'.calls[i] == s.calls[i] && s'.outbox[i].attempts == s.outbox[i].attempts
    requires forall i :: |s.outbox| <= i < |s'.outbox| ==> s'.calls[i] == s'.outbox[i].attempts
    ensures Counted(s')
  {
    forall i | |s.outbox| <= i < |s'.outbox|
      ensures !Queued(s', i)
    {
      if Queued(s, i) {
        QueuedIsClaimed(s, i);
      }
    }
  }

  lemma WriteCounts(s: State, w: WorkerId, delivered: bool)
    requires Inv(s) && Counted(s) && w in s.rounds && s.rounds[w].called.Some?
    ensures Counted(WriteStep(s, w, s.rounds[w], delivered))
  {
    var s' := WriteStep(s, w, s.rounds[w], delivered);
    forall i
      ensures Queued(s', i) <==> Queued(s, i)
    {
      if Queued(s, i) {
        var v, k :| v in s.rounds && 0 <= k < |s.rounds[v].queue| && s.rounds[v].queue[k].row == i;
        assert v in s'.rounds && s'.rounds[v].queue[k].row == i;
      }
      if Queued(s', i) {
        var v, k :| v in s'.rounds && 0 <= k < |s'.rounds[v].queue| && s'.rounds[v].queue[k].row == i;
        assert s.rounds[v].queue[k].row == i;
      }
    }
    SameQueuesCount(s, s');
  }

  lemma StepCounts(s: State, a: Action)
    requires Inv(s) && Counted(s) && CrashFree(a)
    ensures Counted(Step(s, a))
  {
    match a
    case Publish(event, at) => SameQueuesCount(s, Step(s, a));
    case Claim(w, rows, _) =>
      if w !in s.rounds && CanClaim(s.outbox, rows) {
        ClaimCounts(s, w, rows);
      }
    case Call(w, ok) =>
      if w in s.rounds && s.rounds[w].called == None && s.rounds[w].queue != [] {
        CallCounts(s, w, ok);
      }
    case Write(w, delivered) =>
      if w in s.rounds && s.rounds[w].called.Some? {
        WriteCounts(s, w, delivered);
      }
    case Crash(_) =>
  }

  /** In crash-free runs attempts counts the handler calls, give or take the call a claim still owes. */
  lemma {:induction false} AttemptsCountCalls(s: State, actions: seq<Action>)
    requires Inv(s) && Counted(s) && forall a :: a in actions ==> CrashFree(a)
    ensures Inv(Run(s, actions)) && Counted(Run(s, actions))
    decreases |actions|
  {
    if actions != [] {
      assert actions[0] in actions;
      StepKeepsInv(s, actions[0]);
      StepCounts(s, actions[0]);
      AttemptsCountCalls(Step(s, actions[0]), actions[1..]);
    }
  }

  // ---------- Crashes strand ----------

  ghost predicate HeldRow(s: State, i: nat) {
    exists w, k :: w in s.rounds && 0 <= k < |Held(s.rounds[w])| && Held(s.rounds[w])[k].row == i
  }

  /** Nothing, a status written, or the next event called. */
  ghost predicate MovesTo(r: Round, r': Round) {
    || r' == r
    || r' == Round(None, r.queue)
    || (r.called == None && r.queue != [] && r'.called.Some? && r'.called.value.0 == r.queue[0] &&
        r'.queue == r.queue[1..])
  }

  /** How one step may change the round of a worker that is in one. */
  lemma RoundMoves(s: State, a: Action, w: WorkerId)
    requires Inv(s) && w in s.rounds && w in Step(s, a).rounds
    ensures var r, r' := s.rounds[w], Step(s, a).rounds[w];
            MovesTo(r, r')
  {
  }

  lemma StillHeldWasHeld(s: State, a: Action, w: WorkerId, k: nat)
    requires Inv(s) && w in s.rounds && w in Step(s, a).rounds && k < |Held(Step(s, a).rounds[w])|
    ensures HeldRow(s, Held(Step(s, a).rounds[w])[k].row)
  {
    RoundMoves(s, a, w);
    HeldByMoved(s.rounds[w], Step(s, a).rounds[w], k);
  }

  lemma HeldByMoved(r: Round, r': Round, k: nat)
    requires k < |Held(r')|
    requires MovesTo(r, r')
    ensures exists l :: 0 <= l < |Held(r)| && Held(r)[l].row == Held(r')[k].row
  {
    if r' == r || r'.called.Some? || r.called == None {
      assert Held(r)[k] == Held(r')[k];
    } else {
      assert Held(r)[k + 1] == Held(r')[k];
    }
  }

  lemma NewlyHeldWasPending(s: State, a: Action, i: nat)
    requires Inv(s) && HeldRow(Step(s, a), i) && !HeldRow(s, i)
    ensures i < |s.outbox| && s.outbox[i].status == Pending
  {
    var s' := Step(s, a);
    var w, k :| w in s'.rounds && 0 <= k < |Held(s'.rounds[w])| && Held(s'.rounds[w])[k].row == i;
    if w in s.rounds {
      StillHeldWasHeld(s, a, w, k);
      assert false;
    } else {
      assert s'.rounds[w].queue[k] in s'.rounds[w].queue;
    }
  }

  lemma UnheldRowStays(s: State, a: Action, i: nat)
    requires Inv(s) && i < |s.outbox| && s.outbox[i].status == Processing && !HeldRow(s, i)
    ensures Step(s, a).outbox[i] == s.outbox[i]
  {
    if a.Write? && a.w in s.rounds && s.rounds[a.w].called.Some? {
      assert Held(s.rounds[a.w])[0] == s.rounds[a.w].called.value.0;
    }
  }

  /** An event whose worker crashed stays processing for ever: only pending rows are claimed, and only held
      rows are written. */
  lemma {:induction false} CrashStrandsRow(s: State, actions: seq<Action>, i: nat)
    requires Inv(s) && i < |s.outbox| && s.outbox[i].status == Processing && !HeldRow(s, i)
    ensures Run(s, actions).outbox[i] == s.outbox[i]
    decreases |actions|
  {
    if actions != [] {
      var a := actions[0];
      StepKeepsInv(s, a);
      if HeldRow(Step(s, a), i) {
        NewlyHeldWasPending(s, a, i);
      }
      UnheldRowStays(s, a, i);
      CrashStrandsRow(Step(s, a), actions[1..], i);
    }
  }
}
