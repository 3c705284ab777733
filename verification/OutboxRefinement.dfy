/** The rounds of one poller are runs of the concurrent machine: an uninterrupted claim, with every call and status
    write after it, is one round. */
module OutboxRefinement {
  import opened Kernel
  import opened Outbox
  import opened WorkerProtocol
  import Rounds = OutboxRounds

  /** Call and write for each queued event, with the given handler outcomes. */
  function Handling(w: WorkerId, queue: seq<Claimed>, outcomes: nat -> bool): seq<Action> {
    if queue == [] then []
    else [Call(w, outcomes(queue[0].row)), Write(w, true)] + Handling(w, queue[1..], outcomes)
  }

  /** What OutboxRounds assumes of the tables holds of every reachable one. */
  lemma ReachableIsUnstranded(s: State)
    requires Inv(s)
    ensures Rounds.NoneStranded(s.outbox)
  {
  }

  lemma RunTwo(s: State, a: Action, b: Action, rest: seq<Action>)
    requires Sized(s)
    ensures Run(s, [a, b] + rest) == Run(Step(Step(s, a), b), rest)
  {
    var all := [a, b] + rest;
    assert all[1..] == [b] + rest;
    assert all[1..][1..] == rest;
  }

  lemma CallEnters(s: State, w: WorkerId, ok: bool)
    requires Inv(s) && w in s.rounds && s.rounds[w].called == None && s.rounds[w].queue != []
    ensures var queue := s.rounds[w].queue;
            var s' := Step(s, Call(w, ok));
            && Inv(s') && queue[0].row < |s.outbox| && s'.outbox == s.outbox
            && s'.rounds == s.rounds[w := Round(Some((queue[0], ok)), queue[1..])]
  {
    assert StillClaimed(s.outbox, Held(s.rounds[w])[0]);
    StepKeepsInv(s, Call(w, ok));
  }

  lemma WriteLeaves(s: State, w: WorkerId)
    requires Inv(s) && w in s.rounds && s.rounds[w].called.Some?
    ensures var r := s.rounds[w];
            var s' := Step(s, Write(w, true));
            && Inv(s')
            && s'.outbox == WriteStatus(s.outbox, r.called.value.0.row, NewStatus(r.called.value.0, r.called.value.1))
            && s'.rounds == (if r.queue == [] then s.rounds - {w} else s.rounds[w := Round(None, r.queue)])
  {
    StepKeepsInv(s, Write(w, true));
  }

  /** One event: the call, then the write. */
  lemma HandleOne(s: State, w: WorkerId, ok: bool)
    requires Inv(s) && w in s.rounds && s.rounds[w].called == None && s.rounds[w].queue != []
    ensures var queue := s.rounds[w].queue;
            var s' := Step(Step(s, Call(w, ok)), Write(w, true));
            && Inv(s')
            && queue[0].row < |s.outbox|
            && s'.outbox == WriteStatus(s.outbox, queue[0].row, NewStatus(queue[0], ok))
            && s'.rounds == (if queue[1..] == [] then s.rounds - {w} else s.rounds[w := Round(None, queue[1..])])
  {
    CallEnters(s, w, ok);
    WriteLeaves(Step(s, Call(w, ok)), w);
  }

  ghost predicate Queued(queue: seq<Claimed>, i: nat) {
    exists k :: 0 <= k < |queue| && queue[k].row == i
  }

  lemma HeadNotQueuedAgain(s: State, w: WorkerId)
    requires Inv(s) && w in s.rounds && s.rounds[w].called == None && s.rounds[w].queue != []
    ensures !Queued(s.rounds[w].queue[1..], s.rounds[w].queue[0].row)
    ensures forall i :: Queued(s.rounds[w].queue, i) <==>
              i == s.rounds[w].queue[0].row || Queued(s.rounds[w].queue[1..], i)
  {
    var queue := s.rounds[w].queue;
    assert Held(s.rounds[w]) == queue;
    forall i
      ensures Queued(queue, i) <==> i == queue[0].row || Queued(queue[1..], i)
    {
      if Queued(queue[1..], i) {
        var k :| 0 <= k < |queue[1..]| && queue[1..][k].row == i;
        assert queue[k + 1].row == i;
      }
      if Queued(queue, i) {
        var k :| 0 <= k < |queue| && queue[k].row == i;
        assert k > 0 ==> queue[1..][k - 1].row == i;
      }
    }
  }

  /** The rows of the queue get the status of their own call; no other row changes; the round is over. */
  lemma {:induction false} HandlingSettles(s: State, w: WorkerId, outcomes: nat -> bool)
    requires Inv(s) && w in s.rounds && s.rounds[w].called == None && s.rounds[w].queue != []
    ensures var queue := s.rounds[w].queue;
            var s' := Run(s, Handling(w, queue, outcomes));
            IsSettled(s.outbox, s'.outbox, queue, outcomes) && s'.rounds == s.rounds - {w}
    decreases |s.rounds[w].queue|
  {
    var queue := s.rounds[w].queue;
    var ok := outcomes(queue[0].row);
    assert StillClaimed(s.outbox, Held(s.rounds[w])[0]);
    HandleOne(s, w, ok);
    HeadNotQueuedAgain(s, w);
    RunTwo(s, Call(w, ok), Write(w, true), Handling(w, queue[1..], outcomes));
    var next := Step(Step(s, Call(w, ok)), Write(w, true));
    if |queue| > 1 {
      HandlingSettles(next, w, outcomes);
      assert next.rounds - {w} == s.rounds - {w};
      SettledInTwo(s.outbox, next.outbox, Run(next, Handling(w, queue[1..], outcomes)).outbox, queue, outcomes);
    } else {
      assert queue[1..] == [];
      SettledInTwo(s.outbox, next.outbox, next.outbox, queue, outcomes);
    }
  }

  /** Each row of the queue has the status of its own call; no other row has changed. */
  ghost predicate IsSettled(o: seq<OutboxRow>, o': seq<OutboxRow>, queue: seq<Claimed>, outcomes: nat -> bool) {
    && |o'| == |o|
    && forall i :: 0 <= i < |o| ==>
         o'[i] == if Queued(queue, i) then o[i].(status := OutcomeStatus(o[i], outcomes(i))) else o[i]
  }

  /** Settling the head, then the rows of the rest, settles the rows of the queue. */
  lemma SettledInTwo(o: seq<OutboxRow>, mid: seq<OutboxRow>, o': seq<OutboxRow>, queue: seq<Claimed>,
                     outcomes: nat -> bool)
    requires queue != [] && StillClaimed(o, queue[0])
    requires mid == WriteStatus(o, queue[0].row, NewStatus(queue[0], outcomes(queue[0].row)))
    requires IsSettled(mid, o', queue[1..], outcomes)
    requires !Queued(queue[1..], queue[0].row)
    requires forall i :: Queued(queue, i) <==> i == queue[0].row || Queued(queue[1..], i)
    ensures IsSettled(o, o', queue, outcomes)
  {
  }

  /** The status a claimed row gets from its own attempts. */
  function OutcomeStatus(r: OutboxRow, ok: bool): Status {
    NewStatus(Claimed(0, r.attempts, r.maxAttempts), ok)
  }

  function Results(rows: seq<nat>, outcomes: nat -> bool): Rounds.Results {
    map i | i in rows :: outcomes(i)
  }

  lemma ClaimedAreQueued(o: seq<OutboxRow>, rows: seq<nat>)
    requires CanClaim(o, rows)
    ensures forall i :: Queued(Scan(ClaimRows(o, rows), rows, {}), i) <==> i in rows
  {
    var queue := Scan(ClaimRows(o, rows), rows, {});
    forall i | i in rows
      ensures Queued(queue, i)
    {
      assert ToClaimed(ClaimRows(o, rows), i) in queue;
    }
    forall i | Queued(queue, i)
      ensures i in rows
    {
      var k :| 0 <= k < |queue| && queue[k].row == i;
      assert queue[k] in queue;
    }
  }

  /** Whatever the other workers hold: a claim, handled to its end without interference, turns the table into the
      table after one round, and frees the worker. */
  lemma UninterruptedRoundIsRound(s: State, w: WorkerId, rows: seq<nat>, outcomes: nat -> bool)
    requires Inv(s) && w !in s.rounds && CanClaim(s.outbox, rows)
    ensures var queue := Scan(ClaimRows(s.outbox, rows), rows, {});
            var s' := Run(s, [Claim(w, rows, {})] + Handling(w, queue, outcomes));
            s'.outbox == Rounds.AfterRound(s.outbox, Results(rows, outcomes)) && s'.rounds == s.rounds
  {
    var queue := Scan(ClaimRows(s.outbox, rows), rows, {});
    assert ([Claim(w, rows, {})] + Handling(w, queue, outcomes))[1..] == Handling(w, queue, outcomes);
    ClaimedAreQueued(s.outbox, rows);
    ClaimEnters(s, w, rows);
    if queue != [] {
      HandlingSettles(Step(s, Claim(w, rows, {})), w, outcomes);
    }
    SettledIsRound(s.outbox, Run(s, [Claim(w, rows, {})] + Handling(w, queue, outcomes)).outbox, rows, outcomes);
  }

  lemma ClaimEnters(s: State, w: WorkerId, rows: seq<nat>)
    requires Inv(s) && w !in s.rounds && CanClaim(s.outbox, rows)
    ensures var queue := Scan(ClaimRows(s.outbox, rows), rows, {});
            var s' := Step(s, Claim(w, rows, {}));
            && Inv(s') && s'.outbox == ClaimRows(s.outbox, rows)
            && (queue == [] ==> s'.rounds == s.rounds)
            && (queue != [] ==> s'.rounds == s.rounds[w := Round(None, queue)])
            && s'.rounds - {w} == s.rounds
  {
    var queue := Scan(ClaimRows(s.outbox, rows), rows, {});
    StepKeepsInv(s, Claim(w, rows, {}));
    assert Step(s, Claim(w, rows, {})) == ClaimStep(s, w, rows, {});
    RoundsAfterClaim(s.rounds, w, queue);
  }

  lemma RoundsAfterClaim(rounds: map<WorkerId, Round>, w: WorkerId, queue: seq<Claimed>)
    requires w !in rounds
    ensures rounds[w := Round(None, queue)] - {w} == rounds && rounds - {w} == rounds
  {
  }

  lemma SettledIsRound(o: seq<OutboxRow>, o': seq<OutboxRow>, rows: seq<nat>, outcomes: nat -> bool)
    requires |o'| == |o|
    requires var claimed := ClaimRows(o, rows);
             forall i :: 0 <= i < |o| ==>
               o'[i] == if i in rows then claimed[i].(status := OutcomeStatus(claimed[i], outcomes(i))) else claimed[i]
    ensures o' == Rounds.AfterRound(o, Results(rows, outcomes))
  {
  }
}
