/** Runs of the concurrent machine with a single poller that neither crashes nor loses a write, and publishers at
    any moment, in the middle of its rounds too: they are histories of rounds, so draining and the bounded wait
    hold of the machine. */
module SoloPoller {
  import opened Kernel
  import opened Outbox
  import opened WorkerProtocol
  import opened OutboxRounds
  import Refinement = OutboxRefinement

  /** What the publishers may do: nothing, anything, or append rows strictly newer than an instant. */
  datatype Traffic = Quiet | Any | After(instant: Time) {
    predicate Allows(at: Time) {
      match this
      case Quiet => false
      case Any => true
      case After(t) => at > t
    }
  }

  /** The action of a publisher, or of the one poller; its claims take the oldest eligible rows. Whatever else the
      action says, it does nothing unless the poller is at that point of its round. */
  ghost predicate Solo(s: State, a: Action, w: WorkerId, traffic: Traffic) {
    match a
    case Publish(_, at) => traffic.Allows(at)
    case Claim(v, rows, unscanned) => v == w && unscanned == {} && OldestClaim(s.outbox, RowSet(rows))
    case Call(v, _) => v == w
    case Write(v, delivered) => v == w && delivered
    case Crash(_) => false
  }

  ghost predicate IsSolo(s: State, actions: seq<Action>, w: WorkerId, traffic: Traffic)
    requires Sized(s)
    decreases |actions|
  {
    actions != [] ==>
      Solo(s, actions[0], w, traffic) && IsSolo(Step(s, actions[0]), actions[1..], w, traffic)
  }

  /** How many rounds a run starts. */
  function Rounds(s: State, actions: seq<Action>): nat
    requires Sized(s)
    decreases |actions|
  {
    if actions == [] then 0
    else (if Starts(s, actions[0]) then 1 else 0) + Rounds(Step(s, actions[0]), actions[1..])
  }

  /** The history so far, and the outcomes of the round under way. */
  datatype Log = Log(tables: seq<seq<OutboxRow>>, rounds: seq<Results>, results: Results)

  function HeldRows(r: Round): set<nat> {
    set c | c in Held(r) :: c.row
  }

  /** A round under way: its rows are settled, still claimed, or untouched; others may have been published. */
  ghost predicate UnderWay(start: seq<OutboxRow>, o: seq<OutboxRow>, results: Results, held: set<nat>) {
    OldestClaim(start, results.Keys + held) && results.Keys !! held && RowsUnderWay(start, o, results, held)
  }

  ghost predicate RowsUnderWay(start: seq<OutboxRow>, o: seq<OutboxRow>, results: Results, held: set<nat>) {
    && |start| <= |o|
    && forall i :: 0 <= i < |start| ==>
         o[i] == if i in results then Settle(start[i], results[i])
                 else if i in held then ClaimRow(start[i]) else start[i]
  }

  function Last(h: Log): seq<OutboxRow>
    requires |h.tables| > 0
  {
    h.tables[|h.tables| - 1]
  }

  /** Nothing has been published since a table of n rows, or only what the traffic allows. */
  ghost predicate Fits(o: seq<OutboxRow>, n: nat, traffic: Traffic) {
    && n <= |o|
    && (traffic.Quiet? ==> |o| == n)
    && (traffic.After? ==> RowsNewer(o, n, traffic.instant))
  }

  ghost predicate TablesLogged(base: seq<OutboxRow>, tables: seq<seq<OutboxRow>>, rounds: seq<Results>,
                               traffic: Traffic)
  {
    && IsHistory(tables, rounds, true)
    && base <= tables[0]
    && forall k :: 0 <= k < |tables| ==> IsTable(tables[k], |base|, traffic)
  }

  ghost predicate IsTable(o: seq<OutboxRow>, n: nat, traffic: Traffic) {
    Fits(o, n, traffic) && NoneStranded(o)
  }

  /** The log fits a table, and the rows held by the round under way, if there is one. */
  ghost predicate Record(base: seq<OutboxRow>, h: Log, o: seq<OutboxRow>, held: Option<set<nat>>, traffic: Traffic) {
    && TablesLogged(base, h.tables, h.rounds, traffic)
    && Fits(o, |base|, traffic)
    && (held.None? ==> Last(h) == o)
    && (held.Some? ==> UnderWay(Last(h), o, h.results, held.value))
  }

  function HeldBy(s: State, w: WorkerId): Option<set<nat>> {
    if w in s.rounds then Some(HeldRows(s.rounds[w])) else None
  }

  ghost predicate Logged(base: seq<OutboxRow>, h: Log, s: State, w: WorkerId, traffic: Traffic) {
    Inv(s) && s.rounds.Keys <= {w} && Record(base, h, s.outbox, HeldBy(s, w), traffic)
  }

  // ---------- Each action extends the log ----------

  lemma LastGrows(base: seq<OutboxRow>, tables: seq<seq<OutboxRow>>, rounds: seq<Results>, traffic: Traffic,
                  o: seq<OutboxRow>)
    requires TablesLogged(base, tables, rounds, traffic)
    requires tables[|rounds|] <= o && IsTable(o, |base|, traffic)
    ensures TablesLogged(base, tables[|rounds| := o], rounds, traffic)
  {
  }

  lemma TablesExtend(base: seq<OutboxRow>, tables: seq<seq<OutboxRow>>, rounds: seq<Results>, traffic: Traffic,
                     results: Results, o: seq<OutboxRow>)
    requires TablesLogged(base, tables, rounds, traffic) && IsTable(o, |base|, traffic)
    requires OldestClaim(tables[|rounds|], results.Keys) && AfterRound(tables[|rounds|], results) <= o
    ensures TablesLogged(base, tables + [o], rounds + [results], traffic)
  {
    HistoryExtends(tables, rounds, true, results, o);
    assert (tables + [o])[0] == tables[0];
  }

  lemma RecordPublish(base: seq<OutboxRow>, h: Log, o: seq<OutboxRow>, held: Option<set<nat>>, traffic: Traffic,
                      event: Event, at: Time) returns (h': Log)
    requires Record(base, h, o, held, traffic) && traffic.Allows(at) && NoneStranded(o)
    ensures Record(base, h', o + [NewRow(event, at)], held, traffic)
    ensures h'.rounds == h.rounds && h'.results == h.results
  {
    var o' := o + [NewRow(event, at)];
    PublishFits(o, |base|, traffic, event, at);
    if held.Some? {
      h' := h;
    } else {
      LastGrows(base, h.tables, h.rounds, traffic, o');
      h' := h.(tables := h.tables[|h.rounds| := o']);
    }
  }

  lemma PublishFits(o: seq<OutboxRow>, n: nat, traffic: Traffic, event: Event, at: Time)
    requires Fits(o, n, traffic) && traffic.Allows(at)
    ensures Fits(o + [NewRow(event, at)], n, traffic)
    ensures NoneStranded(o) ==> NoneStranded(o + [NewRow(event, at)])
  {
  }

  lemma ClaimedRowsAreHeld(o: seq<OutboxRow>, rows: seq<nat>)
    requires CanClaim(o, rows)
    ensures var queue := Scan(ClaimRows(o, rows), rows, {});
            HeldRows(Round(None, queue)) == RowSet(rows) && (queue == [] <==> RowSet(rows) == {})
  {
    var queue := Scan(ClaimRows(o, rows), rows, {});
    Refinement.ClaimedAreQueued(o, rows);
    forall i
      ensures i in HeldRows(Round(None, queue)) <==> i in rows
    {
      if i in rows {
        var k :| 0 <= k < |queue| && queue[k].row == i;
        assert queue[k] in Held(Round(None, queue));
      }
    }
    if queue != [] {
      assert queue[0] in queue;
    }
  }

  lemma RecordClaim(base: seq<OutboxRow>, h: Log, o: seq<OutboxRow>, traffic: Traffic, rows: seq<nat>)
      returns (h': Log)
    requires Record(base, h, o, None, traffic) && OldestClaim(o, RowSet(rows))
    ensures if RowSet(rows) == {}
            then Record(base, h', ClaimRows(o, rows), None, traffic) && h'.rounds == h.rounds + [map[]]
            else Record(base, h', ClaimRows(o, rows), Some(RowSet(rows)), traffic) &&
                 h'.rounds == h.rounds && h'.results == map[]
  {
    ClaimFits(o, |base|, traffic, rows);
    ClaimIsUnderWay(o, rows);
    if RowSet(rows) == {} {
      EmptyClaim(o, rows);
      assert IsTable(Last(h), |base|, traffic);
      h' := RecordEnd(base, h, o, traffic, map[]);
    } else {
      h' := RecordOn(base, h, ClaimRows(o, rows), traffic, map[], RowSet(rows));
    }
  }

  lemma EmptyClaim(o: seq<OutboxRow>, rows: seq<nat>)
    requires RowSet(rows) == {}
    ensures ClaimRows(o, rows) == o
  {
    assert forall i :: i in rows ==> i in RowSet(rows);
  }

  lemma ClaimFits(o: seq<OutboxRow>, n: nat, traffic: Traffic, rows: seq<nat>)
    requires Fits(o, n, traffic)
    ensures Fits(ClaimRows(o, rows), n, traffic)
  {
  }

  lemma ClaimIsUnderWay(o: seq<OutboxRow>, rows: seq<nat>)
    requires OldestClaim(o, RowSet(rows))
    ensures UnderWay(o, ClaimRows(o, rows), map[], RowSet(rows))
  {
    var none: Results := map[];
    assert none.Keys + RowSet(rows) == RowSet(rows);
  }

  /** The rest of the queue holds every row but the called one. */
  lemma HeldAfterWrite(s: State, r: Round)
    requires r.called.Some? && OwnsRows(s.outbox, r) && OnRecord(s, r)
    ensures r.called.value.0.row in HeldRows(r) && StillClaimed(s.outbox, r.called.value.0)
    ensures HeldRows(Round(None, r.queue)) == HeldRows(r) - {r.called.value.0.row}
  {
    QueueIsRest(s, r);
    var rest := Round(None, r.queue);
    forall c | c in Held(rest)
      ensures c.row != r.called.value.0.row
    {
      var k :| 0 <= k < |Held(rest)| && Held(rest)[k] == c;
    }
    assert forall c :: c in Held(r) <==> c == r.called.value.0 || c in Held(rest);
  }

  lemma WriteSettles(start: seq<OutboxRow>, o: seq<OutboxRow>, results: Results, held: set<nat>, c: Claimed, ok: bool)
    requires UnderWay(start, o, results, held) && c.row in held && StillClaimed(o, c)
    ensures UnderWay(start, WriteStatus(o, c.row, NewStatus(c, ok)), results[c.row := ok], held - {c.row})
  {
    assert results[c.row := ok].Keys + (held - {c.row}) == results.Keys + held;
    RowSettles(start, o, results, held, c, ok);
  }

  lemma RowSettles(start: seq<OutboxRow>, o: seq<OutboxRow>, results: Results, held: set<nat>, c: Claimed, ok: bool)
    requires RowsUnderWay(start, o, results, held) && c.row in held && c.row !in results
    requires c.row < |start| && StillClaimed(o, c)
    ensures RowsUnderWay(start, WriteStatus(o, c.row, NewStatus(c, ok)), results[c.row := ok], held - {c.row})
  {
    assert o[c.row] == ClaimRow(start[c.row]);
  }

  lemma RecordWrite(base: seq<OutboxRow>, h: Log, o: seq<OutboxRow>, held: set<nat>, traffic: Traffic, c: Claimed,
                    ok: bool) returns (h': Log)
    requires Record(base, h, o, Some(held), traffic) && c.row in held && StillClaimed(o, c)
    requires NoneStranded(WriteStatus(o, c.row, NewStatus(c, ok)))
    ensures var o' := WriteStatus(o, c.row, NewStatus(c, ok));
            var results := h.results[c.row := ok];
            if held == {c.row} then Record(base, h', o', None, traffic) && h'.rounds == h.rounds + [results]
            else Record(base, h', o', Some(held - {c.row}), traffic) && h'.rounds == h.rounds && h'.results == results
  {
    var o' := WriteStatus(o, c.row, NewStatus(c, ok));
    var results := h.results[c.row := ok];
    WriteSettles(Last(h), o, h.results, held, c, ok);
    WriteFits(o, |base|, traffic, c.row, NewStatus(c, ok));
    if held == {c.row} {
      assert held - {c.row} == {};
      h' := RecordEnd(base, h, o', traffic, results);
    } else {
      h' := RecordOn(base, h, o', traffic, results, held - {c.row});
    }
  }

  /** The round goes on with other outcomes. */
  lemma RecordOn(base: seq<OutboxRow>, h: Log, o: seq<OutboxRow>, traffic: Traffic, results: Results, held: set<nat>)
      returns (h': Log)
    requires TablesLogged(base, h.tables, h.rounds, traffic) && Fits(o, |base|, traffic)
    requires UnderWay(Last(h), o, results, held)
    ensures Record(base, h', o, Some(held), traffic) && h'.rounds == h.rounds && h'.results == results
  {
    h' := Log(h.tables, h.rounds, results);
  }

  /** The round ends with the given outcomes. */
  lemma RecordEnd(base: seq<OutboxRow>, h: Log, o: seq<OutboxRow>, traffic: Traffic, results: Results)
      returns (h': Log)
    requires TablesLogged(base, h.tables, h.rounds, traffic) && IsTable(o, |base|, traffic)
    requires UnderWay(Last(h), o, results, {})
    ensures Record(base, h', o, None, traffic) && h'.rounds == h.rounds + [results]
  {
    RoundEnds(Last(h), o, results);
    TablesExtend(base, h.tables, h.rounds, traffic, results, o);
    h' := Log(h.tables + [o], h.rounds + [results], map[]);
  }

  lemma WriteFits(o: seq<OutboxRow>, n: nat, traffic: Traffic, i: nat, status: Status)
    requires Fits(o, n, traffic)
    ensures Fits(WriteStatus(o, i, status), n, traffic)
  {
  }

  lemma RoundEnds(start: seq<OutboxRow>, o: seq<OutboxRow>, results: Results)
    requires UnderWay(start, o, results, {})
    ensures OldestClaim(start, results.Keys) && AfterRound(start, results) <= o
  {
    assert results.Keys + {} == results.Keys;
    assert AfterRound(start, results) == o[..|start|];
  }

  // ---------- Handler calls ----------

  ghost predicate CalledSince(s0: State, s: State, i: nat) {
    i < |s0.calls| && i < |s.calls| ==> s0.calls[i] < s.calls[i]
  }

  ghost predicate CallsGrow(s0: State, s: State) {
    |s0.calls| <= |s.calls| && forall i :: 0 <= i < |s0.calls| ==> s0.calls[i] <= s.calls[i]
  }

  ghost predicate ResultsCalled(s0: State, s: State, results: Results) {
    forall i :: i in results ==> CalledSince(s0, s, i)
  }

  /** Every row on record in the log, or called and not yet written, has been called since s0. */
  ghost predicate CallsLogged(s0: State, h: Log, s: State, w: WorkerId) {
    && CallsGrow(s0, s)
    && (forall k :: 0 <= k < |h.rounds| ==> ResultsCalled(s0, s, h.rounds[k]))
    && (w in s.rounds ==> ResultsCalled(s0, s, h.results))
    && (w in s.rounds && s.rounds[w].called.Some? ==> CalledSince(s0, s, s.rounds[w].called.value.0.row))
  }

  lemma CallsOnlyGrow(s0: State, s: State, s': State, results: Results)
    requires CallsGrow(s0, s) && CallsGrow(s, s') && ResultsCalled(s0, s, results)
    ensures ResultsCalled(s0, s', results)
  {
  }

  lemma CallIsLogged(s0: State, h: Log, s: State, w: WorkerId, ok: bool)
    requires Inv(s) && CallsLogged(s0, h, s, w)
    requires w in s.rounds && s.rounds[w].called == None && s.rounds[w].queue != []
    ensures CallsLogged(s0, h, Step(s, Call(w, ok)), w)
  {
    var s' := Step(s, Call(w, ok));
    Refinement.CallEnters(s, w, ok);
    CallCounts(s, w, ok);
    forall k | 0 <= k < |h.rounds|
      ensures ResultsCalled(s0, s', h.rounds[k])
    {
      CallsOnlyGrow(s0, s, s', h.rounds[k]);
    }
    CallsOnlyGrow(s0, s, s', h.results);
  }

  lemma CallCounts(s: State, w: WorkerId, ok: bool)
    requires Inv(s) && w in s.rounds && s.rounds[w].called == None && s.rounds[w].queue != []
    ensures var s' := Step(s, Call(w, ok)); CallsGrow(s, s') && CalledSince(s, s', s.rounds[w].queue[0].row)
  {
    Refinement.CallEnters(s, w, ok);
    assert Step(s, Call(w, ok)) == CallStep(s, w, s.rounds[w], ok);
  }

  // ---------- Whole runs ----------

  function Started(h: Log, s: State, w: WorkerId): nat {
    |h.rounds| + if w in s.rounds then 1 else 0
  }

  lemma CallsStay(s0: State, h: Log, h': Log, s: State, s': State, w: WorkerId)
    requires CallsLogged(s0, h, s, w) && CallsGrow(s, s') && h'.rounds == h.rounds
    requires w in s'.rounds ==> w in s.rounds && s'.rounds[w] == s.rounds[w] && h'.results == h.results
    ensures CallsLogged(s0, h', s', w)
  {
    forall k | 0 <= k < |h'.rounds|
      ensures ResultsCalled(s0, s', h'.rounds[k])
    {
      CallsOnlyGrow(s0, s, s', h.rounds[k]);
    }
    if w in s'.rounds {
      CallsOnlyGrow(s0, s, s', h.results);
    }
  }

  /** Without a call: the round in progress, if any, has the given outcomes and nothing called; or it has ended. */
  lemma CallsRecorded(s0: State, h: Log, h': Log, s: State, s': State, w: WorkerId, results: Results)
    requires CallsLogged(s0, h, s, w) && s'.calls == s.calls && ResultsCalled(s0, s, results)
    requires if w in s'.rounds then h'.rounds == h.rounds && h'.results == results && s'.rounds[w].called == None
             else h'.rounds == h.rounds + [results]
    ensures CallsLogged(s0, h', s', w)
  {
    assert ResultsCalled(s0, s', results);
    forall k | 0 <= k < |h'.rounds|
      ensures ResultsCalled(s0, s', h'.rounds[k])
    {
      if k < |h.rounds| {
        CallsOnlyGrow(s0, s, s', h.rounds[k]);
      }
    }
  }

  lemma LogClaimStep(s0: State, h: Log, s: State, w: WorkerId, traffic: Traffic, rows: seq<nat>) returns (h': Log)
    requires Logged(s0.outbox, h, s, w, traffic) && CallsLogged(s0, h, s, w)
    requires Starts(s, Claim(w, rows, {})) && OldestClaim(s.outbox, RowSet(rows))
    ensures var s' := Step(s, Claim(w, rows, {}));
            && Logged(s0.outbox, h', s', w, traffic) && CallsLogged(s0, h', s', w)
            && Started(h', s', w) == Started(h, s, w) + 1
  {
    var s' := Step(s, Claim(w, rows, {}));
    Refinement.ClaimEnters(s, w, rows);
    ClaimedRowsAreHeld(s.outbox, rows);
    h' := RecordClaim(s0.outbox, h, s.outbox, traffic, rows);
    CallsRecorded(s0, h, h', s, s', w, map[]);
  }

  lemma LogWriteStep(s0: State, h: Log, s: State, w: WorkerId, traffic: Traffic) returns (h': Log)
    requires Logged(s0.outbox, h, s, w, traffic) && CallsLogged(s0, h, s, w)
    requires w in s.rounds && s.rounds[w].called.Some?
    ensures var s' := Step(s, Write(w, true));
            && Logged(s0.outbox, h', s', w, traffic) && CallsLogged(s0, h', s', w)
            && Started(h', s', w) == Started(h, s, w)
  {
    h' := LogWrite(s0.outbox, h, s, w, traffic);
    Refinement.WriteLeaves(s, w);
    WriteIsLogged(s0, h, h', s, w);
  }

  lemma LogWrite(base: seq<OutboxRow>, h: Log, s: State, w: WorkerId, traffic: Traffic) returns (h': Log)
    requires Logged(base, h, s, w, traffic) && w in s.rounds && s.rounds[w].called.Some?
    ensures var s' := Step(s, Write(w, true));
            var (c, ok) := s.rounds[w].called.value;
            && Logged(base, h', s', w, traffic)
            && (if w in s'.rounds then h'.rounds == h.rounds && h'.results == h.results[c.row := ok]
                else h'.rounds == h.rounds + [h.results[c.row := ok]])
  {
    var r := s.rounds[w];
    var (c, ok) := r.called.value;
    Refinement.WriteLeaves(s, w);
    Refinement.ReachableIsUnstranded(Step(s, Write(w, true)));
    HeldAfterWrite(s, r);
    h' := RecordWrite(base, h, s.outbox, HeldRows(r), traffic, c, ok);
    LastHeld(r);
  }

  /** The round ends with its queue. */
  lemma LastHeld(r: Round)
    requires r.called.Some? && HeldRows(Round(None, r.queue)) == HeldRows(r) - {r.called.value.0.row}
    requires r.called.value.0.row in HeldRows(r)
    ensures r.queue == [] <==> HeldRows(r) == {r.called.value.0.row}
  {
    var rest := Round(None, r.queue);
    if r.queue != [] {
      assert r.queue[0] in Held(rest) && r.queue[0].row in HeldRows(rest);
    } else {
      assert HeldRows(rest) == {};
    }
  }

  lemma WriteIsLogged(s0: State, h: Log, h': Log, s: State, w: WorkerId)
    requires Sized(s) && CallsLogged(s0, h, s, w) && w in s.rounds && s.rounds[w].called.Some?
    requires var s' := Step(s, Write(w, true));
             var (c, ok) := s.rounds[w].called.value;
             if w in s'.rounds then h'.rounds == h.rounds && h'.results == h.results[c.row := ok]
             else h'.rounds == h.rounds + [h.results[c.row := ok]]
    ensures CallsLogged(s0, h', Step(s, Write(w, true)), w)
  {
    var (c, ok) := s.rounds[w].called.value;
    assert Step(s, Write(w, true)) == WriteStep(s, w, s.rounds[w], true);
    CallsRecorded(s0, h, h', s, Step(s, Write(w, true)), w, h.results[c.row := ok]);
  }

  lemma LogPublishStep(s0: State, h: Log, s: State, w: WorkerId, traffic: Traffic, event: Event, at: Time)
      returns (h': Log)
    requires Logged(s0.outbox, h, s, w, traffic) && CallsLogged(s0, h, s, w) && traffic.Allows(at)
    ensures var s' := Step(s, Publish(event, at));
            && Logged(s0.outbox, h', s', w, traffic) && CallsLogged(s0, h', s', w)
            && Started(h', s', w) == Started(h, s, w)
  {
    StepKeepsInv(s, Publish(event, at));
    Refinement.ReachableIsUnstranded(s);
    h' := RecordPublish(s0.outbox, h, s.outbox, HeldBy(s, w), traffic, event, at);
    CallsStay(s0, h, h', s, Step(s, Publish(event, at)), w);
  }

  lemma LogCallStep(s0: State, h: Log, s: State, w: WorkerId, traffic: Traffic, ok: bool)
    requires Logged(s0.outbox, h, s, w, traffic) && CallsLogged(s0, h, s, w)
    requires w in s.rounds && s.rounds[w].called == None && s.rounds[w].queue != []
    ensures var s' := Step(s, Call(w, ok));
            && Logged(s0.outbox, h, s', w, traffic) && CallsLogged(s0, h, s', w)
            && Started(h, s', w) == Started(h, s, w)
  {
    Refinement.CallEnters(s, w, ok);
    CallKeepsHeld(s.rounds[w], ok);
    CallIsLogged(s0, h, s, w, ok);
  }

  lemma CallKeepsHeld(r: Round, ok: bool)
    requires r.called == None && r.queue != []
    ensures HeldRows(Round(Some((r.queue[0], ok)), r.queue[1..])) == HeldRows(r)
  {
    assert Held(Round(Some((r.queue[0], ok)), r.queue[1..])) == Held(r);
  }

  lemma LogStep(s0: State, h: Log, s: State, w: WorkerId, traffic: Traffic, a: Action) returns (h': Log)
    requires Logged(s0.outbox, h, s, w, traffic) && CallsLogged(s0, h, s, w) && Solo(s, a, w, traffic)
    ensures Logged(s0.outbox, h', Step(s, a), w, traffic) && CallsLogged(s0, h', Step(s, a), w)
    ensures Started(h', Step(s, a), w) == Started(h, s, w) + if Starts(s, a) then 1 else 0
  {
    match a
    case Publish(event, at) =>
      h' := LogPublishStep(s0, h, s, w, traffic, event, at);
    case Claim(_, rows, _) =>
      if Starts(s, a) {
        h' := LogClaimStep(s0, h, s, w, traffic, rows);
      } else {
        h' := h;
      }
    case Call(_, ok) =>
      h' := h;
      if w in s.rounds && s.rounds[w].called == None && s.rounds[w].queue != [] {
        LogCallStep(s0, h, s, w, traffic, ok);
      }
    case Write(_, _) =>
      if w in s.rounds && s.rounds[w].called.Some? {
        h' := LogWriteStep(s0, h, s, w, traffic);
      } else {
        h' := h;
      }
  }

  lemma {:induction false} LogRun(s0: State, h: Log, s: State, w: WorkerId, traffic: Traffic,
                                  actions: seq<Action>) returns (h': Log)
    requires Logged(s0.outbox, h, s, w, traffic) && CallsLogged(s0, h, s, w) && IsSolo(s, actions, w, traffic)
    ensures Logged(s0.outbox, h', Run(s, actions), w, traffic) && CallsLogged(s0, h', Run(s, actions), w)
    ensures Started(h', Run(s, actions), w) == Started(h, s, w) + Rounds(s, actions)
    decreases |actions|
  {
    h' := h;
    if actions != [] {
      h' := LogStep(s0, h, s, w, traffic, actions[0]);
      h' := LogRun(s0, h', Step(s, actions[0]), w, traffic, actions[1..]);
    }
  }

  /** Every run of a single crash-free poller, with publications anywhere, is a history of rounds: one for each
      claim, each an oldest claim of the table it found, and every row on record has had its handler called. */
  lemma SoloRunIsHistory(s: State, actions: seq<Action>, w: WorkerId, traffic: Traffic) returns (h: Log)
    requires Inv(s) && s.rounds == map[] && IsSolo(s, actions, w, traffic) && w !in Run(s, actions).rounds
    ensures IsHistory(h.tables, h.rounds, true) && AllUnstranded(h.tables)
    ensures |h.rounds| == Rounds(s, actions)
    ensures Last(h) == Run(s, actions).outbox
    ensures forall k :: 0 <= k < |h.tables| ==> Fits(h.tables[k], |s.outbox|, traffic)
    ensures CallsLogged(s, h, Run(s, actions), w)
    ensures s.outbox <= h.tables[0]
  {
    h := Log([s.outbox], [], map[]);
    Refinement.ReachableIsUnstranded(s);
    h := LogRun(s, h, s, w, traffic, actions);
  }

  lemma NewerRowsOweNothing(o: seq<OutboxRow>, o': seq<OutboxRow>, e: nat)
    requires e < |o| && o <= o' && RowsNewer(o', |o|, o[e].createdAt)
    ensures ElderDebt(o', e) == ElderDebt(o, e)
  {
    ElderDebtSplits(o, o', e);
    TotalZeros(LateDebts(o', |o|, o[e].createdAt));
  }

  /** Bounded wait, of the machine: while every publication, at whatever moment, is strictly newer than a pending
      event, floor(P / 50) + 1 rounds of a single crash-free poller have called its handler, P being the attempts
      owed to the rows not newer than it. */
  lemma SoloBoundedWait(s: State, actions: seq<Action>, w: WorkerId, e: nat)
    requires Inv(s) && s.rounds == map[] && e < |s.outbox| && s.outbox[e].status == Pending
    requires IsSolo(s, actions, w, After(s.outbox[e].createdAt)) && w !in Run(s, actions).rounds
    requires Rounds(s, actions) >= ElderDebt(s.outbox, e) / CLAIM_LIMIT + 1
    ensures Run(s, actions).calls[e] > s.calls[e]
  {
    var t := s.outbox[e].createdAt;
    var h := SoloRunIsHistory(s, actions, w, After(t));
    assert Fits(h.tables[0], |s.outbox|, After(t));
    NewerRowsOweNothing(s.outbox, h.tables[0], e);
    FitsMeansNewer(h.tables, |s.outbox|, t);
    BoundedWait(h.tables, h.rounds, e);
    var k :| 0 <= k < |h.rounds| && e in h.rounds[k];
    assert ResultsCalled(s, Run(s, actions), h.rounds[k]);
  }

  lemma FitsMeansNewer(tables: seq<seq<OutboxRow>>, n: nat, t: Time)
    requires forall k :: 0 <= k < |tables| ==> Fits(tables[k], n, After(t))
    ensures ArrivalsNewer(tables, t)
  {
    forall k | 1 <= k < |tables|
      ensures RowsNewer(tables[k], |tables[k - 1]|, t)
    {
      assert Fits(tables[k], n, After(t)) && Fits(tables[k - 1], n, After(t));
    }
  }

  /** Draining, of the machine: without publications, as many rounds of a single crash-free poller as the table owes
      attempts leave every row done or failed. */
  lemma SoloDrain(s: State, actions: seq<Action>, w: WorkerId)
    requires Inv(s) && s.rounds == map[] && NoneProcessing(s.outbox)
    requires IsSolo(s, actions, w, Quiet) && w !in Run(s, actions).rounds
    requires Rounds(s, actions) >= Debt(s.outbox)
    ensures Finished(Run(s, actions).outbox)
  {
    var h := SoloRunIsHistory(s, actions, w, Quiet);
    assert Fits(h.tables[0], |s.outbox|, Quiet) && h.tables[0] == s.outbox;
    forall k | 0 <= k < |h.rounds|
      ensures h.tables[k + 1] == AfterRound(h.tables[k], h.rounds[k])
    {
      assert Fits(h.tables[k], |s.outbox|, Quiet) && Fits(h.tables[k + 1], |s.outbox|, Quiet);
    }
    DrainTerminates(h.tables, h.rounds);
  }
}
