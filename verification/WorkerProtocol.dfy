/** Any number of outbox workers and publishers over one outbox table: claims, handler calls, status writes,
    lost writes, scan errors and crashes, interleaved in every possible way. */
module WorkerProtocol {
  import opened Kernel
  import opened Outbox

  type WorkerId = nat

  const CLAIM_LIMIT := 50

  /** A claimed event as RETURNING reported it; the row's position is its id. */
  datatype Claimed = Claimed(row: nat, attempts: int, maxAttempts: int)

  /** A worker in the middle of a round: the event whose handler returned but whose status is not yet written,
      and the events still to be handled. */
  datatype Round = Round(called: Option<(Claimed, bool)>, queue: seq<Claimed>)

  /** The table, the workers in a round, and (history only) per row the handler calls made and their successes. */
  datatype State = State(outbox: seq<OutboxRow>, rounds: map<WorkerId, Round>, calls: seq<nat>, successes: seq<nat>)

  datatype Action =
    | Publish(event: Event, at: Time)
    | Claim(w: WorkerId, rows: seq<nat>, unscanned: set<nat>)
    | Call(w: WorkerId, ok: bool)
    | Write(w: WorkerId, delivered: bool)
    | Crash(w: WorkerId)

  const INITIAL := State([], map[], [], [])

  predicate Eligible(r: OutboxRow) {
    r.status == Pending && r.attempts < r.maxAttempts
  }

  /** The claim statement's choice: at most 50 distinct eligible rows. SKIP LOCKED may pass over any row, so any
      such choice is possible when several workers are running. */
  predicate CanClaim(o: seq<OutboxRow>, rows: seq<nat>) {
    && |rows| <= CLAIM_LIMIT
    && (forall k :: 0 <= k < |rows| ==> rows[k] < |o| && Eligible(o[rows[k]]))
    && (forall k, l :: 0 <= k < l < |rows| ==> rows[k] != rows[l])
  }

  function RowSet(rows: seq<nat>): (ids: set<nat>)
    ensures forall i :: i in ids <==> i in rows
  {
    set i | i in rows
  }

  function ClaimRow(r: OutboxRow): OutboxRow {
    r.(status := Processing, attempts := r.attempts + 1)
  }

  function ClaimRows(o: seq<OutboxRow>, rows: seq<nat>): (o': seq<OutboxRow>)
    ensures |o'| == |o|
    ensures forall i :: 0 <= i < |o| ==> o'[i] == if i in rows then ClaimRow(o[i]) else o[i]
  {
    seq(|o|, i requires 0 <= i < |o| => if i in rows then ClaimRow(o[i]) else o[i])
  }

  /** The rows the scan loop appends: those whose Scan did not fail. */
  function Scan(o: seq<OutboxRow>, rows: seq<nat>, unscanned: set<nat>): (queue: seq<Claimed>)
    requires forall k :: 0 <= k < |rows| ==> rows[k] < |o|
    requires forall k, l :: 0 <= k < l < |rows| ==> rows[k] != rows[l]
    ensures forall c :: c in queue ==> c.row in rows && c.row !in unscanned && c == ToClaimed(o, c.row)
    ensures forall k :: 0 <= k < |rows| && rows[k] !in unscanned ==> ToClaimed(o, rows[k]) in queue
    ensures forall k, l :: 0 <= k < l < |queue| ==> queue[k].row != queue[l].row
  {
    if rows == [] then []
    else
      var init := Scan(o, rows[..|rows| - 1], unscanned);
      var last := rows[|rows| - 1];
      if last in unscanned then init else init + [ToClaimed(o, last)]
  }

  function ToClaimed(o: seq<OutboxRow>, i: nat): Claimed
    requires i < |o|
  {
    Claimed(i, o[i].attempts, o[i].maxAttempts)
  }

  /** The status written after a handler call. */
  function NewStatus(c: Claimed, ok: bool): Status {
    if ok then Done else if c.attempts >= c.maxAttempts then Failed else Pending
  }

  /** UPDATE outbox_events SET status = ... WHERE id = ...: no guard on the row's present status. */
  function WriteStatus(o: seq<OutboxRow>, i: nat, status: Status): (o': seq<OutboxRow>)
    ensures |o'| == |o|
  {
    if i < |o| then o[i := o[i].(status := status)] else o
  }

  function CallStep(s: State, w: WorkerId, r: Round, ok: bool): (s': State)
    requires r.queue != [] && |s.calls| == |s.successes| == |s.outbox|
    ensures s'.outbox == s.outbox && |s'.calls| == |s'.successes| == |s'.outbox|
  {
    var c := r.queue[0];
    if c.row >= |s.outbox| then s
    else
      s.(rounds := s.rounds[w := Round(Some((c, ok)), r.queue[1..])],
         calls := s.calls[c.row := s.calls[c.row] + 1],
         successes := if ok then s.successes[c.row := s.successes[c.row] + 1] else s.successes)
  }

  /** A round ends when nothing is left to handle. */
  function Resume(s: State, w: WorkerId, queue: seq<Claimed>): (s': State)
    ensures s'.outbox == s.outbox && s'.calls == s.calls && s'.successes == s.successes
  {
    if queue == [] then s.(rounds := s.rounds - {w}) else s.(rounds := s.rounds[w := Round(None, queue)])
  }

  function ClaimStep(s: State, w: WorkerId, rows: seq<nat>, unscanned: set<nat>): (s': State)
    requires CanClaim(s.outbox, rows)
    ensures |s'.outbox| == |s.outbox| && s'.calls == s.calls && s'.successes == s.successes
  {
    var o := ClaimRows(s.outbox, rows);
    Resume(s.(outbox := o), w, Scan(o, rows, unscanned))
  }

  function WriteStep(s: State, w: WorkerId, r: Round, delivered: bool): (s': State)
    requires r.called.Some?
    ensures |s'.outbox| == |s.outbox| && s'.calls == s.calls && s'.successes == s.successes
  {
    var (c, ok) := r.called.value;
    var o := if delivered then WriteStatus(s.outbox, c.row, NewStatus(c, ok)) else s.outbox;
    Resume(s.(outbox := o), w, r.queue)
  }

  /** The action is a claim that starts a round. */
  predicate Starts(s: State, a: Action) {
    a.Claim? && a.w !in s.rounds && CanClaim(s.outbox, a.rows)
  }

  /** One atomic step; an action that is not enabled changes nothing. */
  function Step(s: State, a: Action): (s': State)
    requires |s.calls| == |s.successes| == |s.outbox|
    ensures |s'.calls| == |s'.successes| == |s'.outbox|
    ensures |s.outbox| <= |s'.outbox|
  {
    match a
    case Publish(event, at) =>
      s.(outbox := s.outbox + [NewRow(event, at)], calls := s.calls + [0], successes := s.successes + [0])
    case Claim(w, rows, unscanned) =>
      if w !in s.rounds && CanClaim(s.outbox, rows) then ClaimStep(s, w, rows, unscanned) else s
    case Call(w, ok) =>
      if w in s.rounds && s.rounds[w].called == None && s.rounds[w].queue != []
      then CallStep(s, w, s.rounds[w], ok)
      else s
    case Write(w, delivered) =>
      if w in s.rounds && s.rounds[w].called.Some? then WriteStep(s, w, s.rounds[w], delivered) else s
    case Crash(w) => s.(rounds := s.rounds - {w})
  }

  function Run(s: State, actions: seq<Action>): (s': State)
    requires |s.calls| == |s.successes| == |s.outbox|
    ensures |s'.calls| == |s'.successes| == |s'.outbox|
    ensures |s.outbox| <= |s'.outbox|
    decreases |actions|
  {
    if actions == [] then s else Run(Step(s, actions[0]), actions[1..])
  }

  // ---------- The invariant ----------

  /** The events a worker answers for, the one just called first. */
  function Held(r: Round): seq<Claimed> {
    match r.called
    case None => r.queue
    case Some((c, _)) => [c] + r.queue
  }

  /** A held event's row is exactly as the claim left it, and no event is held twice. */
  ghost predicate OwnsRows(o: seq<OutboxRow>, r: Round) {
    && (forall k :: 0 <= k < |Held(r)| ==> StillClaimed(o, Held(r)[k]))
    && (forall k, l :: 0 <= k < l < |Held(r)| ==> Held(r)[k].row != Held(r)[l].row)
  }

  ghost predicate StillClaimed(o: seq<OutboxRow>, c: Claimed) {
    c.row < |o| && o[c.row].status == Processing &&
    o[c.row].attempts == c.attempts && o[c.row].maxAttempts == c.maxAttempts
  }

  ghost predicate Disjoint(a: Round, b: Round) {
    forall k, l :: 0 <= k < |Held(a)| && 0 <= l < |Held(b)| ==> Held(a)[k].row != Held(b)[l].row
  }

  /** The row's columns agree with each other and with its history. */
  ghost predicate RowOk(r: OutboxRow, calls: nat, successes: nat) {
    && calls <= r.attempts <= r.maxAttempts && 1 <= r.maxAttempts
    && (r.status == Pending ==> r.attempts < r.maxAttempts && successes == 0)
    && (r.status == Failed ==> r.attempts == r.maxAttempts && successes == 0)
    && (r.status == Done ==> successes == 1)
    && successes <= 1
  }

  /** Queued events are not yet handled; the called event's result is on record. */
  ghost predicate OnRecord(s: State, r: Round) {
    && (forall k :: 0 <= k < |r.queue| && r.queue[k].row < |s.calls| && r.queue[k].row < |s.successes| ==>
          s.calls[r.queue[k].row] < r.queue[k].attempts && s.successes[r.queue[k].row] == 0)
    && (r.called.Some? && r.called.value.0.row < |s.successes| ==>
          s.successes[r.called.value.0.row] == if r.called.value.1 then 1 else 0)
  }

  ghost predicate Sized(s: State) {
    |s.calls| == |s.successes| == |s.outbox|
  }

  ghost predicate Inv(s: State) {
    && Sized(s)
    && (forall i :: 0 <= i < |s.outbox| ==> RowOk(s.outbox[i], s.calls[i], s.successes[i]))
    && (forall w :: w in s.rounds ==> OwnsRows(s.outbox, s.rounds[w]) && OnRecord(s, s.rounds[w]))
    && (forall v, w :: v in s.rounds && w in s.rounds && v != w ==> Disjoint(s.rounds[v], s.rounds[w]))
  }

  // ---------- Every step keeps it ----------

  /** Rows that a round holds are untouched, and so is their history. */
  ghost predicate Undisturbed(s: State, s': State, r: Round) {
    Sized(s) && Sized(s') && |s.outbox| <= |s'.outbox| &&
    forall k :: 0 <= k < |Held(r)| && Held(r)[k].row < |s.outbox| ==>
      var i := Held(r)[k].row;
      s'.outbox[i] == s.outbox[i] && s'.calls[i] == s.calls[i] && s'.successes[i] == s.successes[i]
  }

  lemma RoundSurvives(s: State, s': State, r: Round)
    requires Undisturbed(s, s', r) && OwnsRows(s.outbox, r) && OnRecord(s, r)
    ensures OwnsRows(s'.outbox, r) && OnRecord(s', r)
  {
    forall k | 0 <= k < |r.queue|
      ensures StillClaimed(s.outbox, r.queue[k]) && s'.calls[r.queue[k].row] == s.calls[r.queue[k].row]
      ensures s'.successes[r.queue[k].row] == s.successes[r.queue[k].row]
    {
      assert Held(r)[if r.called == None then k else k + 1] == r.queue[k];
    }
    if r.called.Some? {
      assert Held(r)[0] == r.called.value.0;
    }
  }

  /** If one worker's round changes, the rows of the others do not, and its new round is sound, then all is. */
  lemma OthersSurvive(s: State, s': State, w: WorkerId)
    requires Inv(s) && Sized(s')
    requires forall i :: 0 <= i < |s'.outbox| ==> RowOk(s'.outbox[i], s'.calls[i], s'.successes[i])
    requires forall v :: v in s'.rounds && v != w ==> v in s.rounds && s'.rounds[v] == s.rounds[v] &&
                                                       Undisturbed(s, s', s.rounds[v])
    requires w in s'.rounds ==> OwnsRows(s'.outbox, s'.rounds[w]) && OnRecord(s', s'.rounds[w])
    requires forall v :: w in s'.rounds && v in s'.rounds && v != w ==>
               Disjoint(s'.rounds[v], s'.rounds[w]) && Disjoint(s'.rounds[w], s'.rounds[v])
    ensures Inv(s')
  {
    forall v | v in s'.rounds && v != w
      ensures OwnsRows(s'.outbox, s'.rounds[v]) && OnRecord(s', s'.rounds[v])
    {
      RoundSurvives(s, s', s.rounds[v]);
    }
  }

  lemma ClaimKeepsInv(s: State, w: WorkerId, rows: seq<nat>, unscanned: set<nat>)
    requires Inv(s) && w !in s.rounds && CanClaim(s.outbox, rows)
    ensures Inv(ClaimStep(s, w, rows, unscanned))
  {
    var s' := ClaimStep(s, w, rows, unscanned);
    var queue := Scan(s'.outbox, rows, unscanned);
    assert Held(Round(None, queue)) == queue;
    forall k | 0 <= k < |queue|
      ensures queue[k].row in rows && StillClaimed(s'.outbox, queue[k])
      ensures s.outbox[queue[k].row].status == Pending
    {
      assert queue[k] in queue;
    }
    forall v | v in s.rounds
      ensures Undisturbed(s, s', s.rounds[v])
    {
      forall k | 0 <= k < |Held(s.rounds[v])|
        ensures Held(s.rounds[v])[k].row !in rows
      {
        assert StillClaimed(s.outbox, Held(s.rounds[v])[k]);
      }
    }
    forall v, k, l | v in s.rounds && 0 <= k < |Held(s.rounds[v])| && 0 <= l < |queue|
      ensures Held(s.rounds[v])[k].row != queue[l].row
    {
      assert StillClaimed(s.outbox, Held(s.rounds[v])[k]);
    }
    OthersSurvive(s, s', w);
  }

  lemma CallKeepsInv(s: State, w: WorkerId, ok: bool)
    requires Inv(s) && w in s.rounds && s.rounds[w].called == None && s.rounds[w].queue != []
    ensures Inv(CallStep(s, w, s.rounds[w], ok))
  {
    var s' := CallStep(s, w, s.rounds[w], ok);
    var r, r' := s.rounds[w], s'.rounds[w];
    var c := r.queue[0];
    assert StillClaimed(s.outbox, Held(r)[0]);
    assert Held(r') == Held(r);
    forall k | 0 <= k < |r'.queue|
      ensures r'.queue[k] == Held(r)[k + 1] && r'.queue[k].row != c.row
    {
    }
    forall v | v in s.rounds && v != w
      ensures Undisturbed(s, s', s.rounds[v])
    {
      assert Disjoint(s.rounds[v], r);
    }
    OthersSurvive(s, s', w);
  }

  /** Dropping the called event leaves the queue, held as before. */
  lemma QueueIsRest(s: State, r: Round)
    requires r.called.Some? && OwnsRows(s.outbox, r) && OnRecord(s, r)
    ensures var rest := Round(None, r.queue);
            && Held(r) == [r.called.value.0] + Held(rest)
            && OwnsRows(s.outbox, rest) && OnRecord(s, rest)
            && StillClaimed(s.outbox, r.called.value.0)
            && forall k :: 0 <= k < |Held(rest)| ==> Held(rest)[k].row != r.called.value.0.row
  {
    assert Held(r)[0] == r.called.value.0;
    assert forall k :: 0 <= k < |r.queue| ==> r.queue[k] == Held(r)[k + 1];
  }

  lemma WrittenRowIsOk(s: State, w: WorkerId)
    requires Inv(s) && w in s.rounds && s.rounds[w].called.Some?
    ensures var (c, ok) := s.rounds[w].called.value;
            && c.row < |s.outbox|
            && RowOk(s.outbox[c.row].(status := NewStatus(c, ok)), s.calls[c.row], s.successes[c.row])
  {
    QueueIsRest(s, s.rounds[w]);
  }

  /** A round that meets none of another's events meets neither its called event nor the rest of its queue. */
  lemma DisjointFromParts(q: Round, r: Round)
    requires r.called.Some? && Disjoint(q, r)
    ensures Disjoint(q, Round(None, r.queue)) && Disjoint(Round(None, r.queue), q)
    ensures forall k :: 0 <= k < |Held(q)| ==> Held(q)[k].row != r.called.value.0.row
  {
    assert Held(r)[0] == r.called.value.0;
    assert Held(Round(None, r.queue)) == r.queue;
    forall k, l | 0 <= k < |Held(q)| && 0 <= l < |r.queue|
      ensures Held(q)[k].row != r.queue[l].row
    {
      assert Held(r)[l + 1] == r.queue[l];
    }
  }

  lemma WriteKeepsInv(s: State, w: WorkerId, delivered: bool)
    requires Inv(s) && w in s.rounds && s.rounds[w].called.Some?
    ensures Inv(WriteStep(s, w, s.rounds[w], delivered))
  {
    var s' := WriteStep(s, w, s.rounds[w], delivered);
    QueueIsRest(s, s.rounds[w]);
    WrittenRowIsOk(s, w);
    RoundSurvives(s, s', Round(None, s.rounds[w].queue));
    forall v | v in s.rounds && v != w
      ensures Undisturbed(s, s', s.rounds[v])
      ensures Disjoint(s.rounds[v], Round(None, s.rounds[w].queue))
      ensures Disjoint(Round(None, s.rounds[w].queue), s.rounds[v])
    {
      DisjointFromParts(s.rounds[v], s.rounds[w]);
    }
    OthersSurvive(s, s', w);
  }

  lemma PublishKeepsInv(s: State, event: Event, at: Time)
    requires Inv(s)
    ensures Inv(Step(s, Publish(event, at)))
  {
    var s' := Step(s, Publish(event, at));
    forall v | v in s.rounds
      ensures OwnsRows(s'.outbox, s.rounds[v]) && OnRecord(s', s.rounds[v])
    {
      forall k | 0 <= k < |Held(s.rounds[v])|
        ensures Held(s.rounds[v])[k].row < |s.outbox|
      {
        assert StillClaimed(s.outbox, Held(s.rounds[v])[k]);
      }
      RoundSurvives(s, s', s.rounds[v]);
    }
  }

  lemma StepKeepsInv(s: State, a: Action)
    requires Inv(s)
    ensures Inv(Step(s, a))
  {
    match a
    case Publish(event, at) => PublishKeepsInv(s, event, at);
    case Claim(w, rows, unscanned) =>
      if w !in s.rounds && CanClaim(s.outbox, rows) {
        ClaimKeepsInv(s, w, rows, unscanned);
      }
    case Call(w, ok) =>
      if w in s.rounds && s.rounds[w].called == None && s.rounds[w].queue != [] {
        CallKeepsInv(s, w, ok);
      }
    case Write(w, delivered) =>
      if w in s.rounds && s.rounds[w].called.Some? {
        WriteKeepsInv(s, w, delivered);
      }
    case Crash(w) =>
      var s' := Step(s, a);
      forall v | v in s'.rounds
        ensures OwnsRows(s'.outbox, s'.rounds[v]) && OnRecord(s', s'.rounds[v])
      {
        RoundSurvives(s, s', s.rounds[v]);
      }
  }
}
