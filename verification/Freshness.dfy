/** What undisturbed freshness passes do to a stored batch, and how far they lag behind the clock. */
module FreshnessLag {
  import opened Kernel
  import opened InventoryDomain
  import opened InventoryStore
  import opened InventoryApplication

  /** The class a batch deserves at an instant, read off the thresholds. */
  function ClassAt(expiresAt: Time, now: Time): Freshness {
    if now > expiresAt then Expired
    else if now > expiresAt - CRITICAL_THRESHOLD then Critical
    else if now > expiresAt - AGING_THRESHOLD then Aging
    else Fresh
  }

  function Move(r: BatchRow, now: Time): BatchRow {
    match RowToBatch(r).Recalculate(now)
    case None => r
    case Some(changed) => UpdatedRow(r, changed)
  }

  /** One undisturbed pass, seen by one row. */
  function PassOn(r: BatchRow, now: Time): BatchRow {
    if IsActive(r) then Move(r, now) else r
  }

  function PassTable(rows: Rows, now: Time): Rows {
    map id | id in rows :: PassOn(rows[id], now)
  }

  /** Without interference and refusals a pass succeeds and visits exactly the active rows,
      in whatever order the database lists them. */
  lemma UndisturbedPass(rows: Rows, reply: seq<BatchRow>, now: Time)
    requires WellFiled(rows) && IsSelection(rows, IsActive, reply)
    ensures PassOver(rows, Loaded(reply), now, {}) == (PassTable(rows, now), None)
  {
    PassOverListed(rows, reply, now);
    var after := PassOver(rows, Loaded(reply), now, {}).0;
    assert after == PassTable(rows, now);
  }

  lemma {:induction false} PassOverListed(rows: Rows, reply: seq<BatchRow>, now: Time)
    requires WellFiled(rows)
    requires forall r :: r in reply ==> r.id in rows && rows[r.id] == r
    requires forall i, j :: 0 <= i < j < |reply| ==> reply[i].id != reply[j].id
    ensures var (after, err) := PassOver(rows, Loaded(reply), now, {});
            && err == None
            && after.Keys == rows.Keys
            && forall id :: id in rows ==> after[id] == if rows[id] in reply then Move(rows[id], now) else rows[id]
    decreases |reply|
  {
    if reply != [] {
      var r, rest := reply[0], reply[1..];
      var next := PassOne(rows, RowToBatch(r), now, false).value;
      assert next == rows[r.id := Move(r, now)];
      assert Loaded(reply)[1..] == Loaded(rest);
      assert forall q :: q in rest ==> q.id != r.id;
      PassOverListed(next, rest, now);
      assert forall q :: q in reply <==> q == r || q in rest;
      assert Move(r, now).id == r.id;
    }
  }

  function Passes(r: BatchRow, times: seq<Time>): BatchRow {
    if times == [] then r
    else PassOn(Passes(r, times[..|times| - 1]), times[|times| - 1])
  }

  ghost predicate NonDecreasing(times: seq<Time>) {
    forall i, j :: 0 <= i <= j < |times| ==> times[i] <= times[j]
  }

  lemma {:induction false} LagInvariant(r: BatchRow, times: seq<Time>)
    requires r.freshness == Fresh && r.remainingQty > 0
    requires |times| >= 1 && NonDecreasing(times)
    ensures var n := |times|; var f := Passes(r, times).freshness.Rank();
            var last := ClassAt(r.expiresAt, times[n - 1]).Rank();
            && Passes(r, times).expiresAt == r.expiresAt && Passes(r, times).remainingQty == r.remainingQty
            && f <= last
            && (last >= 1 ==> f >= 1)
            && (last == 3 ==> f == 3)
            && (n >= 2 ==> ClassAt(r.expiresAt, times[n - 2]).Rank() <= f)
  {
    var n := |times|;
    var before := times[..n - 1];
    if n == 1 {
      assert Passes(r, before) == r;
    } else {
      LagInvariant(r, before);
      assert times[n - 2] <= times[n - 1];
    }
  }

  /** After n >= 2 passes at non-decreasing times, freshness lies between the classes of the last two times. */
  lemma LagIsBounded(r: BatchRow, times: seq<Time>)
    requires r.freshness == Fresh && r.remainingQty > 0
    requires |times| >= 2 && NonDecreasing(times)
    ensures ClassAt(r.expiresAt, times[|times| - 2]).Rank()
            <= Passes(r, times).freshness.Rank()
            <= ClassAt(r.expiresAt, times[|times| - 1]).Rank()
  {
    LagInvariant(r, times);
  }

  ghost predicate IsHandlerRun(rows: Rows, now: Time, rows': Rows) {
    exists reply :: IsSelection(rows, IsActive, reply) && PassOver(rows, Loaded(reply), now, {}) == (rows', None)
  }

  /** rows' is left by one handler run per instant, without interference or refusals; each run lists the active
      rows in an order of the database's choice. */
  ghost predicate AreHandlerRuns(rows: Rows, times: seq<Time>, rows': Rows)
    decreases |times|
  {
    if times == [] then rows' == rows
    else
      exists mid ::
        AreHandlerRuns(rows, times[..|times| - 1], mid) && IsLastRun(mid, times, rows')
  }

  ghost predicate IsLastRun(rows: Rows, times: seq<Time>, rows': Rows)
    requires times != []
  {
    IsHandlerRun(rows, times[|times| - 1], rows')
  }

  lemma HandlerRunIsPass(rows: Rows, now: Time, rows': Rows)
    requires WellFiled(rows) && IsHandlerRun(rows, now, rows')
    ensures rows' == PassTable(rows, now) && WellFiled(rows')
  {
    var reply :| IsSelection(rows, IsActive, reply) && PassOver(rows, Loaded(reply), now, {}) == (rows', None);
    UndisturbedPass(rows, reply, now);
    PassTableIsFiled(rows, now);
  }

  lemma PassTableIsFiled(rows: Rows, now: Time)
    requires WellFiled(rows)
    ensures WellFiled(PassTable(rows, now))
  {
  }

  lemma {:induction false} HandlerRunsAreRowPasses(rows: Rows, times: seq<Time>, rows': Rows)
    requires WellFiled(rows) && AreHandlerRuns(rows, times, rows')
    ensures WellFiled(rows') && rows'.Keys == rows.Keys
    ensures forall id :: id in rows ==> rows'[id] == Passes(rows[id], times)
    decreases |times|
  {
    if times != [] {
      var init, last := times[..|times| - 1], times[|times| - 1];
      var mid :| AreHandlerRuns(rows, init, mid) && IsLastRun(mid, times, rows');
      HandlerRunsAreRowPasses(rows, init, mid);
      HandlerRunIsPass(mid, last, rows');
    }
  }

  /** One pass over a row with stock, in nanoseconds: past its expiry it is expired; within 48 hours of it a fresh one
      ages, within 24 hours an aging one becomes critical; strictly, and one class at a time. */
  lemma PassIs(r: BatchRow, now: Time)
    requires r.remainingQty > 0
    ensures PassOn(r, now).freshness ==
            match r.freshness
            case Fresh =>
              if now > r.expiresAt then Expired else if now > r.expiresAt - 172_800_000_000_000 then Aging else Fresh
            case Aging =>
              if now > r.expiresAt then Expired else if now > r.expiresAt - 86_400_000_000_000 then Critical else Aging
            case Critical => if now > r.expiresAt then Expired else Critical
            case Expired => Expired
  {
  }

  /** The passes 49 and 47 hours, and 25 and 23 hours, before the expiry. */
  lemma PassesAroundThresholds(r: BatchRow)
    requires r.remainingQty > 0
    ensures r.freshness == Fresh ==>
              && PassOn(r, r.expiresAt - 176_400_000_000_000).freshness == Fresh
              && PassOn(r, r.expiresAt - 169_200_000_000_000).freshness == Aging
    ensures r.freshness == Aging ==>
              && PassOn(r, r.expiresAt - 90_000_000_000_000).freshness == Aging
              && PassOn(r, r.expiresAt - 82_800_000_000_000).freshness == Critical
    ensures ClassAt(r.expiresAt, r.expiresAt - 169_200_000_000_000) == Aging
    ensures ClassAt(r.expiresAt, r.expiresAt - 82_800_000_000_000) == Critical
  {
  }

  /** n >= 2 runs of the handler over a whole table: every batch that was fresh with stock left ends between the
      classes of the last two instants. */
  lemma HandlerRunsLag(rows: Rows, times: seq<Time>, rows': Rows, id: BatchId)
    requires WellFiled(rows) && AreHandlerRuns(rows, times, rows') && |times| >= 2 && NonDecreasing(times)
    requires id in rows && rows[id].freshness == Fresh && rows[id].remainingQty > 0
    ensures id in rows'
    ensures ClassAt(rows[id].expiresAt, times[|times| - 2]).Rank()
            <= rows'[id].freshness.Rank()
            <= ClassAt(rows[id].expiresAt, times[|times| - 1]).Rank()
  {
    HandlerRunsAreRowPasses(rows, times, rows');
    LagIsBounded(rows[id], times);
  }

  /** One pass can be short: a fresh batch already in the critical window only becomes aging. */
  lemma OnePassCanLag(r: BatchRow, now: Time)
    requires r.freshness == Fresh && r.remainingQty > 0 && ClassAt(r.expiresAt, now) == Critical
    ensures PassOn(r, now).freshness == Aging
  {
  }

  /** Two passes at one time reach the class of that time exactly when there is stock and the batch is not
      already past it (or it was there to begin with). */
  lemma TwoPassesReachClassIff(r: BatchRow, now: Time)
    ensures Passes(r, [now, now]).freshness == ClassAt(r.expiresAt, now) <==>
            r.freshness == ClassAt(r.expiresAt, now) ||
            (r.remainingQty > 0 && r.freshness.Rank() <= ClassAt(r.expiresAt, now).Rank())
  {
    TwoPasses(r, now);
    PassMoves(r, now);
    PassMoves(PassOn(r, now), now);
  }

  /** What one pass does to the rank: with stock, at most one step short of expiry towards the class. */
  lemma PassMoves(r: BatchRow, now: Time)
    ensures var f, target := r.freshness.Rank(), ClassAt(r.expiresAt, now).Rank();
            var r' := PassOn(r, now);
            && r'.expiresAt == r.expiresAt && r'.remainingQty == r.remainingQty
            && r'.freshness.Rank() ==
                 if r.remainingQty <= 0 || f >= target then f else if target == 3 then 3 else f + 1
  {
  }

  lemma TwoPasses(r: BatchRow, now: Time)
    ensures Passes(r, [now, now]) == PassOn(PassOn(r, now), now)
  {
    assert [now, now][..1] == [now];
    assert [now][..0] == [];
    assert Passes(r, [now]) == PassOn(r, now);
  }

  /** A third pass at the same time changes nothing, on any table. */
  lemma ThirdPassChangesNothing(rows: Rows, now: Time)
    ensures var twice := PassTable(PassTable(rows, now), now);
            PassTable(twice, now) == twice
  {
  }
}
