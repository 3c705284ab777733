/** Rounds of a single crash-free worker: each claims the oldest pending rows, calls the handler on every one
    and writes the statuses back. Draining ends, and no event waits longer than its elders' attempts allow. */
module OutboxRounds {
  import opened Kernel
  import opened Outbox
  import opened WorkerProtocol

  /** The rows one round claimed, with the outcome of the handler on each. */
  type Results = map<nat, bool>

  /** LIMIT 50 of the eligible rows ORDER BY created_at, ties in any order. */
  ghost predicate OldestClaim(o: seq<OutboxRow>, ids: set<nat>) {
    && |ids| <= CLAIM_LIMIT
    && (forall i :: i in ids ==> i < |o| && Eligible(o[i]))
    && (forall i :: 0 <= i < |o| && Eligible(o[i]) && i !in ids ==>
          |ids| == CLAIM_LIMIT && forall j :: j in ids ==> o[j].createdAt <= o[i].createdAt)
  }

  /** A row claimed, handled and written back. */
  function Settle(r: OutboxRow, ok: bool): OutboxRow {
    var c := ClaimRow(r);
    c.(status := NewStatus(Claimed(0, c.attempts, c.maxAttempts), ok))
  }

  /** A claimed row has one attempt more and is done, pending again, or failed with its attempts used up. */
  lemma SettledRowIs(r: OutboxRow, ok: bool)
    ensures Settle(r, ok) == r.(attempts := r.attempts + 1,
                                status := if ok then Done
                                          else if r.attempts + 1 < r.maxAttempts then Pending
                                          else Failed)
  {
  }

  function AfterRound(o: seq<OutboxRow>, results: Results): (o': seq<OutboxRow>)
    ensures |o'| == |o|
    ensures forall i :: 0 <= i < |o| ==> o'[i] == if i in results then Settle(o[i], results[i]) else o[i]
  {
    seq(|o|, i requires 0 <= i < |o| => if i in results then Settle(o[i], results[i]) else o[i])
  }

  /** As WorkerTheorems.RowStates guarantees: no pending row has used up its attempts. */
  ghost predicate NoneStranded(o: seq<OutboxRow>) {
    forall i :: 0 <= i < |o| && o[i].status == Pending ==> Eligible(o[i])
  }

  // ---------- Sums ----------

  function Total(w: seq<int>): int {
    if w == [] then 0 else Total(w[..|w| - 1]) + w[|w| - 1]
  }

  lemma {:induction false} TotalDrops(w: seq<int>, w': seq<int>, c: set<nat>)
    requires |w'| == |w| && forall i :: i in c ==> i < |w|
    requires forall i :: 0 <= i < |w| ==> w'[i] <= w[i] - (if i in c then 1 else 0)
    ensures Total(w') <= Total(w) - |c|
  {
    if w == [] {
      assert c == {};
    } else {
      var n := |w| - 1;
      TotalDrops(w[..n], w'[..n], c - {n});
    }
  }

  lemma {:induction false} TotalNonNegative(w: seq<int>)
    requires forall i :: 0 <= i < |w| ==> w[i] >= 0
    ensures Total(w) >= 0
  {
    if w != [] {
      TotalNonNegative(w[..|w| - 1]);
    }
  }

  lemma {:induction false} TotalConcat(w: seq<int>, v: seq<int>)
    ensures Total(w + v) == Total(w) + Total(v)
  {
    if v == [] {
      assert w + v == w;
    } else {
      TotalConcat(w, v[..|v| - 1]);
      assert (w + v)[..|w + v| - 1] == w + v[..|v| - 1];
    }
  }

  lemma {:induction false} TotalZeros(w: seq<int>)
    requires forall i :: 0 <= i < |w| ==> w[i] == 0
    ensures Total(w) == 0
  {
    if w != [] {
      TotalZeros(w[..|w| - 1]);
    }
  }

  // ---------- Draining ----------

  /** The attempts a row still has. */
  function Owed(r: OutboxRow): int {
    if r.status == Pending then r.maxAttempts - r.attempts else 0
  }

  function Debts(o: seq<OutboxRow>): (w: seq<int>)
    ensures |w| == |o| && forall i :: 0 <= i < |o| ==> w[i] == Owed(o[i])
  {
    seq(|o|, i requires 0 <= i < |o| => Owed(o[i]))
  }

  function Debt(o: seq<OutboxRow>): int {
    Total(Debts(o))
  }

  /** Every round spends one attempt of each row it claims, and claims something while anything is pending. */
  lemma RoundSpendsDebt(o: seq<OutboxRow>, results: Results)
    requires NoneStranded(o) && OldestClaim(o, results.Keys)
    ensures NoneStranded(AfterRound(o, results))
    ensures 0 <= Debt(AfterRound(o, results)) <= Debt(o) - |results.Keys|
    ensures (exists i :: 0 <= i < |o| && o[i].status == Pending) ==> |results.Keys| >= 1
  {
    SettledRowsOweLess(o, results);
    TotalDrops(Debts(o), Debts(AfterRound(o, results)), results.Keys);
    TotalNonNegative(Debts(AfterRound(o, results)));
    if i: nat :| i < |o| && o[i].status == Pending {
      assert Eligible(o[i]);
      SomethingClaimed(o, results.Keys, i);
    }
  }

  lemma SettledRowsOweLess(o: seq<OutboxRow>, results: Results)
    requires NoneStranded(o) && forall i :: i in results ==> i < |o| && Eligible(o[i])
    ensures var o' := AfterRound(o, results);
            && NoneStranded(o')
            && forall i :: 0 <= i < |o| ==> 0 <= Owed(o'[i]) <= Owed(o[i]) - (if i in results then 1 else 0)
  {
  }

  lemma SomethingClaimed(o: seq<OutboxRow>, ids: set<nat>, i: nat)
    requires OldestClaim(o, ids) && i < |o| && Eligible(o[i])
    ensures |ids| >= 1
  {
    if i in ids {
      assert ids - {i} < ids;
    }
  }

  /** A run of rounds; published says whether other clients may append rows meanwhile. */
  ghost predicate IsHistory(tables: seq<seq<OutboxRow>>, rounds: seq<Results>, published: bool) {
    && |tables| == |rounds| + 1
    && forall k :: 0 <= k < |rounds| ==> IsRound(tables[k], rounds[k], tables[k + 1], published)
  }

  ghost predicate IsRound(o: seq<OutboxRow>, results: Results, o': seq<OutboxRow>, published: bool) {
    && OldestClaim(o, results.Keys)
    && AfterRound(o, results) <= o'
    && (!published ==> o' == AfterRound(o, results))
  }

  lemma HistoryTail(tables: seq<seq<OutboxRow>>, rounds: seq<Results>, published: bool)
    requires IsHistory(tables, rounds, published) && rounds != []
    ensures IsHistory(tables[1..], rounds[1..], published)
    ensures IsRound(tables[0], rounds[0], tables[1], published)
  {
    var later := rounds[1..];
    assert IsRound(tables[0], rounds[0], tables[0 + 1], published);
    assert forall k :: 0 <= k < |later| ==> later[k] == rounds[k + 1];
  }

  /** One more round, and what was published since. */
  lemma HistoryExtends(tables: seq<seq<OutboxRow>>, rounds: seq<Results>, published: bool, results: Results,
                       o: seq<OutboxRow>)
    requires IsHistory(tables, rounds, published) && IsRound(tables[|rounds|], results, o, published)
    ensures IsHistory(tables + [o], rounds + [results], published)
  {
    var ts, rs := tables + [o], rounds + [results];
    forall k | 0 <= k < |rs|
      ensures IsRound(ts[k], rs[k], ts[k + 1], published)
    {
      if k < |rounds| {
        assert ts[k] == tables[k] && ts[k + 1] == tables[k + 1] && rs[k] == rounds[k];
      }
    }
  }

  ghost predicate Finished(o: seq<OutboxRow>) {
    forall i :: 0 <= i < |o| ==> o[i].status in {Done, Failed}
  }

  /** Draining terminates: with no new events, as many rounds as the table owes attempts leave every row done
      or failed, whatever the handler answers. */
  lemma {:induction false} DrainTerminates(tables: seq<seq<OutboxRow>>, rounds: seq<Results>)
    requires IsHistory(tables, rounds, false) && NoneStranded(tables[0]) && NoneProcessing(tables[0])
    requires |rounds| >= Debt(tables[0])
    ensures Finished(tables[|rounds|])
    decreases |rounds|
  {
    if Finished(tables[0]) {
      FinishedStaysFinished(tables, rounds);
    } else {
      FirstRoundSpends(tables, rounds);
      DrainTerminates(tables[1..], rounds[1..]);
    }
  }

  /** While something is pending, the first round lowers the debt by at least one. */
  lemma FirstRoundSpends(tables: seq<seq<OutboxRow>>, rounds: seq<Results>)
    requires IsHistory(tables, rounds, false) && NoneStranded(tables[0]) && NoneProcessing(tables[0])
    requires !Finished(tables[0]) && |rounds| >= Debt(tables[0])
    ensures rounds != [] && IsHistory(tables[1..], rounds[1..], false)
    ensures NoneStranded(tables[1]) && NoneProcessing(tables[1]) && Debt(tables[1]) <= Debt(tables[0]) - 1
  {
    var i: nat :| i < |tables[0]| && tables[0][i].status == Pending;
    PendingMeansDebt(tables[0], i);
    HistoryTail(tables, rounds, false);
    RoundSpendsDebt(tables[0], rounds[0]);
    RoundLeavesNoneProcessing(tables[0], rounds[0]);
  }

  /** Between the rounds of a single crash-free worker nothing is in processing. */
  ghost predicate NoneProcessing(o: seq<OutboxRow>) {
    forall i :: 0 <= i < |o| ==> o[i].status != Processing
  }

  lemma RoundLeavesNoneProcessing(o: seq<OutboxRow>, results: Results)
    requires NoneProcessing(o)
    ensures NoneProcessing(AfterRound(o, results))
  {
  }

  lemma PendingMeansDebt(o: seq<OutboxRow>, i: nat)
    requires NoneStranded(o) && i < |o| && o[i].status == Pending
    ensures Debt(o) >= 1
  {
    var without := Debts(o)[i := Debts(o)[i] - 1];
    TotalDrops(Debts(o), without, {i});
    TotalNonNegative(without);
  }

  lemma {:induction false} FinishedStaysFinished(tables: seq<seq<OutboxRow>>, rounds: seq<Results>)
    requires IsHistory(tables, rounds, false) && Finished(tables[0])
    ensures tables[|rounds|] == tables[0]
    decreases |rounds|
  {
    if rounds != [] {
      HistoryTail(tables, rounds, false);
      assert AfterRound(tables[0], rounds[0]) == tables[0];
      FinishedStaysFinished(tables[1..], rounds[1..]);
    }
  }

  // ---------- Bounded wait ----------

  /** What the rows that may be claimed before row e still owe: those not newer than it. */
  function ElderDebts(o: seq<OutboxRow>, e: nat): (w: seq<int>)
    requires e < |o|
    ensures |w| == |o|
    ensures forall i :: 0 <= i < |o| ==>
              w[i] == if i != e && o[i].createdAt <= o[e].createdAt then Owed(o[i]) else 0
  {
    seq(|o|, i requires 0 <= i < |o| => if i != e && o[i].createdAt <= o[e].createdAt then Owed(o[i]) else 0)
  }

  function ElderDebt(o: seq<OutboxRow>, e: nat): int
    requires e < |o|
  {
    Total(ElderDebts(o, e))
  }

  lemma ElderDebtNonNegative(o: seq<OutboxRow>, e: nat)
    requires e < |o| && NoneStranded(o)
    ensures ElderDebt(o, e) >= 0
  {
    TotalNonNegative(ElderDebts(o, e));
  }

  /** What the rows beyond the first n that are not newer than t owe. */
  function LateDebts(o: seq<OutboxRow>, n: nat, t: Time): (w: seq<int>)
    requires n <= |o|
    ensures |w| == |o| - n
    ensures forall i :: 0 <= i < |w| ==> w[i] == if o[n + i].createdAt <= t then Owed(o[n + i]) else 0
  {
    seq(|o| - n, i requires 0 <= i < |o| - n => if o[n + i].createdAt <= t then Owed(o[n + i]) else 0)
  }

  function LateDebt(o: seq<OutboxRow>, n: nat, t: Time): int
    requires n <= |o|
  {
    Total(LateDebts(o, n, t))
  }

  /** A round that passes over a pending row spends 50 attempts of rows not newer than it; only rows published
      since, and not newer either, can add to what is owed before it. */
  lemma PassingOverSpendsElders(o: seq<OutboxRow>, e: nat, results: Results, o': seq<OutboxRow>)
    requires e < |o| && o[e].status == Pending && NoneStranded(o)
    requires OldestClaim(o, results.Keys) && e !in results
    requires AfterRound(o, results) <= o'
    ensures o'[e] == o[e]
    ensures ElderDebt(o', e) <= ElderDebt(o, e) - CLAIM_LIMIT + LateDebt(o', |o|, o[e].createdAt)
  {
    var mid := AfterRound(o, results);
    ClaimedEldersOweLess(o, e, results);
    TotalDrops(ElderDebts(o, e), ElderDebts(mid, e), results.Keys);
    ElderDebtSplits(mid, o', e);
  }

  lemma ElderDebtSplits(o: seq<OutboxRow>, o': seq<OutboxRow>, e: nat)
    requires e < |o| && o <= o'
    ensures o'[e] == o[e]
    ensures ElderDebt(o', e) == ElderDebt(o, e) + LateDebt(o', |o|, o[e].createdAt)
  {
    assert ElderDebts(o', e) == ElderDebts(o, e) + LateDebts(o', |o|, o[e].createdAt);
    TotalConcat(ElderDebts(o, e), LateDebts(o', |o|, o[e].createdAt));
  }

  lemma ClaimedEldersOweLess(o: seq<OutboxRow>, e: nat, results: Results)
    requires e < |o| && o[e].status == Pending && NoneStranded(o)
    requires OldestClaim(o, results.Keys) && e !in results
    ensures |results.Keys| == CLAIM_LIMIT
    ensures var w, w' := ElderDebts(o, e), ElderDebts(AfterRound(o, results), e);
            forall i :: 0 <= i < |w| ==> w'[i] <= w[i] - (if i in results then 1 else 0)
  {
    SettledRowsOweLess(o, results);
    assert forall j :: j in results ==> o[j].createdAt <= o[e].createdAt;
  }

  ghost predicate AllUnstranded(tables: seq<seq<OutboxRow>>) {
    forall k :: 0 <= k < |tables| ==> NoneStranded(tables[k])
  }

  /** What the rows published during a history, and not newer than t, owed on arrival. */
  ghost function Arrivals(tables: seq<seq<OutboxRow>>, t: Time): int {
    if |tables| <= 1 then 0
    else
      (if |tables[0]| <= |tables[1]| then LateDebt(tables[1], |tables[0]|, t) else 0) + Arrivals(tables[1..], t)
  }

  ghost predicate NeverClaimed(rounds: seq<Results>, e: nat) {
    forall k :: 0 <= k < |rounds| ==> e !in rounds[k]
  }

  /** Waiting is paid for: every round that passes over a pending event spends 50 of the attempts owed to rows
      not newer than it, those waiting at the start and those published meanwhile. */
  lemma {:induction false} WaitIsPaidFor(tables: seq<seq<OutboxRow>>, rounds: seq<Results>, e: nat)
    requires IsHistory(tables, rounds, true) && AllUnstranded(tables)
    requires e < |tables[0]| && tables[0][e].status == Pending && NeverClaimed(rounds, e)
    ensures CLAIM_LIMIT * |rounds| <= ElderDebt(tables[0], e) + Arrivals(tables, tables[0][e].createdAt)
    decreases |rounds|
  {
    if rounds == [] {
      ElderDebtNonNegative(tables[0], e);
    } else {
      HistoryTail(tables, rounds, true);
      assert NoneStranded(tables[0]) && e !in rounds[0];
      PassingOverSpendsElders(tables[0], e, rounds[0], tables[1]);
      TailKeeps(tables, rounds, e);
      WaitIsPaidFor(tables[1..], rounds[1..], e);
    }
  }

  lemma TailKeeps(tables: seq<seq<OutboxRow>>, rounds: seq<Results>, e: nat)
    requires |tables| >= 1 && |rounds| >= 1 && AllUnstranded(tables) && NeverClaimed(rounds, e)
    ensures AllUnstranded(tables[1..]) && NeverClaimed(rounds[1..], e)
  {
    assert forall k :: 0 <= k < |tables[1..]| ==> tables[1..][k] == tables[k + 1];
    assert forall k :: 0 <= k < |rounds[1..]| ==> rounds[1..][k] == rounds[k + 1];
  }

  ghost predicate RowsNewer(o: seq<OutboxRow>, n: nat, t: Time) {
    forall i :: n <= i < |o| ==> o[i].createdAt > t
  }

  /** Every row published during the history is strictly newer than t. */
  ghost predicate ArrivalsNewer(tables: seq<seq<OutboxRow>>, t: Time) {
    forall k :: 1 <= k < |tables| ==> RowsNewer(tables[k], |tables[k - 1]|, t)
  }

  lemma {:induction false} NewerArrivalsOweNothing(tables: seq<seq<OutboxRow>>, t: Time)
    requires ArrivalsNewer(tables, t)
    ensures Arrivals(tables, t) == 0
    decreases |tables|
  {
    if |tables| > 1 {
      var rest := tables[1..];
      assert RowsNewer(tables[1], |tables[0]|, t);
      if |tables[0]| <= |tables[1]| {
        TotalZeros(LateDebts(tables[1], |tables[0]|, t));
      }
      forall k | 1 <= k < |rest|
        ensures RowsNewer(rest[k], |rest[k - 1]|, t)
      {
        assert RowsNewer(tables[k + 1], |tables[k]|, t);
      }
      NewerArrivalsOweNothing(rest, t);
    }
  }

  /** Bounded wait: if every row published from now on is strictly newer than a pending event, its handler is
      called within floor(P / 50) + 1 rounds, P being the attempts owed to the rows not newer than it, even
      though failing rows keep returning to the front. */
  lemma BoundedWait(tables: seq<seq<OutboxRow>>, rounds: seq<Results>, e: nat)
    requires IsHistory(tables, rounds, true) && AllUnstranded(tables)
    requires e < |tables[0]| && tables[0][e].status == Pending
    requires ArrivalsNewer(tables, tables[0][e].createdAt)
    requires |rounds| >= ElderDebt(tables[0], e) / 50 + 1
    ensures exists k :: 0 <= k <= ElderDebt(tables[0], e) / 50 && k < |rounds| && e in rounds[k]
  {
    ElderDebtNonNegative(tables[0], e);
    var n := ElderDebt(tables[0], e) / CLAIM_LIMIT + 1;
    if forall k :: 0 <= k < n ==> e !in rounds[k] {
      var ts, rs := tables[..n + 1], rounds[..n];
      HistoryPrefix(tables, rounds, n);
      NewerArrivalsOweNothing(ts, tables[0][e].createdAt);
      WaitIsPaidFor(ts, rs, e);
    }
  }

  lemma HistoryPrefix(tables: seq<seq<OutboxRow>>, rounds: seq<Results>, n: nat)
    requires IsHistory(tables, rounds, true) && n <= |rounds|
    ensures IsHistory(tables[..n + 1], rounds[..n], true)
    ensures forall t :: ArrivalsNewer(tables, t) ==> ArrivalsNewer(tables[..n + 1], t)
    ensures AllUnstranded(tables) ==> AllUnstranded(tables[..n + 1])
  {
    var ts, rs := tables[..n + 1], rounds[..n];
    assert forall k :: 0 <= k < n ==> rs[k] == rounds[k];
  }

  // ---------- Exactly when a round can pass over an event ----------

  lemma OldestExists(o: seq<OutboxRow>, todo: set<nat>)
    requires todo != {} && forall i :: i in todo ==> i < |o|
    ensures exists i :: i in todo && forall j :: j in todo ==> o[i].createdAt <= o[j].createdAt
  {
    var i :| i in todo;
    if todo != {i} {
      var rest := todo - {i};
      OldestExists(o, rest);
      var e :| e in rest && forall j :: j in rest ==> o[e].createdAt <= o[j].createdAt;
      var best := if o[e].createdAt <= o[i].createdAt then e else i;
      assert forall j :: j in todo ==> j == i || j in rest;
      assert forall j :: j in todo ==> o[best].createdAt <= o[j].createdAt;
    }
  }

  /** The eligible rows that a claim may take before row e. */
  function Rivals(o: seq<OutboxRow>, e: nat): (ids: set<nat>)
    requires e < |o|
    ensures forall i :: i in ids <==> 0 <= i < |o| && i != e && Eligible(o[i]) && o[i].createdAt <= o[e].createdAt
  {
    set i: nat | i < |o| && i != e && Eligible(o[i]) && o[i].createdAt <= o[e].createdAt
  }

  /** The n oldest rows of a set. */
  lemma {:induction false} OldestOf(o: seq<OutboxRow>, from: set<nat>, n: nat) returns (ids: set<nat>)
    requires n <= |from| && forall i :: i in from ==> i < |o|
    ensures ids <= from && |ids| == n
    ensures forall i, j :: i in from && i !in ids && j in ids ==> o[j].createdAt <= o[i].createdAt
  {
    if n == 0 {
      ids := {};
    } else {
      OldestExists(o, from);
      var first :| first in from && forall j :: j in from ==> o[first].createdAt <= o[j].createdAt;
      var rest := OldestOf(o, from - {first}, n - 1);
      ids := rest + {first};
    }
  }

  lemma CrowdedOut(o: seq<OutboxRow>, e: nat) returns (ids: set<nat>)
    requires e < |o| && Eligible(o[e]) && |Rivals(o, e)| >= CLAIM_LIMIT
    ensures OldestClaim(o, ids) && e !in ids
  {
    ids := OldestOf(o, Rivals(o, e), CLAIM_LIMIT);
    forall i | 0 <= i < |o| && Eligible(o[i]) && i !in ids
      ensures forall j :: j in ids ==> o[j].createdAt <= o[i].createdAt
    {
      if i !in Rivals(o, e) {
        assert o[e].createdAt <= o[i].createdAt;
      }
    }
  }

  lemma {:induction false} SubsetIsSmaller(a: set<nat>, b: set<nat>)
    requires a <= b
    ensures |a| <= |b|
  {
    assert b == a + (b - a);
  }

  /** The claim's choice is free only among ties, so: some round can pass over an eligible event exactly when at
      least 50 other eligible rows are not newer than it, which can be counted in the table beforehand. */
  lemma CanBePassedOverIff(o: seq<OutboxRow>, e: nat)
    requires e < |o| && Eligible(o[e])
    ensures (exists ids :: OldestClaim(o, ids) && e !in ids) <==> |Rivals(o, e)| >= 50
  {
    if ids :| OldestClaim(o, ids) && e !in ids {
      SubsetIsSmaller(ids, Rivals(o, e));
    }
    if |Rivals(o, e)| >= CLAIM_LIMIT {
      var ids := CrowdedOut(o, e);
    }
  }

  /** Every round must take an eligible event exactly when fewer than 50 other rows are not strictly newer; without
      ties that is being among the 50 oldest. */
  lemma MustBeTakenIff(o: seq<OutboxRow>, e: nat)
    requires e < |o| && Eligible(o[e])
    ensures (forall ids :: OldestClaim(o, ids) ==> e in ids) <==> |Rivals(o, e)| < 50
  {
    CanBePassedOverIff(o, e);
  }

  function Interval(a: nat, n: nat): (s: set<nat>)
    ensures |s| == n
    ensures forall i :: i in s <==> a <= i < a + n
  {
    if n == 0 then {} else Interval(a, n - 1) + {a + n - 1}
  }

  /** n more rounds that never take a crowded-out event: before each, 50 rows of its own instant arrive. */
  lemma {:induction false} Starve(o: seq<OutboxRow>, e: nat, n: nat)
      returns (tables: seq<seq<OutboxRow>>, rounds: seq<Results>)
    requires e < |o| && Eligible(o[e]) && |Rivals(o, e)| >= CLAIM_LIMIT
    ensures IsHistory(tables, rounds, true) && |rounds| == n && tables[0] == o
    ensures NeverClaimed(rounds, e) && ArrivalsNewer(tables, o[e].createdAt - 1)
    decreases n
  {
    if n == 0 {
      tables, rounds := [o], [];
    } else {
      var ids := CrowdedOut(o, e);
      var results: Results := map i | i in ids :: true;
      assert results.Keys == ids;
      var next := AfterRound(o, results) + TiedRows(o[e]);
      NewcomersCrowd(o, e, results);
      var ts, rs := Starve(next, e, n - 1);
      tables, rounds := [o] + ts, [results] + rs;
      HistoryPrepend(o, results, ts, rs, o[e].createdAt - 1);
    }
  }

  function TiedRows(r: OutboxRow): seq<OutboxRow> {
    seq(CLAIM_LIMIT, _ => NewRow(r.event, r.createdAt))
  }

  lemma NewcomersCrowd(o: seq<OutboxRow>, e: nat, results: Results)
    requires e < |o| && Eligible(o[e]) && e !in results
    ensures var next := AfterRound(o, results) + TiedRows(o[e]);
            next[e] == o[e] && |Rivals(next, e)| >= CLAIM_LIMIT && RowsNewer(next, |o|, o[e].createdAt - 1)
  {
    var next := AfterRound(o, results) + TiedRows(o[e]);
    assert forall i :: |o| <= i < |next| ==> next[i] == NewRow(o[e].event, o[e].createdAt);
    SubsetIsSmaller(Interval(|o|, 50), Rivals(next, e));
  }

  lemma HistoryPrepend(o: seq<OutboxRow>, results: Results, ts: seq<seq<OutboxRow>>, rs: seq<Results>, t: Time)
    requires IsHistory(ts, rs, true) && ArrivalsNewer(ts, t)
    requires OldestClaim(o, results.Keys) && AfterRound(o, results) <= ts[0] && RowsNewer(ts[0], |o|, t)
    ensures IsHistory([o] + ts, [results] + rs, true) && ArrivalsNewer([o] + ts, t)
  {
    var tables, rounds := [o] + ts, [results] + rs;
    forall k | 0 <= k < |rounds|
      ensures IsRound(tables[k], rounds[k], tables[k + 1], true)
    {
      if k > 0 {
        assert tables[k] == ts[k - 1] && rounds[k] == rs[k - 1] && tables[k + 1] == ts[k];
      }
    }
    forall k | 1 <= k < |tables|
      ensures RowsNewer(tables[k], |tables[k - 1]|, t)
    {
      if k > 1 {
        assert tables[k] == ts[k - 1] && tables[k - 1] == ts[k - 2];
      }
    }
  }

  ghost predicate IsStarvedFor(o: seq<OutboxRow>, e: nat, n: nat, tables: seq<seq<OutboxRow>>, rounds: seq<Results>)
    requires e < |o|
  {
    && IsHistory(tables, rounds, true) && |rounds| == n && tables[0] == o
    && NeverClaimed(rounds, e) && ArrivalsNewer(tables, o[e].createdAt - 1)
  }

  /** If later rows are merely never older, no number of rounds is a bound, except for an event the very next round
      must take: it can be passed over n times running exactly when 50 rows rival it now. */
  lemma CanStarveIff(o: seq<OutboxRow>, e: nat, n: nat)
    requires e < |o| && Eligible(o[e]) && n >= 1
    ensures (exists tables, rounds :: IsStarvedFor(o, e, n, tables, rounds)) <==> |Rivals(o, e)| >= 50
  {
    if tables: seq<seq<OutboxRow>>, rounds: seq<Results> :| IsStarvedFor(o, e, n, tables, rounds) {
      HistoryTail(tables, rounds, true);
      assert OldestClaim(o, rounds[0].Keys) && e !in rounds[0].Keys;
      CanBePassedOverIff(o, e);
    }
    if |Rivals(o, e)| >= CLAIM_LIMIT {
      var tables, rounds := Starve(o, e, n);
      assert IsStarvedFor(o, e, n, tables, rounds);
    }
  }

  // ---------- A table of ties ----------

  /** Row 0, and n more rows of the same instant. */
  function TiedTable(event: Event, t: Time, n: nat): (o: seq<OutboxRow>)
    ensures |o| == n + 1 && forall i :: 0 <= i <= n ==> o[i] == NewRow(event, t)
  {
    seq(n + 1, _ => NewRow(event, t))
  }

  /** Among n rows tied with it, an event can be passed over any number of times exactly when n is at least 50. */
  lemma TiedTableIsCritical(event: Event, t: Time, n: nat, k: nat)
    requires k >= 1
    ensures (exists tables, rounds :: IsStarvedFor(TiedTable(event, t, n), 0, k, tables, rounds)) <==> n >= 50
  {
    assert Rivals(TiedTable(event, t, n), 0) == Interval(1, n);
    CanStarveIff(TiedTable(event, t, n), 0, k);
  }
}
