/** The circuit breaker over whole histories of one stats row. */
module Breaker {
  import opened Common
  import opened Providers
  import opened StatsRow
  import Admission

  /** A write to the row: the end of a dispatch, or an operator reset. Reservations (0014) never
      change an existing row. */
  datatype Op = Settle(at: real, outcome: Outcome) | Reset(at: real)

  predicate IsBreakerFailure(op: Op) {
    op.Settle? && op.outcome.Failure? && !IsBenign(op.outcome.kind)
  }

  /** A success or a reset: it ends the current streak of failures. */
  predicate ClearsStreak(op: Op) {
    op.Reset? || op.outcome.Success?
  }

  predicate IsSuccess(op: Op) {
    op.Settle? && op.outcome.Success?
  }

  function ApplyOp(row: Row, op: Op, tun: Tunables): Row {
    match op
    case Settle(at, outcome) => CommitRow(row, at, outcome, tun)
    case Reset(_) => ResetRow(row)
  }

  /** The row after the first `n` operations on a freshly inserted row. */
  function RowAt(ops: seq<Op>, n: nat, tun: Tunables): Row
    requires n <= |ops|
  {
    if n == 0 then FRESH else ApplyOp(RowAt(ops, n - 1, tun), ops[n - 1], tun)
  }

  /** One nondecreasing clock, after the epoch. */
  ghost predicate Timed(ops: seq<Op>) {
    && (forall i | 0 <= i < |ops| :: ops[i].at > 0.0)
    && (forall i, j | 0 <= i <= j < |ops| :: ops[i].at <= ops[j].at)
  }

  ghost predicate Sane(tun: Tunables) {
    tun.baseCooldownS >= 0 && tun.maxCooldownS >= 0
  }

  /** Breaker failures among ops[i..n]. */
  function Failures(ops: seq<Op>, i: nat, n: nat): nat
    requires i <= n <= |ops|
  {
    if i == n then 0 else Failures(ops, i, n - 1) + if IsBreakerFailure(ops[n - 1]) then 1 else 0
  }

  /** Breaker failures since the last success. */
  function FailuresSinceSuccess(ops: seq<Op>, n: nat): nat
    requires n <= |ops|
  {
    if n == 0 || IsSuccess(ops[n - 1]) then 0
    else FailuresSinceSuccess(ops, n - 1) + if IsBreakerFailure(ops[n - 1]) then 1 else 0
  }

  /** Operation `n` trips the breaker. */
  predicate TripAt(ops: seq<Op>, n: nat, tun: Tunables)
    requires n < |ops|
  {
    IsBreakerFailure(ops[n]) && Trips(RowAt(ops, n, tun), ops[n].at, tun)
  }

  // ---------- what every reachable row satisfies ----------

  lemma {:induction false} StreakInRange(ops: seq<Op>, n: nat, tun: Tunables)
    requires n <= |ops| && Timed(ops)
    ensures var row := RowAt(ops, n, tun);
      && 0 <= row.consecutiveFailures < Threshold(tun)
      && (row.consecutiveFailures > 0 ==> row.recentFailuresStartedAt > 0.0)
  {
    if n > 0 {
      StreakInRange(ops, n - 1, tun);
    }
  }

  lemma {:induction false} ReachableRow(ops: seq<Op>, n: nat, tun: Tunables)
    requires n <= |ops| && Timed(ops) && Sane(tun)
    ensures var row := RowAt(ops, n, tun);
      && 0 <= row.consecutiveFailures < Threshold(tun)
      && (row.consecutiveFailures > 0 ==> row.recentFailuresStartedAt > 0.0)
      && (!row.healthy ==> row.quarantinedUntil > 0.0)
      && row.quarantinedUntil >= 0.0
  {
    StreakInRange(ops, n, tun);
    if n > 0 {
      ReachableRow(ops, n - 1, tun);
      CooldownInRange(RowAt(ops, n - 1, tun).cooldownLevel, tun);
    }
  }

  lemma CooldownInRange(level: nat, tun: Tunables)
    requires Sane(tun)
    ensures 0 <= Cooldown(level, tun) <= tun.maxCooldownS
  {
    ScaledGrows(tun.baseCooldownS, 0, Pow2(if level <= 20 then level else 20));
  }

  /** What the level and the count together can claim. */
  function Claimed(row: Row, tun: Tunables): int {
    Threshold(tun) * row.cooldownLevel + row.consecutiveFailures
  }

  lemma ClaimedStep(row: Row, op: Op, tun: Tunables)
    requires 0 <= row.consecutiveFailures
    ensures Claimed(ApplyOp(row, op, tun), tun) <=
      if IsSuccess(op) then 0 else Claimed(row, tun) + if IsBreakerFailure(op) then 1 else 0
  {
    hide Cooldown, IsBenign, NextEma;
  }

  /** The cooldown level and the running count together never claim more breaker failures than
      happened since the last success. */
  lemma {:induction false} LevelsArePaidFor(ops: seq<Op>, n: nat, tun: Tunables)
    requires n <= |ops| && Timed(ops)
    ensures var row := RowAt(ops, n, tun);
      Threshold(tun) * row.cooldownLevel + row.consecutiveFailures <= FailuresSinceSuccess(ops, n)
  {
    hide ApplyOp, Threshold, IsBreakerFailure, IsSuccess;
    if n > 0 {
      LevelsArePaidFor(ops, n - 1, tun);
      StreakInRange(ops, n - 1, tun);
      ClaimedStep(RowAt(ops, n - 1, tun), ops[n - 1], tun);
    }
  }

  /** A failure counted in the row means a streak: from some breaker failure on, stamped
      `recentFailuresStartedAt`, exactly that many failures, all inside the window, and no
      success, reset or trip among them. */
  lemma {:induction false} StreakStart(ops: seq<Op>, n: nat, tun: Tunables) returns (i: nat)
    requires n <= |ops| && Timed(ops)
    requires RowAt(ops, n, tun).consecutiveFailures > 0
    ensures i < n && IsBreakerFailure(ops[i])
    ensures ops[i].at == RowAt(ops, n, tun).recentFailuresStartedAt
    ensures Failures(ops, i, n) == RowAt(ops, n, tun).consecutiveFailures
    ensures forall j | i <= j < n :: !ClearsStreak(ops[j]) && !TripAt(ops, j, tun)
  {
    var row, op := RowAt(ops, n - 1, tun), ops[n - 1];
    if IsBreakerFailure(op) && !WithinWindow(row, op.at, tun) {
      i := n - 1;
      assert Failures(ops, i, n - 1) == 0;
    } else {
      i := StreakStart(ops, n - 1, tun);
    }
  }

  /** The last threshold-many breaker failures before and including `n` lie within the window, with
      no success, reset or earlier trip among them: a sliding-window breaker would trip here. */
  ghost predicate BurstFrom(ops: seq<Op>, i: nat, n: nat, tun: Tunables)
    requires n < |ops|
  {
    && i <= n && IsBreakerFailure(ops[i]) && IsBreakerFailure(ops[n])
    && Failures(ops, i, n + 1) == Threshold(tun)
    && (i < n ==> ops[n].at - ops[i].at <= tun.windowS as real)
    && forall j | i <= j < n :: !ClearsStreak(ops[j]) && !TripAt(ops, j, tun)
  }

  ghost predicate SlidingTrip(ops: seq<Op>, n: nat, tun: Tunables)
    requires n < |ops|
  {
    exists i: nat :: BurstFrom(ops, i, n, tun)
  }

  /** Every trip is backed by a full burst of failures. */
  lemma TripMeansBurst(ops: seq<Op>, n: nat, tun: Tunables)
    requires n < |ops| && Timed(ops) && TripAt(ops, n, tun)
    ensures SlidingTrip(ops, n, tun)
  {
    var row := RowAt(ops, n, tun);
    StreakInRange(ops, n, tun);
    if WithinWindow(row, ops[n].at, tun) {
      var i := StreakStart(ops, n, tun);
      assert BurstFrom(ops, i, n, tun);
    } else {
      assert Failures(ops, n, n) == 0;
      assert BurstFrom(ops, n, n, tun);
    }
  }

  // ---------- the window is anchored, not sliding ----------

  /** Once the streak is anchored at `ops[i]`, every later failure inside the window joins it. */
  lemma {:induction false} AnchoredCounts(ops: seq<Op>, i: nat, m: nat, tun: Tunables)
    requires i < m <= |ops| && Timed(ops)
    requires RowAt(ops, i + 1, tun).recentFailuresStartedAt == ops[i].at
    requires RowAt(ops, i + 1, tun).consecutiveFailures >= 1
    requires forall j | i < j < m :: !ClearsStreak(ops[j]) && !TripAt(ops, j, tun)
    requires ops[m - 1].at - ops[i].at <= tun.windowS as real
    ensures RowAt(ops, m, tun).recentFailuresStartedAt == ops[i].at
    ensures RowAt(ops, m, tun).consecutiveFailures >= Failures(ops, i, m) >= 0
    ensures RowAt(ops, m, tun).consecutiveFailures >= 1
  {
    if m == i + 1 {
      assert Failures(ops, i, i) == 0;
    } else {
      AnchoredCounts(ops, i, m - 1, tun);
    }
  }

  lemma AnchoredBurstTrips(ops: seq<Op>, i: nat, n: nat, tun: Tunables)
    requires n < |ops| && Timed(ops) && BurstFrom(ops, i, n, tun)
    requires i < n ==> RowAt(ops, i + 1, tun).recentFailuresStartedAt == ops[i].at
    ensures TripAt(ops, n, tun)
  {
    if i < n {
      assert !TripAt(ops, i, tun);
      StreakInRange(ops, i, tun);
      AnchoredCounts(ops, i, n, tun);
    } else {
      assert Failures(ops, n, n) == 0;
    }
  }

  /** With a threshold of at most two, or a window of zero or less, the code's anchored window
      trips exactly when a sliding one would. */
  lemma SlidingIsAnchored(ops: seq<Op>, n: nat, tun: Tunables)
    requires n < |ops| && Timed(ops) && SlidingTrip(ops, n, tun)
    requires tun.threshold <= 2 || tun.windowS <= 0
    ensures TripAt(ops, n, tun)
  {
    var i: nat :| BurstFrom(ops, i, n, tun);
    if i < n {
      var row := RowAt(ops, i, tun);
      assert !TripAt(ops, i, tun);
      StreakInRange(ops, i, tun);
      if WithinWindow(row, ops[i].at, tun) {
        // Only a zero window is left: the anchor has the very same stamp.
        var a := StreakStart(ops, i, tun);
      }
      assert RowAt(ops, i + 1, tun).recentFailuresStartedAt == ops[i].at;
    }
    AnchoredBurstTrips(ops, i, n, tun);
  }

  /** A plain breaker failure at `at`. */
  function Down(at: real): Op {
    Settle(at, Failure(0, ServerError, None))
  }

  /** One failure, then threshold - 2 at the far edge of its window, then two more just outside
      it: the anchor moves and the count restarts although the last threshold-many failures lie
      within half a window. */
  function MissedBurst(tun: Tunables): seq<Op>
    requires tun.threshold >= 3 && tun.windowS > 0
  {
    var w := tun.windowS as real;
    [Down(1.0)] + seq(tun.threshold - 2, _ => Down(1.0 + w)) + [Down(1.0 + 1.5 * w), Down(1.0 + 1.5 * w)]
  }

  lemma {:induction false} MissedBurstRows(tun: Tunables, k: nat)
    requires tun.threshold >= 3 && tun.windowS > 0
    requires 1 <= k <= tun.threshold - 1
    ensures var row := RowAt(MissedBurst(tun), k, tun);
      row.consecutiveFailures == k && row.recentFailuresStartedAt == 1.0 && row.cooldownLevel == 0
    ensures forall j | 0 <= j < k :: !TripAt(MissedBurst(tun), j, tun)
  {
    var ops := MissedBurst(tun);
    assert RowAt(ops, 0, tun) == FRESH;
    if k > 1 {
      MissedBurstRows(tun, k - 1);
      assert ops[k - 1] == Down(1.0 + tun.windowS as real);
    }
  }

  lemma {:induction false} AllFailures(ops: seq<Op>, i: nat, n: nat)
    requires i <= n <= |ops|
    requires forall j | i <= j < n :: IsBreakerFailure(ops[j])
    ensures Failures(ops, i, n) == n - i
  {
    if i < n { AllFailures(ops, i, n - 1); }
  }

  /** The two last failures start a new streak of one and then two. */
  lemma MissedBurstTail(tun: Tunables)
    requires tun.threshold >= 3 && tun.windowS > 0
    ensures var ops, t := MissedBurst(tun), tun.threshold;
      !TripAt(ops, t - 1, tun) && !TripAt(ops, t, tun)
  {
    hide Cooldown;
    var ops, t, w := MissedBurst(tun), tun.threshold, tun.windowS as real;
    MissedBurstRows(tun, t - 1);
    assert ops[t - 1] == Down(1.0 + 1.5 * w) == ops[t];
    assert !WithinWindow(RowAt(ops, t - 1, tun), ops[t - 1].at, tun);
    assert RowAt(ops, t, tun).consecutiveFailures == 1;
  }

  lemma MissedBurstIsBurst(tun: Tunables)
    requires tun.threshold >= 3 && tun.windowS > 0
    ensures var ops := MissedBurst(tun); Timed(ops) && BurstFrom(ops, 1, tun.threshold, tun)
  {
    hide Trips, RowAt;
    var ops, t, w := MissedBurst(tun), tun.threshold, tun.windowS as real;
    assert ops[1] == Down(1.0 + w) && ops[t] == Down(1.0 + 1.5 * w);
    assert forall j | 0 <= j < |ops| :: IsBreakerFailure(ops[j]) && !ClearsStreak(ops[j]);
    MissedBurstRows(tun, t - 1);
    MissedBurstTail(tun);
    AllFailures(ops, 1, t + 1);
  }

  lemma MissedBurstIsMissed(tun: Tunables)
    requires tun.threshold >= 3 && tun.windowS > 0
    ensures var ops := MissedBurst(tun);
      Timed(ops) && SlidingTrip(ops, tun.threshold, tun) && !TripAt(ops, tun.threshold, tun)
  {
    hide TripAt, BurstFrom, Timed;
    MissedBurstIsBurst(tun);
    MissedBurstTail(tun);
  }

  /** Exactly when the breaker's window is the sliding one its comment promises. */
  lemma SlidingWindowIff(tun: Tunables)
    ensures (forall ops: seq<Op>, n: nat | n < |ops| && Timed(ops) :: SlidingTrip(ops, n, tun) <==> TripAt(ops, n, tun))
      <==> (tun.threshold <= 2 || tun.windowS <= 0)
  {
    if tun.threshold <= 2 || tun.windowS <= 0 {
      forall ops: seq<Op>, n: nat | n < |ops| && Timed(ops)
        ensures SlidingTrip(ops, n, tun) <==> TripAt(ops, n, tun)
      {
        if SlidingTrip(ops, n, tun) { SlidingIsAnchored(ops, n, tun); }
        if TripAt(ops, n, tun) { TripMeansBurst(ops, n, tun); }
      }
    } else {
      MissedBurstIsMissed(tun);
    }
  }

  // ---------- cooldowns between trips ----------

  lemma {:induction false} Pow2Grows(a: nat, b: nat)
    requires a <= b
    ensures Pow2(a) <= Pow2(b)
    decreases b
  {
    if a < b { Pow2Grows(a, b - 1); }
  }

  /** Successive cooldowns never shrink and never exceed the maximum. */
  lemma CooldownsGrow(a: nat, b: nat, tun: Tunables)
    requires a <= b && Sane(tun)
    ensures 0 <= Cooldown(a, tun) <= Cooldown(b, tun) <= tun.maxCooldownS
  {
    CooldownInRange(a, tun);
    CooldownInRange(b, tun);
    var x, y := if a <= 20 then a else 20, if b <= 20 then b else 20;
    Pow2Grows(x, y);
    ScaledGrows(tun.baseCooldownS, Pow2(x), Pow2(y));
  }

  lemma ScaledGrows(c: int, x: int, y: int)
    requires c >= 0 && x <= y
    ensures c * x <= c * y
  {
  }

  /** The cooldowns of `k` trips in a row, the first from `level`. */
  function CooldownSum(level: nat, k: nat, tun: Tunables): int
    decreases k
  {
    if k == 0 then 0 else Cooldown(level, tun) + CooldownSum(level + 1, k - 1, tun)
  }

  /** One request of a serial run: reserved at one time, settled at a later one. */
  datatype Dispatch = Dispatch(reservedAt: real, settledAt: real, outcome: Outcome)

  /** The health gate of the deployed reservation function. */
  predicate ReserveGateOpen(row: Row, now: real) {
    Admission.GateOpen(Admission.SelectThenInsert, Admission.Gate(row.healthy, row.quarantinedUntil), now)
  }

  /** A serial run: each reservation passes the health gate on the row the previous one left, at the
      start time of its transaction (which may have begun earlier and waited for the row lock). */
  ghost predicate Serial(row: Row, ds: seq<Dispatch>, tun: Tunables)
    decreases ds
  {
    ds == [] ||
    (&& ReserveGateOpen(row, ds[0].reservedAt) && ds[0].reservedAt <= ds[0].settledAt
     && Serial(CommitRow(row, ds[0].settledAt, ds[0].outcome, tun), ds[1..], tun))
  }

  predicate DispatchTrips(row: Row, d: Dispatch, tun: Tunables) {
    d.outcome.Failure? && !IsBenign(d.outcome.kind) && Trips(row, d.settledAt, tun)
  }

  /** When the breaker tripped, in order. */
  function TripTimes(row: Row, ds: seq<Dispatch>, tun: Tunables): seq<real>
    decreases ds
  {
    if ds == [] then []
    else
      var rest := TripTimes(CommitRow(row, ds[0].settledAt, ds[0].outcome, tun), ds[1..], tun);
      if DispatchTrips(row, ds[0], tun) then [ds[0].settledAt] + rest else rest
  }

  lemma {:induction false} TripsWaitOutQuarantine(row: Row, ds: seq<Dispatch>, tun: Tunables, k: nat)
    requires Serial(row, ds, tun)
    requires forall i | 0 <= i < |ds| :: !ds[i].outcome.Success?
    requires k < |TripTimes(row, ds, tun)|
    ensures TripTimes(row, ds, tun)[k] >= row.quarantinedUntil + CooldownSum(row.cooldownLevel, k, tun) as real
    decreases ds
  {
    var d := ds[0];
    var next := CommitRow(row, d.settledAt, d.outcome, tun);
    if DispatchTrips(row, d, tun) {
      if k > 0 {
        TripsWaitOutQuarantine(next, ds[1..], tun, k - 1);
      }
    } else {
      TripsWaitOutQuarantine(next, ds[1..], tun, k);
    }
  }

  /** In a serial run with no success, trip number k + 1 comes at least the first k cooldowns after
      the first trip, because the reserve gate holds until each quarantine expires. */
  lemma {:induction false} TripsSpreadOut(row: Row, ds: seq<Dispatch>, tun: Tunables, k: nat)
    requires Serial(row, ds, tun)
    requires forall i | 0 <= i < |ds| :: !ds[i].outcome.Success?
    requires k < |TripTimes(row, ds, tun)|
    ensures TripTimes(row, ds, tun)[k] - TripTimes(row, ds, tun)[0]
      >= CooldownSum(row.cooldownLevel, k, tun) as real
    decreases ds
  {
    var d := ds[0];
    var next := CommitRow(row, d.settledAt, d.outcome, tun);
    if DispatchTrips(row, d, tun) {
      if k > 0 {
        TripsWaitOutQuarantine(next, ds[1..], tun, k - 1);
      }
    } else {
      TripsSpreadOut(next, ds[1..], tun, k);
    }
  }

  // ---------- who can shorten a quarantine ----------

  /** A failure shortens a quarantine in exactly one case: a trip, which assigns its cooldown, while a
      longer quarantine is in force. A benign failure never does. */
  lemma QuarantineShrinksIff(row: Row, now: real, outcome: Outcome, tun: Tunables)
    requires outcome.Failure?
    ensures CommitRow(row, now, outcome, tun).quarantinedUntil < row.quarantinedUntil
      <==> !IsBenign(outcome.kind) && Trips(row, now, tun)
           && row.quarantinedUntil > now + Cooldown(row.cooldownLevel, tun) as real
  {
    hide Cooldown, IsBenign;
  }

  /** So with one request at a time a failure never does: the gate was open when it was reserved.
      Module RequestOverlap has the case of two. */
  lemma SerialFailureNeverShortens(row: Row, d: Dispatch, tun: Tunables)
    requires Sane(tun) && d.outcome.Failure?
    requires ReserveGateOpen(row, d.reservedAt) && d.reservedAt <= d.settledAt
    ensures CommitRow(row, d.settledAt, d.outcome, tun).quarantinedUntil >= row.quarantinedUntil
  {
    CooldownInRange(row.cooldownLevel, tun);
    QuarantineShrinksIff(row, d.settledAt, d.outcome, tun);
  }

  // ---------- read side and reserve side agree ----------

  /** The health that `snapshot` shows is the reserve gate, for exactly the rows that are not
      "unhealthy with a negative quarantine stamp". */
  lemma SnapshotIsGateIff(row: Row)
    ensures (forall now: real :: EffectiveHealthy(row, now) <==> ReserveGateOpen(row, now))
      <==> (row.healthy || row.quarantinedUntil >= 0.0)
  {
    if !row.healthy && row.quarantinedUntil < 0.0 {
      assert ReserveGateOpen(row, 0.0) && !EffectiveHealthy(row, 0.0);
    }
  }

  /** On every reachable row they agree at every instant, and once the quarantine has expired the
      gate is open: the "unhealthy with no quarantine" guard never holds, so no provider stays
      dead although 0014 dropped the heal step. */
  lemma NoProviderStaysDead(ops: seq<Op>, n: nat, tun: Tunables, now: real)
    requires n <= |ops| && Timed(ops) && Sane(tun)
    ensures var row := RowAt(ops, n, tun);
      && EffectiveHealthy(row, now) == ReserveGateOpen(row, now) == (row.quarantinedUntil <= now)
      && !(!row.healthy && row.quarantinedUntil == 0.0)
  {
    ReachableRow(ops, n, tun);
  }

  /** Unhealthy with no quarantine: the reserve gate is shut for good. */
  predicate Dead(row: Row) {
    !row.healthy && row.quarantinedUntil == 0.0
  }

  /** No two failures ever lie within a negative window, so a threshold above one is never reached. */
  predicate NeverTrips(tun: Tunables) {
    tun.threshold >= 2 && tun.windowS < 0
  }

  lemma {:induction false} NeverTripsStaysHealthy(ops: seq<Op>, n: nat, tun: Tunables)
    requires n <= |ops| && Timed(ops) && NeverTrips(tun)
    ensures var row := RowAt(ops, n, tun);
      && row.healthy
      && (row.consecutiveFailures > 0 ==> exists i :: 0 <= i < n && ops[i].at == row.recentFailuresStartedAt)
    decreases n
  {
    if n > 0 {
      NeverTripsStaysHealthy(ops, n - 1, tun);
    }
  }

  /** The k-th of a burst of simultaneous failures. */
  lemma {:induction false} BurstRows(ops: seq<Op>, at: real, k: nat, tun: Tunables)
    requires at > 0.0 && !NeverTrips(tun) && k < Threshold(tun) && k <= |ops|
    requires forall i | 0 <= i < k :: ops[i] == Down(at)
    ensures var row := RowAt(ops, k, tun);
      && row.consecutiveFailures == k && row.cooldownLevel == 0
      && (k > 0 ==> row.recentFailuresStartedAt == at)
  {
    if k > 0 {
      BurstRows(ops, at, k - 1, tun);
    }
  }

  lemma NegativeCooldownKills(tun: Tunables) returns (ops: seq<Op>)
    requires !Sane(tun) && !NeverTrips(tun)
    ensures Timed(ops) && Dead(RowAt(ops, |ops|, tun))
  {
    assert Pow2(0) == 1;
    var at := -(Cooldown(0, tun) as real);
    var t := Threshold(tun);
    ops := seq(t, _ => Down(at));
    BurstRows(ops, at, t - 1, tun);
    assert ops[t - 1] == Down(at);
  }

  /** Exactly which tunables can leave a provider dead: a negative cooldown that a trip can reach. */
  lemma DeadRowReachableIff(tun: Tunables)
    ensures (exists ops: seq<Op> :: Timed(ops) && Dead(RowAt(ops, |ops|, tun)))
      <==> !Sane(tun) && !NeverTrips(tun)
  {
    if !Sane(tun) && !NeverTrips(tun) {
      var ops := NegativeCooldownKills(tun);
    }
    forall ops: seq<Op> | Timed(ops) && Dead(RowAt(ops, |ops|, tun))
      ensures !Sane(tun) && !NeverTrips(tun)
    {
      if Sane(tun) {
        ReachableRow(ops, |ops|, tun);
      }
      if NeverTrips(tun) {
        NeverTripsStaysHealthy(ops, |ops|, tun);
      }
    }
  }
}
