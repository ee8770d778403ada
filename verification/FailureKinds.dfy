/** What each kind of failure does to a provider's health, kind by kind. */
module FailureKinds {
  import opened Common
  import opened Providers
  import opened StatsRow
  import opened Breaker

  /** The caller's own doing, or a limit of the account or the model. */
  predicate SparesProvider(kind: ErrorKind) {
    || kind == RateLimited || kind == ClientError || kind == ContentFiltered
    || kind == AuthError || kind == QuotaExhausted || kind == ModelUnavailable
  }

  /** The provider is failing. */
  predicate BlamesProvider(kind: ErrorKind) {
    || kind == ServerError || kind == NetworkError || kind == ParsingError
    || kind == EmptyResponse || kind == UnknownError
  }

  lemma EveryKindIsOneOrTheOther(kind: ErrorKind)
    ensures SparesProvider(kind) <==> !BlamesProvider(kind)
    ensures IsBenign(kind) <==> SparesProvider(kind)
  {
  }

  // ---------- failures that never touch the breaker ----------

  /** Operation `i` asks for a quarantine that ends at `until`. */
  predicate AsksUntil(op: Op, until: real) {
    && op.Settle? && op.outcome.Failure? && op.outcome.quarantineS.Some?
    && op.outcome.quarantineS.value != 0.0 && until == op.at + op.outcome.quarantineS.value
  }

  /** No success or reset among ops[i..n]. */
  predicate StillStanding(ops: seq<Op>, i: nat, n: nat)
    requires i <= n <= |ops|
  {
    forall j | i <= j < n :: ops[j].Settle? && ops[j].outcome.Failure?
  }

  /** `until` is the greatest end asked for since the last success or reset, or zero. */
  ghost predicate GreatestAsked(ops: seq<Op>, n: nat, until: real)
    requires n <= |ops|
  {
    && until >= 0.0
    && (forall i, t | 0 <= i < n && StillStanding(ops, i, n) && AsksUntil(ops[i], t) :: t <= until)
    && (until == 0.0 || exists i :: 0 <= i < n && StillStanding(ops, i, n) && AsksUntil(ops[i], until))
  }

  /** Whatever their number and however close they come, failures of these kinds leave a provider healthy,
      with no streak and no level; it is quarantined exactly as long as they asked for. */
  lemma {:induction false} SparedProviderStaysHealthy(ops: seq<Op>, n: nat, tun: Tunables)
    requires n <= |ops|
    requires forall i | 0 <= i < n && ops[i].Settle? && ops[i].outcome.Failure? :: SparesProvider(ops[i].outcome.kind)
    ensures var row := RowAt(ops, n, tun);
      && row.healthy && row.consecutiveFailures == 0 && row.cooldownLevel == 0
      && GreatestAsked(ops, n, row.quarantinedUntil)
  {
    hide CommitSuccess, CommitBreaker, GreatestAsked;
    if n == 0 {
      NothingAskedYet(ops);
    } else {
      SparedProviderStaysHealthy(ops, n - 1, tun);
      var row, op := RowAt(ops, n - 1, tun), ops[n - 1];
      if op.Settle? && op.outcome.Failure? {
        EveryKindIsOneOrTheOther(op.outcome.kind);
        OneMoreAsked(ops, n, row.quarantinedUntil);
      } else {
        ClearedAsks(ops, n);
        ClearedRow(row, op, tun);
      }
    }
  }

  lemma NothingAskedYet(ops: seq<Op>)
    ensures GreatestAsked(ops, 0, 0.0)
  {
  }

  lemma ClearedAsks(ops: seq<Op>, n: nat)
    requires 0 < n <= |ops| && !(ops[n - 1].Settle? && ops[n - 1].outcome.Failure?)
    ensures GreatestAsked(ops, n, 0.0)
  {
    forall i | 0 <= i < n ensures !StillStanding(ops, i, n) {
    }
  }

  lemma ClearedRow(row: Row, op: Op, tun: Tunables)
    requires op.Reset? || op.outcome.Success?
    ensures var after := ApplyOp(row, op, tun);
      && after.healthy && after.consecutiveFailures == 0 && after.quarantinedUntil == 0.0
      && after.cooldownLevel == if op.Reset? then row.cooldownLevel else 0
  {
  }

  lemma OneMoreAsked(ops: seq<Op>, n: nat, before: real)
    requires 0 < n <= |ops| && ops[n - 1].Settle? && ops[n - 1].outcome.Failure?
    requires GreatestAsked(ops, n - 1, before)
    ensures var q := ops[n - 1].outcome.quarantineS;
      GreatestAsked(ops, n, if q.Some? && q.value != 0.0 then MaxReal(before, ops[n - 1].at + q.value) else before)
  {
    var op := ops[n - 1];
    forall i | 0 <= i < n - 1 ensures StillStanding(ops, i, n) <==> StillStanding(ops, i, n - 1) {
    }
    assert StillStanding(ops, n - 1, n);
    if op.outcome.quarantineS.Some? {
      assert op.outcome.quarantineS.value != 0.0 ==> AsksUntil(op, op.at + op.outcome.quarantineS.value);
    }
  }

  // ---------- failures that feed it ----------

  /** A failure that blames the provider, at `now`. */
  lemma BlamedFailureCounts(
    row: Row, now: real, latencyMs: int, kind: ErrorKind, quarantineS: Option<real>, tun: Tunables)
    requires BlamesProvider(kind)
    ensures var after := CommitRow(row, now, Failure(latencyMs, kind, quarantineS), tun);
      var joins := row.consecutiveFailures > 0 && row.recentFailuresStartedAt > 0.0
        && now - row.recentFailuresStartedAt <= tun.windowS as real;
      var streak := if joins then row.consecutiveFailures + 1 else 1;
      var limit := if tun.threshold <= 1 then 1 else tun.threshold;
      if streak < limit then
        && after.consecutiveFailures == streak
        && after.recentFailuresStartedAt == (if joins then row.recentFailuresStartedAt else now)
        && after.healthy == row.healthy && after.quarantinedUntil == row.quarantinedUntil
        && after.cooldownLevel == row.cooldownLevel
      else
        && !after.healthy && after.cooldownLevel == row.cooldownLevel + 1
        && after.consecutiveFailures == 0 && after.recentFailuresStartedAt == 0.0
        && after.quarantinedUntil == now + Cooldown(row.cooldownLevel, tun) as real
  {
  }

  /** As many of them at one instant as the threshold says take a fresh provider out for the base
      cool-down; one fewer do not. */
  lemma {:induction false} BurstTripsFresh(ops: seq<Op>, n: nat, at: real, tun: Tunables)
    requires n <= |ops| && at > 0.0 && tun.windowS >= 0
    requires forall i | 0 <= i < n ::
      ops[i].Settle? && ops[i].at == at && ops[i].outcome.Failure? && BlamesProvider(ops[i].outcome.kind)
    requires n <= (if tun.threshold <= 1 then 1 else tun.threshold)
    ensures var row, limit := RowAt(ops, n, tun), if tun.threshold <= 1 then 1 else tun.threshold;
      && row.healthy == (n < limit)
      && row.consecutiveFailures == (if n < limit then n else 0)
      && row.cooldownLevel == (if n < limit then 0 else 1)
      && (0 < n < limit ==> row.recentFailuresStartedAt == at)
      && row.quarantinedUntil ==
           (if n < limit then 0.0 else at + MinInt(tun.maxCooldownS, tun.baseCooldownS) as real)
  {
    hide CommitRow;
    if n > 0 {
      BurstTripsFresh(ops, n - 1, at, tun);
      var o := ops[n - 1].outcome;
      BlamedFailureCounts(RowAt(ops, n - 1, tun), at, o.latencyMs, o.kind, o.quarantineS, tun);
      assert Pow2(0) == 1;
    }
  }

  /** Each trip in a row doubles the cool-down, up to the maximum and for twenty levels. */
  lemma CooldownDoubles(level: nat, tun: Tunables)
    requires tun.baseCooldownS >= 0
    ensures Cooldown(0, tun) == MinInt(tun.maxCooldownS, tun.baseCooldownS)
    ensures level < 20 ==>
      Cooldown(level + 1, tun) ==
        if Cooldown(level, tun) == tun.maxCooldownS then tun.maxCooldownS
        else MinInt(tun.maxCooldownS, 2 * Cooldown(level, tun))
    ensures level >= 20 ==> Cooldown(level, tun) == Cooldown(20, tun)
  {
    assert Pow2(0) == 1;
    if level < 20 {
      var uncapped := tun.baseCooldownS * Pow2(level);
      assert Pow2(level + 1) == 2 * Pow2(level);
      Doubled(tun.baseCooldownS, Pow2(level));
      assert uncapped >= 0 by { Nonnegative(tun.baseCooldownS, Pow2(level)); }
    }
  }

  /** With the settings the table starts with: three such failures within 300 s of the first take a fresh
      provider out for 30 s, two do not; and no cool-down is longer than an hour. */
  lemma DefaultsTripAtThree(kind: ErrorKind, at: real, second: real, third: real)
    requires BlamesProvider(kind) && 0.0 < at <= second <= third && second <= at + 300.0
    ensures var fail := (t: real) => Settle(t, Failure(0, kind, None));
      var ops := [fail(at), fail(second), fail(third)];
      && RowAt(ops, 2, DEFAULT_TUNABLES).healthy
      && (third <= at + 300.0 ==>
            && !RowAt(ops, 3, DEFAULT_TUNABLES).healthy
            && RowAt(ops, 3, DEFAULT_TUNABLES).quarantinedUntil == third + 30.0)
      && (third > at + 300.0 ==> RowAt(ops, 3, DEFAULT_TUNABLES).healthy)
    ensures Cooldown(6, DEFAULT_TUNABLES) == 1920 && Cooldown(7, DEFAULT_TUNABLES) == 3600
  {
    hide CommitRow;
    var fail := (t: real) => Settle(t, Failure(0, kind, None));
    var ops := [fail(at), fail(second), fail(third)];
    assert RowAt(ops, 0, DEFAULT_TUNABLES) == FRESH;
    BlamedFailureCounts(FRESH, at, 0, kind, None, DEFAULT_TUNABLES);
    BlamedFailureCounts(RowAt(ops, 1, DEFAULT_TUNABLES), second, 0, kind, None, DEFAULT_TUNABLES);
    BlamedFailureCounts(RowAt(ops, 2, DEFAULT_TUNABLES), third, 0, kind, None, DEFAULT_TUNABLES);
    assert Pow2(0) == 1;
    assert Pow2(6) == 64 && Pow2(7) == 128;
  }

  lemma Doubled(a: int, b: int)
    ensures a * (2 * b) == 2 * (a * b)
  {
  }

  lemma Nonnegative(a: int, b: int)
    requires a >= 0 && b >= 0
    ensures a * b >= 0
  {
  }

  // ---------- the totals ----------

  function Count(ops: seq<Op>, n: nat, p: Op -> bool): nat
    requires n <= |ops|
  {
    if n == 0 then 0 else Count(ops, n - 1, p) + if p(ops[n - 1]) then 1 else 0
  }

  /** `total_calls` counts every outcome since the row was created, `total_failures` the failures of every
      kind; and the last error and latency are those of the last outcome. */
  lemma {:induction false} TotalsCountAll(ops: seq<Op>, n: nat, tun: Tunables)
    requires n <= |ops|
    ensures var row := RowAt(ops, n, tun);
      && row.totalCalls == Count(ops, n, (op: Op) => op.Settle?)
      && row.totalFailures == Count(ops, n, (op: Op) => op.Settle? && op.outcome.Failure?)
      && (n > 0 ==>
            row.lastErrorKind == match ops[n - 1]
                                 case Settle(_, Failure(_, kind, _)) => Some(kind)
                                 case _ => None)
      && (n > 0 && ops[n - 1].Settle? ==> row.lastLatencyMs == Some(ops[n - 1].outcome.latencyMs))
  {
    if n > 0 {
      TotalsCountAll(ops, n - 1, tun);
    }
  }
}
