/** The `provider_stats` row of one (user, provider) and what each repository call does to it. */
module StatsRow {
  import opened Common
  import opened Providers

  /** Circuit-breaker tunables of the application configuration. */
  datatype Tunables = Tunables(threshold: int, windowS: int, baseCooldownS: int, maxCooldownS: int)

  const DEFAULT_TUNABLES := Tunables(3, 300, 30, 3600)

  datatype Row = Row(
    healthy: bool, consecutiveFailures: int, recentFailuresStartedAt: real, cooldownLevel: nat,
    quarantinedUntil: real, lastErrorKind: Option<ErrorKind>,
    lastLatencyMs: Option<int>, latencyEmaMs: Option<real>, totalCalls: int, totalFailures: int,
    tokensToday: int, tokensDayStart: real)

  /** Column defaults of an inserted row. */
  const FRESH := Row(true, 0, 0.0, 0, 0.0, None, None, None, 0, 0, 0, 0.0)

  /** What a dispatch came to. */
  datatype Outcome =
    | Success(latencyMs: int, tokens: nat)
    | Failure(latencyMs: int, kind: ErrorKind, quarantineS: Option<real>)

  const EMA_ALPHA := 0.3

  function NextEma(ema: Option<real>, latencyMs: int): real {
    if ema.None? then latencyMs as real
    else EMA_ALPHA * latencyMs as real + (1.0 - EMA_ALPHA) * ema.value
  }

  function CommitSuccess(row: Row, now: real, latencyMs: int, tokens: nat): Row {
    var rolled := now - row.tokensDayStart >= DAY;
    row.(lastLatencyMs := Some(latencyMs), latencyEmaMs := Some(NextEma(row.latencyEmaMs, latencyMs)),
         lastErrorKind := None, consecutiveFailures := 0, recentFailuresStartedAt := 0.0,
         cooldownLevel := 0, healthy := true, quarantinedUntil := 0.0,
         totalCalls := row.totalCalls + 1,
         tokensToday := if rolled then tokens else row.tokensToday + tokens,
         tokensDayStart := if rolled then now else row.tokensDayStart)
  }

  function CountFailure(row: Row, latencyMs: int, kind: ErrorKind): Row {
    row.(lastLatencyMs := Some(latencyMs), lastErrorKind := Some(kind),
         totalCalls := row.totalCalls + 1, totalFailures := row.totalFailures + 1)
  }

  /** A benign failure leaves the breaker alone; an explicit quarantine can only extend the
      current one. */
  function CommitBenign(row: Row, now: real, latencyMs: int, kind: ErrorKind, quarantineS: Option<real>): Row {
    var counted := CountFailure(row, latencyMs, kind);
    if Truthy(quarantineS)
    then counted.(quarantinedUntil := MaxReal(row.quarantinedUntil, now + quarantineS.value))
    else counted
  }

  function Threshold(tun: Tunables): int {
    MaxInt(1, tun.threshold)
  }

  /** The failure at `now` joins the current streak. The window is anchored at the streak's first
      failure. */
  predicate WithinWindow(row: Row, now: real, tun: Tunables) {
    && row.consecutiveFailures > 0
    && row.recentFailuresStartedAt > 0.0
    && now - row.recentFailuresStartedAt <= tun.windowS as real
  }

  function NewStreak(row: Row, now: real, tun: Tunables): int {
    if WithinWindow(row, now, tun) then row.consecutiveFailures + 1 else 1
  }

  predicate Trips(row: Row, now: real, tun: Tunables) {
    NewStreak(row, now, tun) >= Threshold(tun)
  }

  function Cooldown(level: nat, tun: Tunables): int {
    MinInt(tun.maxCooldownS, tun.baseCooldownS * Pow2(if level <= 20 then level else 20))
  }

  function CommitBreaker(row: Row, now: real, latencyMs: int, kind: ErrorKind, tun: Tunables): Row {
    var counted := CountFailure(row, latencyMs, kind);
    if Trips(row, now, tun) then
      counted.(healthy := false, quarantinedUntil := now + Cooldown(row.cooldownLevel, tun) as real,
               cooldownLevel := row.cooldownLevel + 1,
               consecutiveFailures := 0, recentFailuresStartedAt := 0.0)
    else
      counted.(consecutiveFailures := NewStreak(row, now, tun),
               recentFailuresStartedAt :=
                 if WithinWindow(row, now, tun) then row.recentFailuresStartedAt else now)
  }

  function CommitRow(row: Row, now: real, outcome: Outcome, tun: Tunables): Row {
    match outcome
    case Success(latency, tokens) => CommitSuccess(row, now, latency, tokens)
    case Failure(latency, kind, quarantine) =>
      if IsBenign(kind) then CommitBenign(row, now, latency, kind, quarantine)
      else CommitBreaker(row, now, latency, kind, tun)
  }

  /** An operator reset. It leaves `cooldownLevel` and `recentFailuresStartedAt` as they are. */
  function ResetRow(row: Row): Row {
    row.(healthy := true, consecutiveFailures := 0, lastErrorKind := None, quarantinedUntil := 0.0)
  }

  // ---------- reads ----------

  /** The health shown by `snapshot` and `snapshot_all`. */
  predicate EffectiveHealthy(row: Row, now: real) {
    !(row.quarantinedUntil > now) && (row.healthy || row.quarantinedUntil > 0.0)
  }

  function TokensShown(row: Row, now: real): int {
    if now - row.tokensDayStart < DAY then row.tokensToday else 0
  }
}
