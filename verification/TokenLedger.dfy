/** The token ledger and the latency average kept in the stats row. */
module TokenLedger {
  import opened Common
  import opened Providers
  import opened StatsRow
  import opened Breaker

  /** Tokens of the successes among ops[..n] stamped `from` or later. */
  function TokensSince(ops: seq<Op>, n: nat, from: real): nat
    requires n <= |ops|
  {
    if n == 0 then 0
    else
      TokensSince(ops, n - 1, from)
        + if IsSuccess(ops[n - 1]) && ops[n - 1].at >= from then ops[n - 1].outcome.tokens else 0
  }

  lemma {:induction false} NothingSince(ops: seq<Op>, n: nat, from: real)
    requires n <= |ops|
    requires forall i | 0 <= i < n && IsSuccess(ops[i]) :: ops[i].at < from
    ensures TokensSince(ops, n, from) == 0
  {
    if n > 0 { NothingSince(ops, n - 1, from); }
  }

  lemma {:induction false} EarlierCountsMore(ops: seq<Op>, n: nat, from: real, earlier: real)
    requires n <= |ops| && earlier <= from
    ensures TokensSince(ops, n, from) <= TokensSince(ops, n, earlier)
  {
    if n > 0 { EarlierCountsMore(ops, n - 1, from, earlier); }
  }

  /** `tokens_today` is exactly the tokens of all successes since `tokens_day_start`, and all of
      those lie within 24 h of that anchor. */
  lemma {:induction false} LedgerIsExact(ops: seq<Op>, n: nat, tun: Tunables)
    requires n <= |ops| && Timed(ops)
    ensures var row := RowAt(ops, n, tun);
      && row.tokensToday == TokensSince(ops, n, row.tokensDayStart)
      && (forall i | 0 <= i < n && IsSuccess(ops[i]) :: ops[i].at < row.tokensDayStart + DAY)
      && row.tokensDayStart <= if n == 0 then 0.0 else ops[n - 1].at
  {
    if n > 0 {
      LedgerIsExact(ops, n - 1, tun);
      var before, after := RowAt(ops, n - 1, tun), RowAt(ops, n, tun);
      if IsSuccess(ops[n - 1]) && after.tokensDayStart != before.tokensDayStart {
        NothingSince(ops, n - 1, after.tokensDayStart);
      }
    }
  }

  /** The snapshot never shows more than was really spent in the trailing 24 hours. */
  lemma SnapshotWithinTrailingDay(ops: seq<Op>, n: nat, tun: Tunables, now: real)
    requires n <= |ops| && Timed(ops)
    ensures 0 <= TokensShown(RowAt(ops, n, tun), now) <= TokensSince(ops, n, now - DAY)
  {
    var row := RowAt(ops, n, tun);
    LedgerIsExact(ops, n, tun);
    if now - row.tokensDayStart < DAY {
      EarlierCountsMore(ops, n, row.tokensDayStart, now - DAY);
    }
  }

  /** One request of a serial run: ranked (with its tokens snapshot) at one time and settled at a
      later one. Ranking skips a provider whose shown tokens have reached its daily limit. */
  datatype RankedDispatch = RankedDispatch(rankedAt: real, settledAt: real, outcome: Outcome)

  ghost predicate RankedRun(row: Row, ds: seq<RankedDispatch>, tun: Tunables, tpdLimit: int)
    decreases ds
  {
    ds == [] ||
    (&& ds[0].rankedAt <= ds[0].settledAt
     && TokensShown(row, ds[0].rankedAt) < tpdLimit
     && RankedRun(CommitRow(row, ds[0].settledAt, ds[0].outcome, tun), ds[1..], tun, tpdLimit))
  }

  function RowAfter(row: Row, ds: seq<RankedDispatch>, tun: Tunables): Row
    decreases ds
  {
    if ds == [] then row else RowAfter(CommitRow(row, ds[0].settledAt, ds[0].outcome, tun), ds[1..], tun)
  }

  /** With one request at a time the daily token budget is overshot by less than one response. */
  lemma {:induction false} BudgetPlusOneResponse(
    row: Row, ds: seq<RankedDispatch>, tun: Tunables, tpdLimit: int, largest: nat)
    requires RankedRun(row, ds, tun, tpdLimit)
    requires tpdLimit > 0 && row.tokensToday < tpdLimit + largest
    requires forall i | 0 <= i < |ds| && ds[i].outcome.Success? :: ds[i].outcome.tokens <= largest
    ensures RowAfter(row, ds, tun).tokensToday < tpdLimit + largest
    decreases ds
  {
    if ds != [] {
      BudgetPlusOneResponse(CommitRow(row, ds[0].settledAt, ds[0].outcome, tun), ds[1..], tun, tpdLimit, largest);
    }
  }

  // ---------- latency average ----------

  function Latencies(ops: seq<Op>, n: nat): seq<int>
    requires n <= |ops|
  {
    if n == 0 then []
    else Latencies(ops, n - 1) + if IsSuccess(ops[n - 1]) then [ops[n - 1].outcome.latencyMs] else []
  }

  function Power(base: real, n: nat): real {
    if n == 0 then 1.0 else base * Power(base, n - 1)
  }

  /** The weight of sample `i` of `n`: the oldest keeps 0.7^(n-1), each later one 0.3 * 0.7^(n-1-i). */
  function Weight(n: nat, i: nat): real
    requires i < n
  {
    (if i == 0 then 1.0 else EMA_ALPHA) * Power(1.0 - EMA_ALPHA, n - 1 - i)
  }

  /** The weighted sum of the first `k` of `n` samples. */
  function WeightedSum(xs: seq<int>, n: nat, k: nat): real
    requires k <= n <= |xs|
  {
    if k == 0 then 0.0 else WeightedSum(xs, n, k - 1) + Weight(n, k - 1) * xs[k - 1] as real
  }

  /** One more sample scales every older weight by 0.7. */
  lemma {:induction false} OlderWeightsShrink(xs: seq<int>, n: nat, k: nat)
    requires k <= n < |xs|
    ensures WeightedSum(xs, n + 1, k) == (1.0 - EMA_ALPHA) * WeightedSum(xs, n, k)
  {
    if k > 0 {
      OlderWeightsShrink(xs, n, k - 1);
    }
  }

  lemma {:induction false} SamePrefixSameSum(xs: seq<int>, ys: seq<int>, n: nat, k: nat)
    requires k <= n <= |xs| && xs <= ys
    ensures WeightedSum(xs, n, k) == WeightedSum(ys, n, k)
  {
    if k > 0 { SamePrefixSameSum(xs, ys, n, k - 1); }
  }

  /** Appending one sample to the closed form is one step of the moving average. */
  lemma OneMoreSample(xs: seq<int>, latencyMs: int)
    ensures var ys := xs + [latencyMs];
      WeightedSum(ys, |ys|, |ys|)
        == NextEma(if xs == [] then None else Some(WeightedSum(xs, |xs|, |xs|)), latencyMs)
  {
    var m, ys := |xs|, xs + [latencyMs];
    assert Power(1.0 - EMA_ALPHA, 0) == 1.0;
    if m == 0 {
      assert WeightedSum(ys, 1, 0) == 0.0;
    } else {
      SamePrefixSameSum(xs, ys, m, m);
      OlderWeightsShrink(ys, m, m);
    }
  }

  /** `latency_ema_ms` equals its closed-form weighted sum over all success latencies. */
  lemma {:induction false} EmaClosedForm(ops: seq<Op>, n: nat, tun: Tunables)
    requires n <= |ops|
    ensures var xs := Latencies(ops, n);
      RowAt(ops, n, tun).latencyEmaMs
        == if xs == [] then None else Some(WeightedSum(xs, |xs|, |xs|))
  {
    if n > 0 {
      EmaClosedForm(ops, n - 1, tun);
      if IsSuccess(ops[n - 1]) {
        OneMoreSample(Latencies(ops, n - 1), ops[n - 1].outcome.latencyMs);
      } else {
        assert Latencies(ops, n) == Latencies(ops, n - 1);
      }
    }
  }

  /** And it stays between the least and the greatest success latency. */
  lemma {:induction false} EmaBetweenExtremes(ops: seq<Op>, n: nat, tun: Tunables, lo: int, hi: int)
    requires n <= |ops|
    requires forall i | 0 <= i < n && IsSuccess(ops[i]) :: lo <= ops[i].outcome.latencyMs <= hi
    ensures RowAt(ops, n, tun).latencyEmaMs.Some? ==>
      lo as real <= RowAt(ops, n, tun).latencyEmaMs.value <= hi as real
  {
    if n > 0 {
      EmaBetweenExtremes(ops, n - 1, tun, lo, hi);
    }
  }
}
