/** Who is ranked and with how many points, from a provider's settings, its snapshot and the rules alone. */
module RankingMeaning {
  import opened Common
  import opened RateRepo
  import opened StrategyDsl
  import opened Ranking

  /** A limit of none or zero is no limit. */
  predicate UsedUp(limit: Option<int>, used: int) {
    limit.Some? && limit.value != 0 && used >= limit.value
  }

  /** What is left of a limit, as a share of it. */
  function Left(limit: Option<int>, used: int): real {
    if limit.None? || limit.value <= 0 then 1.0
    else if used >= limit.value then 0.0
    else (limit.value - used) as real / limit.value as real
  }

  lemma RemainingMeans(limit: Option<int>, used: int)
    ensures Remaining(limit, used) == Left(limit, used)
  {
    if limit.Some? && limit.value > 0 {
      var l, u := limit.value as real, used as real;
      SameShare(u, l);
      assert (limit.value - used) as real == l - u;
      if used >= limit.value {
        AtLeastOne(u, l);
      }
    }
  }

  lemma SameShare(u: real, l: real)
    requires l > 0.0
    ensures 1.0 - u / l == (l - u) / l
    ensures u < l ==> (l - u) / l > 0.0
  {
    var used, left := u / l, (l - u) / l;
    assert used * l == u;
    assert left * l == l - u;
    Cancel(1.0 - used, left, l);
  }

  lemma Cancel(a: real, b: real, l: real)
    requires l > 0.0 && a * l == b * l
    ensures a == b
  {
    assert (a - b) * l == 0.0;
  }

  lemma AtLeastOne(u: real, l: real)
    requires u >= l > 0.0
    ensures u / l >= 1.0
  {
    assert (u / l) * l == u;
  }

  /** What a rule finds in each field. */
  lemma FieldsShow(c: Config, snap: ProviderSnapshot)
    ensures var ctx := Context(c, snap);
      && ctx.Keys == {"name", "enabled", "weight", "tags", "last_latency_ms", "latency_ema_ms", "requests_today",
                      "requests_this_minute", "rpd_remaining", "rpm_remaining", "tpd_remaining", "tokens_today",
                      "total_failures"}
      && ctx["name"] == JStr(c.name) && ctx["enabled"] == JBool(c.enabled) && ctx["weight"] == JNum(c.weight)
      && ctx["requests_today"] == JNum(snap.requestsToday as real)
      && ctx["requests_this_minute"] == JNum(snap.requestsThisMinute as real)
      && ctx["tokens_today"] == JNum(snap.tokensToday as real)
      && ctx["total_failures"] == JNum(snap.totalFailures as real)
      && ctx["latency_ema_ms"] == (match snap.latencyEmaMs case Some(x) => JNum(x) case None => JNull)
      && ctx["last_latency_ms"] == (match snap.lastLatencyMs case Some(x) => JNum(x as real) case None => JNull)
  {
    hide Remaining;
  }

  lemma SharesShow(c: Config, snap: ProviderSnapshot)
    ensures var ctx := Context(c, snap);
      && {"rpd_remaining", "rpm_remaining", "tpd_remaining"} <= ctx.Keys
      && ctx["rpd_remaining"] == JNum(Left(c.rpdLimit, snap.requestsToday))
      && ctx["rpm_remaining"] == JNum(Left(c.rpmLimit, snap.requestsThisMinute))
      && ctx["tpd_remaining"] == JNum(Left(c.tpdLimit, snap.tokensToday))
  {
    hide Remaining, Left, LastLatency;
    RemainingMeans(c.rpdLimit, snap.requestsToday);
    RemainingMeans(c.rpmLimit, snap.requestsThisMinute);
    RemainingMeans(c.tpdLimit, snap.tokensToday);
  }

  lemma TagsShow(c: Config, snap: ProviderSnapshot)
    ensures Context(c, snap)["tags"].JList?
    ensures forall tag :: JStr(tag) in Context(c, snap)["tags"].items <==> tag in c.tags
  {
    hide Remaining, LastLatency;
    var items := Context(c, snap)["tags"].items;
    forall tag ensures JStr(tag) in items <==> tag in c.tags {
      if tag in c.tags {
        var i :| 0 <= i < |c.tags| && c.tags[i] == tag;
        assert items[i] == JStr(tag);
      }
    }
  }

  /** Points for an answer time: the average, or the last one when there is no average. */
  function LatencyPoints(snap: ProviderSnapshot): real {
    var ms := if snap.latencyEmaMs.Some? && snap.latencyEmaMs.value != 0.0 then snap.latencyEmaMs
              else if snap.lastLatencyMs.Some? then Some(snap.lastLatencyMs.value as real) else None;
    match ms
    case None => 0.0
    case Some(x) => if x < 500.0 then 2.0 else if x < 1000.0 then 1.2 else if x < 2000.0 then 0.4 else -1.0
  }

  /** A tenth of a point per failure, at most two. */
  function FailurePoints(failures: int): real {
    if failures <= 0 then 0.0 else if failures >= 20 then 2.0 else failures as real / 10.0
  }

  lemma BaselineMeans(c: Config, snap: ProviderSnapshot)
    ensures Baseline(Context(c, snap)) ==
      c.weight + 1.5 * Left(c.rpdLimit, snap.requestsToday) + 2.0 * Left(c.tpdLimit, snap.tokensToday)
      + LatencyPoints(snap) - FailurePoints(snap.totalFailures)
  {
    hide Context, Baseline, Remaining;
    BaselineOfContext(c, snap);
    RemainingMeans(c.rpdLimit, snap.requestsToday);
    RemainingMeans(c.tpdLimit, snap.tokensToday);
    LatencyMeans(snap);
  }

  lemma LatencyMeans(snap: ProviderSnapshot)
    ensures LatencyBonus(SnapLatency(snap)) == LatencyPoints(snap)
  {
  }

  /** The rules let the provider through. */
  predicate RulesAllow(c: Config, w: World) {
    w.definition.Some? && c.name in w.snapshots ==>
      forall r | r in w.definition.value.require :: Holds(r, Context(c, w.snapshots[c.name]))
  }

  function RulePoints(c: Config, w: World): real {
    if w.definition.Some? && c.name in w.snapshots
    then HoldingWeights(w.definition.value.prefer, Context(c, w.snapshots[c.name])) else 0.0
  }

  /** A provider is ranked exactly when it is enabled, has a key, is healthy, has tokens left, has an adapter
      and is let through by the rules. */
  lemma RankedIff(c: Config, w: World)
    requires Parsed(w)
    ensures VerdictOn(c, w).Ranked? <==>
      && c.enabled && c.hasKey && c.name in w.snapshots && w.snapshots[c.name].healthy
      && !UsedUp(c.tpdLimit, w.snapshots[c.name].tokensToday)
      && c.name in w.registry && RulesAllow(c, w)
  {
    hide Context, Baseline, Holds, HoldingWeights, ScoreOf;
    if c.name in w.snapshots {
      RulesMean(c, w);
    }
  }

  /** A provider is reported as unavailable exactly when it is enabled and has a key, but is not known to be
      healthy or has no tokens left. */
  lemma UnavailableIff(c: Config, w: World)
    ensures VerdictOn(c, w).Unavailable? <==>
      && c.enabled && c.hasKey
      && (c.name in w.snapshots && w.snapshots[c.name].healthy ==> UsedUp(c.tpdLimit, w.snapshots[c.name].tokensToday))
  {
    hide ScoreFor;
  }

  lemma RulesMean(c: Config, w: World)
    requires Parsed(w) && c.name in w.snapshots
    ensures DslScore(w, Context(c, w.snapshots[c.name]))
      == if RulesAllow(c, w) then Total(RulePoints(c, w)) else Excluded
  {
    hide Context, Holds, HoldingWeights, ScoreOf;
    var ctx := Context(c, w.snapshots[c.name]);
    if w.definition.Some? {
      ContextIsTyped(c, w.snapshots[c.name]);
      ScoreMeans(w.definition.value, ctx);
    }
  }

  /** The points of a ranked provider. */
  lemma PointsMean(c: Config, w: World)
    requires Parsed(w) && VerdictOn(c, w).Ranked?
    ensures var snap := w.snapshots[c.name];
      var busy := if Key(w.user, c.name) in w.inFlight then w.inFlight[Key(w.user, c.name)] else 0;
      VerdictOn(c, w).score ==
        c.weight + 1.5 * Left(c.rpdLimit, snap.requestsToday) + 2.0 * Left(c.tpdLimit, snap.tokensToday)
        + LatencyPoints(snap) - FailurePoints(snap.totalFailures)
        + RulePoints(c, w)
        - (if busy > 0 then busy as real / 2.0 else 0.0)
        + (if w.preferred == Some(c.name) && c.name != "" then 100.0 else 0.0)
  {
    hide Context, Baseline, Holds, HoldingWeights, ScoreOf, Left, LatencyPoints, FailurePoints;
    RulesMean(c, w);
    BaselineMeans(c, w.snapshots[c.name]);
  }
}
