/** What a chat request leaves behind for each provider it visited, in plain figures. */
module Aftermath {
  import opened Common
  import opened Windows
  import opened Providers
  import opened StatsRow
  import opened RateRepo
  import opened Upstream
  import opened InFlight
  import opened Dispatch
  import opened DispatchProperties
  import opened ModelOutcomes
  import opened FailureKinds
  import opened ServeRequest
  import Breaker
  import ModelCooldowns

  /** How long a failure that spares the provider keeps its user away from it: a day for bad credentials;
      for a limit or an empty quota what the error says, or else a minute, an hour, or six hours for an
      empty account; an hour when no model is left; and no time for a rejected or filtered request. */
  function DueWait(e: ProviderError, namedModel: bool): real {
    if e.kind == AuthError then 86400.0
    else if e.kind == RateLimited then HintOr(e, 60.0)
    else if e.kind == QuotaExhausted then HintOr(e, if e.status == Some(402) then 21600.0 else 3600.0)
    else if e.kind == ModelUnavailable && !namedModel then 3600.0
    else 0.0
  }

  /** The back-off that `FailedIsLeftAlone` speaks of: that time, or the cool-down of a tripped breaker. */
  lemma BackOffMeans(inc: Incoming, k: nat, e: ProviderError, tb: Tables)
    requires k < |inc.ranked|
    ensures var row, due := RowOrFresh(tb.stats, KeyOf(inc, k)), DueWait(e, inc.explicit.Some?);
      BackOff(inc, k, e, tb) ==
        if SparesProvider(e.kind) then (if due != 0.0 then Some(due) else None)
        else if Trips(row, inc.ranked[k].settledAt, inc.tun) then Some(Cooldown(row.cooldownLevel, inc.tun) as real)
        else None
  {
  }

  /** Fewer events than the cap in the seconds before the request, if there is a cap. */
  predicate HasRoom(events: set<Event>, key: Key, cap: Option<int>, start: real, seconds: real) {
    cap.Some? ==> |set e | e in events && e.key == key && e.at >= start - seconds| < cap.value
  }

  /** A visited provider with a usable model is given a reservation exactly when, at the start of the request,
      its quarantine is over, it is not unhealthy without one, and both its caps have room. */
  lemma GrantedIff(inc: Incoming, faced: seq<Candidate>, seen: seq<Sight>, k: nat, tb: Tables,
                   calls: seq<ModelCooldowns.Cooling>, since: real)
    requires AsAtStart(inc, faced, seen, tb, calls, since) && k < |faced| && faced[k].models != []
    ensures var key, row, caps := KeyOf(inc, k), RowOrFresh(tb.stats, KeyOf(inc, k)), inc.ranked[k].caps;
      faced[k].granted <==>
        && row.quarantinedUntil <= inc.start && (row.healthy || row.quarantinedUntil != 0.0)
        && HasRoom(tb.events, key, caps.rpm, inc.start, 60.0)
        && HasRoom(tb.events, key, caps.rpd, inc.start, 86400.0)
    ensures faced[k].models == ModelCooldowns.UsableModels(
      if seen[k].forgotten then [] else calls, inc.user, inc.ranked[k].name, inc.ranked[k].chain, inc.explicit,
      seen[k].at)
  {
    hide ModelCooldowns.UsableModels;
    assert faced[k] == CandidateAt(inc, k, tb, if seen[k].forgotten then [] else calls, seen[k].at);
  }

  /** The row of a provider at the end of a request. */
  function RowAfter(inc: Incoming, faced: seq<Candidate>, streaks: map<Key, nat>, k: nat, tb: Tables): Row
    requires FacesRanked(inc, faced) && k < |faced|
  {
    RowOrFresh(TablesAfter(inc, faced, streaks, |faced|, tb).stats, KeyOf(inc, k))
  }

  /** A healthy provider that failed a request in this way, with no 429 just before, takes reservations
      again exactly when that time is over. */
  lemma OpensExactlyAfter(inc: Incoming, faced: seq<Candidate>, streaks: map<Key, nat>, k: nat, tb: Tables, now: real)
    requires FacesRanked(inc, faced) && DistinctProviders(inc.ranked) && k < |faced|
    requires FateOf(faced[k]).Fails? && SparesProvider(FateOf(faced[k]).error.kind)
    requires KeyOf(inc, k) !in After(RequestOf(inc, faced), streaks, k).streaks
    requires var row := RowOrFresh(tb.stats, KeyOf(inc, k));
      row.healthy && row.quarantinedUntil <= inc.ranked[k].settledAt
    requires now >= inc.ranked[k].settledAt
    ensures Breaker.ReserveGateOpen(RowAfter(inc, faced, streaks, k, tb), now)
      <==> now >= inc.ranked[k].settledAt + DueWait(FateOf(faced[k]).error, inc.explicit.Some?)
  {
    hide After, ModelsFrom, TablesAfter;
    var id := EachLeavesItsOwn(inc, faced, streaks, k, tb);
  }

  /** And the streak of 429s keeps it away at least a minute doubled with each one. */
  lemma SecondLimitWaitsLonger(inc: Incoming, faced: seq<Candidate>, streaks: map<Key, nat>, k: nat, tb: Tables,
                               now: real)
    requires FacesRanked(inc, faced) && DistinctProviders(inc.ranked) && k < |faced|
    requires FateOf(faced[k]).Fails? && FateOf(faced[k]).error.kind == RateLimited
    requires var before := After(RequestOf(inc, faced), streaks, k).streaks;
      KeyOf(inc, k) in before && before[KeyOf(inc, k)] == 1
    requires now < inc.ranked[k].settledAt + 120.0
    ensures !Breaker.ReserveGateOpen(RowAfter(inc, faced, streaks, k, tb), now)
  {
    hide After, ModelsFrom, TablesAfter;
    var id := EachLeavesItsOwn(inc, faced, streaks, k, tb);
    assert Pow2(1) == 2 by { assert Pow2(0) == 1; }
  }

  /** An answer is credited: its tokens to the day they fall in, its latency to the average, and the
      provider is healthy with everything that was held against it gone. */
  lemma AnswerIsCredited(inc: Incoming, faced: seq<Candidate>, streaks: map<Key, nat>, k: nat, tb: Tables)
    requires FacesRanked(inc, faced) && DistinctProviders(inc.ranked) && k < |faced| && FateOf(faced[k]).Answers?
    ensures var before, after := RowOrFresh(tb.stats, KeyOf(inc, k)), RowAfter(inc, faced, streaks, k, tb);
      var p, r := inc.ranked[k], FateOf(faced[k]).response;
      var newDay := p.settledAt - before.tokensDayStart >= 86400.0;
      && after.tokensToday == (if newDay then 0 else before.tokensToday) + r.promptTokens + r.completionTokens
      && after.tokensDayStart == (if newDay then p.settledAt else before.tokensDayStart)
      && after.latencyEmaMs == Some(if before.latencyEmaMs.None? then p.latencyMs as real
                                    else 0.3 * p.latencyMs as real + 0.7 * before.latencyEmaMs.value)
      && after.lastLatencyMs == Some(p.latencyMs) && after.lastErrorKind == None
      && after.healthy && after.quarantinedUntil == 0.0 && after.cooldownLevel == 0
      && after.consecutiveFailures == 0 && after.recentFailuresStartedAt == 0.0
      && after.totalCalls == before.totalCalls + 1 && after.totalFailures == before.totalFailures
  {
    hide After, ModelsFrom, TablesAfter;
    var id := EachLeavesItsOwn(inc, faced, streaks, k, tb);
  }

  /** A provider that was refused, or was being tried when the request was interrupted, keeps its row, or
      gets a fresh one; one with no usable model gets none. */
  lemma UndecidedKeepsItsRow(inc: Incoming, faced: seq<Candidate>, streaks: map<Key, nat>, k: nat, tb: Tables)
    requires FacesRanked(inc, faced) && DistinctProviders(inc.ranked) && k < |faced|
    requires FateOf(faced[k]).Skips? || FateOf(faced[k]).Interrupts?
    ensures var end, key := TablesAfter(inc, faced, streaks, |faced|, tb), KeyOf(inc, k);
      if faced[k].models == [] then
        (key in end.stats <==> key in tb.stats) && (key in tb.stats ==> end.stats[key] == tb.stats[key])
      else key in end.stats && end.stats[key] == if key in tb.stats then tb.stats[key] else FRESH
  {
    hide After, ModelsFrom, TablesAfter;
    var id := EachLeavesItsOwn(inc, faced, streaks, k, tb);
  }

  /** A provider is charged one event exactly for an answer or a failure; it is charged nothing when it was
      skipped or the request was interrupted. */
  lemma ChargedIff(inc: Incoming, faced: seq<Candidate>, streaks: map<Key, nat>, k: nat, tb: Tables, lo: real)
    requires FacesRanked(inc, faced) && DistinctProviders(inc.ranked) && k < |faced| && lo <= inc.start
    requires forall e | e in tb.events :: e.id < tb.nextId
    ensures var end, key, fate := TablesAfter(inc, faced, streaks, |faced|, tb), KeyOf(inc, k), FateOf(faced[k]);
      |Since(end.events, key, lo)|
        == |Since(tb.events, key, lo)| + if fate.Answers? || fate.Fails? then 1 else 0
  {
    hide After, ModelsFrom, TablesAfter, CommitRow, OutcomeOf;
    var id := EachLeavesItsOwn(inc, faced, streaks, k, tb);
    var end, key, fate := TablesAfter(inc, faced, streaks, |faced|, tb), KeyOf(inc, k), FateOf(faced[k]);
    var row := Event(id, key, inc.start);
    if fate.Answers? || fate.Fails? {
      assert Since(end.events, key, lo) == Since(tb.events, key, lo) + {row};
    } else {
      assert Since(end.events, key, lo) == Since(tb.events, key, lo);
    }
  }
}
