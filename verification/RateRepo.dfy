/** The rate repository: one transaction's calls, on the tables it sees, with the deployed (0014)
    reservation function. Interleavings of transactions are the subject of module Admission. */
module RateRepo {
  import opened Common
  import opened Windows
  import opened Providers
  import opened StatsRow
  import opened Breaker
  import Admission

  type Caps = Admission.Caps

  predicate UnderCap(events: set<Event>, key: Key, cap: Option<int>, now: real, width: real) {
    cap.Some? ==> |Since(events, key, now - width)| < cap.value
  }

  function RowOrFresh(stats: map<Key, Row>, key: Key): Row {
    if key in stats then stats[key] else FRESH
  }

  /** When a reservation is granted. */
  predicate Grants(stats: map<Key, Row>, events: set<Event>, key: Key, caps: Caps, now: real) {
    && ReserveGateOpen(RowOrFresh(stats, key), now)
    && UnderCap(events, key, caps.rpm, now, MINUTE)
    && UnderCap(events, key, caps.rpd, now, DAY)
  }

  datatype ProviderSnapshot = ProviderSnapshot(
    requestsToday: nat, requestsThisMinute: nat, lastErrorKind: Option<ErrorKind>,
    lastLatencyMs: Option<int>, latencyEmaMs: Option<real>, healthy: bool,
    quarantinedUntil: Option<real>, totalCalls: int, totalFailures: int, tokensToday: int)

  /** The read-only projection both snapshot calls make, given the two counts. */
  function Project(stats: map<Key, Row>, key: Key, now: real, rpm: nat, rpd: nat): ProviderSnapshot {
    if key !in stats then ProviderSnapshot(rpd, rpm, None, None, None, true, None, 0, 0, 0)
    else
      var row := stats[key];
      ProviderSnapshot(rpd, rpm, row.lastErrorKind, row.lastLatencyMs, row.latencyEmaMs,
        EffectiveHealthy(row, now),
        if row.quarantinedUntil > now then Some(row.quarantinedUntil) else None,
        row.totalCalls, row.totalFailures, TokensShown(row, now))
  }

  class RateRepository {
    var stats: map<Key, Row>
    var events: set<Event>
    var nextId: nat

    /** Ids in the table have all been handed out by the sequence. */
    ghost predicate Valid()
      reads this
    {
      forall e | e in events :: e.id < nextId
    }

    constructor ()
      ensures Valid() && stats == map[] && events == {}
    {
      stats, events, nextId := map[], {}, 0;
    }

    /** `freeai_try_reserve`: row, gate, the two window counts, then the insert. The row is created
        even when the reservation is then denied. */
    method TryReserve(key: Key, caps: Caps, now: real) returns (token: Option<nat>)
      requires Valid()
      modifies this
      ensures Valid()
      ensures stats == old(stats)[key := RowOrFresh(old(stats), key)]
      ensures token == if Grants(old(stats), old(events), key, caps, now) then Some(old(nextId)) else None
      ensures events == old(events) + if token.Some? then {Event(old(nextId), key, now)} else {}
      ensures nextId == old(nextId) + if token.Some? then 1 else 0
    {
      var quarantined, healthy := 0.0, true;
      if key in stats {
        quarantined, healthy := stats[key].quarantinedUntil, stats[key].healthy;
      } else {
        stats := stats[key := FRESH];
      }
      if quarantined > now {
        return None;
      }
      if !healthy && quarantined == 0.0 {
        return None;
      }
      if caps.rpm.Some? && |Since(events, key, now - MINUTE)| >= caps.rpm.value {
        return None;
      }
      if caps.rpd.Some? && |Since(events, key, now - DAY)| >= caps.rpd.value {
        return None;
      }
      events := events + {Event(nextId, key, now)};
      token := Some(nextId);
      nextId := nextId + 1;
    }

    /** The end of a dispatch. Without a stats row the UPDATE matches nothing. */
    method Commit(key: Key, now: real, outcome: Outcome, tun: Tunables)
      modifies this`stats
      ensures stats == if key in old(stats)
                       then old(stats)[key := ApplyOp(old(stats)[key], Settle(now, outcome), tun)]
                       else old(stats)
    {
      if key !in stats {
        return;
      }
      var row := stats[key];
      match outcome {
        case Success(latency, tokens) =>
          row := CommitSuccess(row, now, latency, tokens);
        case Failure(latency, kind, quarantineS) =>
          var values := CountFailure(row, latency, kind);
          if IsBenign(kind) {
            if Truthy(quarantineS) {
              values := values.(quarantinedUntil := MaxReal(row.quarantinedUntil, now + quarantineS.value));
            }
          } else {
            var within := row.consecutiveFailures > 0 && row.recentFailuresStartedAt > 0.0
              && now - row.recentFailuresStartedAt <= tun.windowS as real;
            var streak := if within then row.consecutiveFailures + 1 else 1;
            values := values.(consecutiveFailures := streak,
                              recentFailuresStartedAt := if within then row.recentFailuresStartedAt else now);
            if streak >= MaxInt(1, tun.threshold) {
              var level := if row.cooldownLevel <= 20 then row.cooldownLevel else 20;
              var cooldown := MinInt(tun.maxCooldownS, tun.baseCooldownS * Pow2(level));
              values := values.(healthy := false, quarantinedUntil := now + cooldown as real,
                                cooldownLevel := row.cooldownLevel + 1,
                                consecutiveFailures := 0, recentFailuresStartedAt := 0.0);
            }
          }
          row := values;
      }
      stats := stats[key := row];
    }

    /** Deletes exactly the reservation's own row. */
    method Rollback(id: nat)
      requires Valid()
      modifies this`events
      ensures Valid()
      ensures events == set e | e in old(events) && e.id != id
    {
      events := set e | e in events && e.id != id;
    }

    method Snapshot(key: Key, now: real) returns (snap: ProviderSnapshot)
      ensures snap == Project(stats, key, now,
                              |Since(events, key, now - MINUTE)|, |Since(events, key, now - DAY)|)
      ensures snap.requestsThisMinute == |Since(events, key, now - 60.0)|
      ensures snap.requestsToday == |Since(events, key, now - 86400.0)|
      ensures now >= 0.0 && (key in stats ==> stats[key].healthy || stats[key].quarantinedUntil >= 0.0)
        ==> snap.healthy == ReserveGateOpen(RowOrFresh(stats, key), now)
    {
      var rpm, rpd := |Since(events, key, now - MINUTE)|, |Since(events, key, now - DAY)|;
      snap := Project(stats, key, now, rpm, rpd);
    }

    /** One snapshot per name, with the counts of the given in-memory store (or none). */
    method SnapshotAll(user: int, names: seq<string>, now: real, counts: map<string, (nat, nat)>)
      returns (snaps: map<string, ProviderSnapshot>)
      ensures snaps == map name | name in names ::
        var c := if name in counts then counts[name] else (0, 0);
        Project(stats, Key(user, name), now, c.0, c.1)
      ensures forall name | name in names && name in counts ::
        snaps[name].requestsThisMinute == counts[name].0 && snaps[name].requestsToday == counts[name].1
    {
      snaps := map[];
      for i := 0 to |names|
        invariant snaps == map name | name in names[..i] ::
          var c := if name in counts then counts[name] else (0, 0);
          Project(stats, Key(user, name), now, c.0, c.1)
      {
        var c := if names[i] in counts then counts[names[i]] else (0, 0);
        snaps := snaps[names[i] := Project(stats, Key(user, names[i]), now, c.0, c.1)];
        assert names[..i + 1] == names[..i] + [names[i]];
      }
      assert names[..|names|] == names;
    }

    method ResetHealth(key: Key, now: real)
      modifies this`stats
      ensures stats == if key in old(stats)
                       then old(stats)[key := ApplyOp(old(stats)[key], Reset(now), DEFAULT_TUNABLES)]
                       else old(stats)
    {
      if key in stats {
        stats := stats[key := stats[key].(healthy := true, consecutiveFailures := 0,
                                          lastErrorKind := None, quarantinedUntil := 0.0)];
      }
    }

    method PurgeOldEvents(now: real, olderThanS: real) returns (count: nat)
      requires Valid()
      modifies this`events
      ensures Valid()
      ensures events == set e | e in old(events) && e.at >= now - olderThanS
      ensures count == |old(events) - events|
    {
      var doomed := set e | e in events && e.at < now - olderThanS;
      events := events - doomed;
      count := |doomed|;
      assert doomed == old(events) - events;
    }
  }

  /** Purging with the scheduled two-day horizon changes no count a later reservation makes. */
  lemma PurgeIsInvisible(events: set<Event>, kept: set<Event>, key: Key, purgedAt: real, now: real, width: real)
    requires kept == set e | e in events && e.at >= purgedAt - 2.0 * DAY
    requires purgedAt <= now && width <= DAY
    ensures Since(kept, key, now - width) == Since(events, key, now - width)
  {
  }

  /** A reservation that is rolled back leaves the table as it was. */
  lemma RollbackUndoesReserve(events: set<Event>, key: Key, now: real, id: nat)
    requires forall e | e in events :: e.id < id
    ensures (set e | e in events + {Event(id, key, now)} && e.id != id) == events
  {
  }

  /** What a snapshot shows: the two counts as given; and of a row the totals, the last outcome and average
      latency, a quarantine that is not over, today's tokens, and whether the provider is usable. Without a
      row the provider is new and healthy. */
  lemma SnapshotShows(stats: map<Key, Row>, key: Key, now: real, rpm: nat, rpd: nat)
    ensures var snap := Project(stats, key, now, rpm, rpd);
      && snap.requestsThisMinute == rpm && snap.requestsToday == rpd
      && (key !in stats ==>
            && snap.healthy && snap.quarantinedUntil == None && snap.lastErrorKind == None
            && snap.lastLatencyMs == None && snap.latencyEmaMs == None
            && snap.totalCalls == 0 && snap.totalFailures == 0 && snap.tokensToday == 0)
      && (key in stats ==>
            var row := stats[key];
            && snap.totalCalls == row.totalCalls && snap.totalFailures == row.totalFailures
            && snap.lastErrorKind == row.lastErrorKind && snap.lastLatencyMs == row.lastLatencyMs
            && snap.latencyEmaMs == row.latencyEmaMs
            && (snap.quarantinedUntil.Some? <==> row.quarantinedUntil > now)
            && (snap.quarantinedUntil.Some? ==> snap.quarantinedUntil.value == row.quarantinedUntil)
            && (snap.tokensToday == if now < row.tokensDayStart + 86400.0 then row.tokensToday else 0)
            && (snap.healthy <==> row.quarantinedUntil <= now && (row.healthy || row.quarantinedUntil > 0.0)))
  {
  }
}
