/** One chat request end to end: the dispatch loop on the cool-down memory and on the rate tables of its
    transaction, where what a candidate may do is read from them when its turn comes. */
module ServeRequest {
  import opened Common
  import opened Windows
  import opened Providers
  import opened StatsRow
  import opened RateRepo
  import opened ModelCooldowns
  import opened Upstream
  import opened InFlight
  import opened Dispatch
  import opened DispatchProperties
  import Breaker

  /** A ranked provider: its configuration and model chain, what its upstream would answer, and the
      latency and wall-clock time its outcome would be recorded with. */
  datatype Provider = Provider(
    name: string, chain: seq<string>, caps: Caps, maxRetries: int, perModelQuota: bool,
    upstream: nat -> Calls, latencyMs: int, settledAt: real)

  /** A request, with the start of its transaction and the breaker's settings. */
  datatype Incoming = Incoming(
    user: int, ranked: seq<Provider>, fallback: bool, explicit: Option<string>, unhealthy: seq<string>,
    start: real, tun: Tunables)

  datatype Tables = Tables(stats: map<Key, Row>, events: set<Event>, nextId: nat)

  /** When a candidate's models were chosen, and whether the memory had been cleared by then. */
  datatype Sight = Sight(at: real, forgotten: bool)

  predicate DistinctProviders(ps: seq<Provider>) {
    forall i, j | 0 <= i < j < |ps| :: ps[i].name != ps[j].name
  }

  function KeyOf(inc: Incoming, i: nat): Key
    requires i < |inc.ranked|
  {
    Key(inc.user, inc.ranked[i].name)
  }

  /** The candidate that provider `i` is, on these tables and this memory at `at`. */
  function CandidateAt(inc: Incoming, i: nat, tb: Tables, calls: seq<Cooling>, at: real): Candidate
    requires i < |inc.ranked|
  {
    var p := inc.ranked[i];
    var models := UsableModels(calls, inc.user, p.name, p.chain, inc.explicit, at);
    Candidate(p.name, models,
              models != [] && Grants(tb.stats, tb.events, KeyOf(inc, i), p.caps, inc.start),
              p.maxRetries, p.perModelQuota, p.upstream)
  }

  function RequestOf(inc: Incoming, faced: seq<Candidate>): Request {
    Request(inc.user, faced, inc.fallback, inc.explicit.Some?, inc.unhealthy)
  }

  // ---------- the tables ----------

  function OutcomeOf(inc: Incoming, i: nat, result: Result, streaks: map<Key, nat>): Outcome
    requires i < |inc.ranked| && !result.Aborted?
  {
    var p := inc.ranked[i];
    match result
    case Got(r) => Success(p.latencyMs, r.promptTokens + r.completionTokens)
    case Lost(e) =>
      var all := AllModelsUnavailable(RequestOf(inc, []), e);
      Failure(p.latencyMs, e.kind, Quarantine(streaks, KeyOf(inc, i), e, all).0)
  }

  /** What turn `i` does to the tables: a reservation tried creates the row; a granted one adds an event,
      and its outcome is recorded, or (when the request was interrupted) the event is deleted again. */
  function TurnTables(inc: Incoming, i: nat, c: Candidate, streaks: map<Key, nat>, tb: Tables): Tables
    requires i < |inc.ranked|
  {
    if c.models == [] then tb
    else
      var key := KeyOf(inc, i);
      var row := RowOrFresh(tb.stats, key);
      if !c.granted then tb.(stats := tb.stats[key := row])
      else
        var result := ModelsFrom(c, 0, 0, []).result;
        if result.Aborted? then tb.(stats := tb.stats[key := row], nextId := tb.nextId + 1)
        else
          var after := CommitRow(row, inc.ranked[i].settledAt, OutcomeOf(inc, i, result, streaks), inc.tun);
          Tables(tb.stats[key := after], tb.events + {Event(tb.nextId, key, inc.start)}, tb.nextId + 1)
  }

  predicate Within(inc: Incoming, faced: seq<Candidate>) {
    |faced| <= |AttemptsOf(inc.ranked, inc.fallback)|
  }

  /** The tables after the first `n` of the candidates as they were faced. */
  function TablesAfter(inc: Incoming, faced: seq<Candidate>, streaks: map<Key, nat>, n: nat, tb: Tables): Tables
    requires Within(inc, faced) && n <= |faced|
    decreases n
  {
    if n == 0 then tb
    else
      var s := After(RequestOf(inc, faced), streaks, n - 1);
      TurnTables(inc, n - 1, faced[n - 1], s.streaks, TablesAfter(inc, faced, streaks, n - 1, tb))
  }

  // ---------- facing one candidate more ----------

  lemma {:induction false} RunOfPrefix(
    inc: Incoming, faced: seq<Candidate>, c: Candidate, streaks: map<Key, nat>, n: nat)
    requires Within(inc, faced + [c]) && n <= |faced|
    ensures After(RequestOf(inc, faced + [c]), streaks, n) == After(RequestOf(inc, faced), streaks, n)
    ensures Rejections(faced + [c], n) == Rejections(faced, n)
  {
    hide Turn, FateOf;
    if n > 0 {
      RunOfPrefix(inc, faced, c, streaks, n - 1);
      var s := After(RequestOf(inc, faced), streaks, n - 1);
      SameTurn(RequestOf(inc, faced + [c]), RequestOf(inc, faced), n - 1, s);
    }
  }

  lemma SameTurn(a: Request, b: Request, i: nat, s: Chat)
    requires i < |Attempts(a)| && i < |Attempts(b)| && Attempts(a)[i] == Attempts(b)[i]
    requires a.user == b.user && a.explicitModel == b.explicitModel
    ensures Turn(a, i, s) == Turn(b, i, s)
  {
    hide ModelsFrom, Quarantine;
  }

  lemma {:induction false} TablesOfPrefix(
    inc: Incoming, faced: seq<Candidate>, c: Candidate, streaks: map<Key, nat>, n: nat, tb: Tables)
    requires Within(inc, faced + [c]) && n <= |faced|
    ensures TablesAfter(inc, faced + [c], streaks, n, tb) == TablesAfter(inc, faced, streaks, n, tb)
  {
    hide After, TurnTables;
    if n > 0 {
      TablesOfPrefix(inc, faced, c, streaks, n - 1, tb);
      RunOfPrefix(inc, faced, c, streaks, n - 1);
    }
  }

  lemma QuietOfPrefix(inc: Incoming, faced: seq<Candidate>, c: Candidate, streaks: map<Key, nat>, n: nat)
    requires Within(inc, faced + [c]) && n <= |faced|
    ensures Quiet(faced + [c], n) == Quiet(faced, n)
  {
    hide FateOf, After;
    RunOfPrefix(inc, faced, c, streaks, n);
    assert forall i | 0 <= i < n :: (faced + [c])[i] == faced[i];
  }

  // ---------- other providers do not matter ----------

  ghost predicate FacesRanked(inc: Incoming, faced: seq<Candidate>) {
    Within(inc, faced) && forall i | 0 <= i < |faced| :: faced[i].name == inc.ranked[i].name
  }

  /** The first turns ask nothing about a later provider. */
  lemma {:induction false} AskedAboutEarlier(
    inc: Incoming, faced: seq<Candidate>, streaks: map<Key, nat>, n: nat, j: nat)
    requires FacesRanked(inc, faced) && n <= |faced| && n <= j < |inc.ranked| && DistinctProviders(inc.ranked)
    ensures forall a | a in After(RequestOf(inc, faced), streaks, n).asked :: a.slot.provider != inc.ranked[j].name
    decreases n
  {
    hide Turn;
    if n > 0 {
      AskedAboutEarlier(inc, faced, streaks, n - 1, j);
      var req := RequestOf(inc, faced);
      var s := After(req, streaks, n - 1);
      TurnAsksOwn(req, n - 1, s);
    }
  }

  lemma TurnAsksOwn(req: Request, i: nat, s: Chat)
    requires i < |Attempts(req)|
    ensures forall a | a in Turn(req, i, s).asked :: a in s.asked || a.slot.provider == Attempts(req)[i].name
  {
    hide ModelsFrom, Quarantine;
  }

  lemma {:induction false} LongestSkips(calls: seq<Cooling>, more: seq<Cooling>, slot: Slot)
    requires forall c | c in more :: c.slot != slot
    ensures Longest(calls + more, slot) == Longest(calls, slot)
    decreases |more|
  {
    if more == [] {
      assert calls + more == calls;
    } else {
      var n := |more| - 1;
      assert calls + more == (calls + more[..n]) + [more[n]];
      LongestSkips(calls, more[..n], slot);
      LongestStep(calls + more[..n], more[n], slot);
    }
  }

  lemma {:induction false} SameReasonsSameModels(
    a: seq<Cooling>, b: seq<Cooling>, user: int, provider: string, chain: seq<string>, at: real)
    requires forall m :: Longest(a, Slot(user, provider, m)) == Longest(b, Slot(user, provider, m))
    ensures AliveIn(a, user, provider, chain, at) == AliveIn(b, user, provider, chain, at)
    ensures AllUnavailable(a, user, provider, chain, at) == AllUnavailable(b, user, provider, chain, at)
    decreases |chain|
  {
    hide Longest;
    if chain != [] {
      SameReasonsSameModels(a, b, user, provider, chain[..|chain| - 1], at);
    }
  }

  /** Cooling other providers does not change which models of this one are usable, unless it made the
      memory forget everything. */
  lemma ModelsAsAtStart(ever0: seq<Cooling>, lost0: nat, since: real, asked: seq<Ask>, ever1: seq<Cooling>, lost1: nat,
                        user: int, provider: string, chain: seq<string>, explicit: Option<string>, at: real)
    requires Grown(ever0, lost0, since, asked, ever1, lost1) && lost0 <= |ever0| && lost1 <= |ever1|
    requires forall a | a in asked :: a.slot.provider != provider
    ensures UsableModels(ever1[lost1..], user, provider, chain, explicit, at)
      == UsableModels(if lost1 == lost0 then ever0[lost0..] else [], user, provider, chain, explicit, at)
  {
    hide Longest, AliveIn, AllUnavailable;
    var base := if lost1 == lost0 then ever0[lost0..] else [];
    var more := if lost1 == lost0 then ever1[|ever0|..] else ever1[lost1..];
    assert ever1[lost1..] == base + more;
    forall c | c in more ensures c.slot.provider != provider {
      var i :| |ever0| <= i < |ever1| && ever1[i] == c;
      assert ModelCooldowns.Answers(ever1[|ever0| + (i - |ever0|)], asked[i - |ever0|], since);
    }
    forall m ensures Longest(base + more, Slot(user, provider, m)) == Longest(base, Slot(user, provider, m)) {
      LongestSkips(base, more, Slot(user, provider, m));
    }
    SameReasonsSameModels(base + more, base, user, provider, chain, at);
  }

  /** Nor does dispatching other providers change this one's row and events. */
  ghost predicate SameFor(key: Key, a: Tables, b: Tables) {
    && (key in a.stats <==> key in b.stats) && (key in a.stats ==> a.stats[key] == b.stats[key])
    && forall e: Event | e.key == key :: e in a.events <==> e in b.events
  }

  lemma {:induction false} OtherKeysStay(
    inc: Incoming, faced: seq<Candidate>, streaks: map<Key, nat>, m: nat, n: nat, tb: Tables, key: Key)
    requires Within(inc, faced) && m <= n <= |faced|
    requires forall i | m <= i < n :: KeyOf(inc, i) != key
    ensures SameFor(key, TablesAfter(inc, faced, streaks, n, tb), TablesAfter(inc, faced, streaks, m, tb))
    decreases n
  {
    hide After, CommitRow, ModelsFrom;
    if m < n {
      OtherKeysStay(inc, faced, streaks, m, n - 1, tb, key);
    }
  }

  lemma SameGrants(key: Key, a: Tables, b: Tables, caps: Caps, now: real)
    requires SameFor(key, a, b)
    ensures Grants(a.stats, a.events, key, caps, now) == Grants(b.stats, b.events, key, caps, now)
  {
    assert Since(a.events, key, now - MINUTE) == Since(b.events, key, now - MINUTE);
    assert Since(a.events, key, now - DAY) == Since(b.events, key, now - DAY);
  }

  lemma GrantsAsAtStart(inc: Incoming, faced: seq<Candidate>, streaks: map<Key, nat>, n: nat, tb: Tables)
    requires Within(inc, faced) && n <= |faced| && n < |inc.ranked| && DistinctProviders(inc.ranked)
    ensures var now, p := TablesAfter(inc, faced, streaks, n, tb), inc.ranked[n];
      Grants(now.stats, now.events, KeyOf(inc, n), p.caps, inc.start)
        == Grants(tb.stats, tb.events, KeyOf(inc, n), p.caps, inc.start)
  {
    OtherKeysStay(inc, faced, streaks, 0, n, tb, KeyOf(inc, n));
    SameGrants(KeyOf(inc, n), TablesAfter(inc, faced, streaks, n, tb), tb, inc.ranked[n].caps, inc.start);
  }

  lemma EndOfRun(inc: Incoming, faced: seq<Candidate>, streaks: map<Key, nat>)
    requires Within(inc, faced)
    ensures ChatOnce(RequestOf(inc, faced), streaks) ==
      if faced == [] then Fresh(streaks).(end := Refused(NoCandidatesKind(inc.unhealthy)))
      else
        var s := After(RequestOf(inc, faced), streaks, |faced|);
        if s.end.Running? then s.(end := Refused(ExhaustedKind(s.lastKind, s.skipped))) else s
  {
    hide After;
  }

  /** The calls a memory goes by are those since it was last cleared. */
  lemma MemoryHolds(memory: Cooldowns, clock: Clock)
    requires Ready(memory, clock)
    ensures memory.lost <= |memory.ever| && memory.calls == memory.ever[memory.lost..]
  {
  }

  lemma NoneFaced(inc: Incoming, streaks: map<Key, nat>)
    ensures After(RequestOf(inc, []), streaks, 0) == Fresh(streaks)
  {
  }

  lemma OneMoreFaced(inc: Incoming, faced: seq<Candidate>, c: Candidate, streaks: map<Key, nat>, tb: Tables)
    requires Within(inc, faced + [c])
    requires forall i | 0 <= i <= |faced| :: Quiet(faced, i)
    ensures forall i | 0 <= i <= |faced| :: Quiet(faced + [c], i)
    ensures var req, n, s := RequestOf(inc, faced + [c]), |faced|, After(RequestOf(inc, faced), streaks, |faced|);
      && After(req, streaks, n + 1) == Turn(req, n, s)
      && TablesAfter(inc, faced + [c], streaks, n + 1, tb)
           == TurnTables(inc, n, c, s.streaks, TablesAfter(inc, faced, streaks, n, tb))
  {
    hide Quiet, Turn, TurnTables;
    forall i | 0 <= i <= |faced| ensures Quiet(faced + [c], i) {
      QuietOfPrefix(inc, faced, c, streaks, i);
    }
    RunningAfter(RequestOf(inc, faced), streaks, |faced|);
    RunOfPrefix(inc, faced, c, streaks, |faced|);
    TablesOfPrefix(inc, faced, c, streaks, |faced|, tb);
  }

  // ---------- the request ----------

  /** The candidates faced are what their providers are at the start of the request. */
  ghost predicate AsAtStart(inc: Incoming, faced: seq<Candidate>, seen: seq<Sight>, tb: Tables,
                            calls: seq<Cooling>, since: real)
  {
    && Within(inc, faced) && |seen| == |faced|
    && forall i | 0 <= i < |faced| ::
         seen[i].at >= since
         && faced[i] == CandidateAt(inc, i, tb, if seen[i].forgotten then [] else calls, seen[i].at)
  }

  /** The candidates faced are those visited: they go on to the end, or to where the loop stops. */
  ghost predicate VisitedOnly(inc: Incoming, faced: seq<Candidate>) {
    && Within(inc, faced) && (forall i | 0 <= i < |faced| :: Quiet(faced, i))
    && (|faced| < |AttemptsOf(inc.ranked, inc.fallback)| ==> !Quiet(faced, |faced|))
  }

  lemma FacedInOrder(inc: Incoming, faced: seq<Candidate>, seen: seq<Sight>, tb: Tables, calls: seq<Cooling>,
                     since: real)
    requires AsAtStart(inc, faced, seen, tb, calls, since)
    ensures FacesRanked(inc, faced)
  {
    hide UsableModels, Grants;
  }

  class Service {
    const orch: Orchestrator
    const repo: RateRepository

    constructor (orch: Orchestrator, repo: RateRepository)
      ensures this.orch == orch && this.repo == repo
    {
      this.orch, this.repo := orch, repo;
    }

    ghost predicate Valid()
      reads this, orch, orch.memory, orch.clock, repo
    {
      Lean(orch.inFlight) && Ready(orch.memory, orch.clock) && repo.Valid()
    }

    ghost function Now(): Tables
      reads repo
    {
      Tables(repo.stats, repo.events, repo.nextId)
    }

    /** Records the outcome of the dispatch just made, or takes its event back. */
    method Settle(inc: Incoming, i: nat, token: nat, ghost c: Candidate, ghost req: Request, ghost s0: Chat, s: Chat)
      requires repo.Valid() && i < |inc.ranked| && i < |Attempts(req)| && !s0.end.Served? && !s0.end.Interrupted?
      requires Attempts(req)[i] == c && c.name == inc.ranked[i].name && Usable(c)
      requires req.user == inc.user && req.explicitModel == inc.explicit.Some? && s == Turn(req, i, s0)
      requires KeyOf(inc, i) in repo.stats && Event(token, KeyOf(inc, i), inc.start) in repo.events
      modifies repo
      ensures repo.Valid() && repo.nextId == old(repo.nextId)
      ensures var result := ModelsFrom(c, 0, 0, []).result;
        if result.Aborted? then
          repo.stats == old(repo.stats) && repo.events == set e | e in old(repo.events) && e.id != token
        else
          var row := old(repo.stats)[KeyOf(inc, i)];
          var after := CommitRow(row, inc.ranked[i].settledAt, OutcomeOf(inc, i, result, s0.streaks), inc.tun);
          repo.stats == old(repo.stats)[KeyOf(inc, i) := after] && repo.events == old(repo.events)
    {
      hide ModelsFrom, Quarantine, CommitRow;
      var p := inc.ranked[i];
      match s.end {
        case Interrupted => repo.Rollback(token);
        case Served(_, r) =>
          var outcome := Success(p.latencyMs, r.promptTokens + r.completionTokens);
          repo.Commit(KeyOf(inc, i), p.settledAt, outcome, inc.tun);
        case _ =>
          var op := s.log[|s.log| - 2];
          repo.Commit(KeyOf(inc, i), p.settledAt, Failure(p.latencyMs, op.kind, op.quarantineS), inc.tun);
      }
    }

    /** The models to try of a provider that nothing was asked about since the start. */
    method Choose(inc: Incoming, p: Provider, ghost asked: seq<Ask>, ghost ever0: seq<Cooling>, ghost lost0: nat,
                  ghost since: real)
      returns (models: seq<Option<string>>, ghost sight: Sight)
      requires Ready(orch.memory, orch.clock) && orch.clock.now >= since && lost0 <= |ever0|
      requires forall a | a in asked :: a.slot.provider != p.name
      requires Grown(ever0, lost0, since, asked, orch.memory.ever, orch.memory.lost)
      modifies orch.memory, orch.clock
      ensures Ready(orch.memory, orch.clock) && orch.clock.now >= since && sight.at >= since
      ensures orch.memory.ever == old(orch.memory.ever) && orch.memory.lost == old(orch.memory.lost)
      ensures sight.forgotten ==> orch.memory.lost > lost0
      ensures models ==
        UsableModels(if sight.forgotten then [] else ever0[lost0..], inc.user, p.name, p.chain, inc.explicit, sight.at)
    {
      hide UsableModels;
      var now := orch.clock.Read();
      models := orch.memory.ModelsFor(inc.user, p.name, p.chain, inc.explicit, now);
      sight := Sight(now, orch.memory.lost != lost0);
      ModelsAsAtStart(ever0, lost0, since, asked, orch.memory.ever, orch.memory.lost,
                      inc.user, p.name, p.chain, inc.explicit, now);
    }

    /** One turn of the loop, for the next provider. */
    method Face(inc: Incoming, faced: seq<Candidate>, s0: Chat, ghost seen: seq<Sight>, ghost tb: Tables,
                ghost calls: seq<Cooling>, ghost since: real, ghost streaks: map<Key, nat>,
                ghost ever0: seq<Cooling>, ghost lost0: nat)
      returns (s: Chat, c: Candidate, ghost sight: Sight)
      requires Valid() && DistinctProviders(inc.ranked) && orch.streaks == s0.streaks && orch.clock.now >= since
      requires |faced| < |AttemptsOf(inc.ranked, inc.fallback)| && FacesRanked(inc, faced)
      requires s0 == After(RequestOf(inc, faced), streaks, |faced|) && !Stops(s0)
      requires Now() == TablesAfter(inc, faced, streaks, |faced|, tb)
      requires lost0 <= |ever0| && calls == ever0[lost0..]
      requires Grown(ever0, lost0, since, s0.asked, orch.memory.ever, orch.memory.lost)
      modifies orch, orch.memory, orch.clock, repo
      ensures Valid() && orch.inFlight == old(orch.inFlight) && orch.streaks == s.streaks
      ensures orch.clock.now >= since && sight.at >= since
      ensures c == CandidateAt(inc, |faced|, tb, if sight.forgotten then [] else calls, sight.at)
      ensures orch.memory.lost >= old(orch.memory.lost) && (sight.forgotten ==> orch.memory.lost > lost0)
      ensures s == Turn(RequestOf(inc, faced + [c]), |faced|, s0)
      ensures Now() == TurnTables(inc, |faced|, c, s0.streaks, old(Now()))
      ensures Grown(ever0, lost0, since, s.asked, orch.memory.ever, orch.memory.lost)
    {
      hide Turn, After, UsableModels, Grants, CommitRow, ModelsFrom, TablesAfter, Grown, OutcomeOf, Ready, Lean;
      var i := |faced|;
      var p := inc.ranked[i];
      AskedAboutEarlier(inc, faced, streaks, i, i);
      GrantsAsAtStart(inc, faced, streaks, i, tb);
      var models;
      models, sight := Choose(inc, p, s0.asked, ever0, lost0, since);
      var token: Option<nat> := None;
      if models != [] {
        token := repo.TryReserve(KeyOf(inc, i), p.caps, inc.start);
      }
      c := Candidate(p.name, models, token.Some?, p.maxRetries, p.perModelQuota, p.upstream);
      s := Run(inc, faced, s0, c, token, ever0, lost0, since);
    }

    /** Skips the candidate, or dispatches it and settles its reservation. */
    method Run(inc: Incoming, faced: seq<Candidate>, s0: Chat, c: Candidate, token: Option<nat>,
               ghost ever0: seq<Cooling>, ghost lost0: nat, ghost since: real) returns (s: Chat)
      requires Valid() && orch.streaks == s0.streaks && !Stops(s0) && orch.clock.now >= since
      requires Within(inc, faced + [c]) && c.name == inc.ranked[|faced|].name
      requires Usable(c) <==> token.Some?
      requires token.Some? ==>
        KeyOf(inc, |faced|) in repo.stats && Event(token.value, KeyOf(inc, |faced|), inc.start) in repo.events
      requires Grown(ever0, lost0, since, s0.asked, orch.memory.ever, orch.memory.lost)
      modifies orch, orch.memory, orch.clock, repo
      ensures Valid() && orch.inFlight == old(orch.inFlight) && orch.streaks == s.streaks
      ensures orch.clock.now >= since && orch.memory.lost >= old(orch.memory.lost)
      ensures s == Turn(RequestOf(inc, faced + [c]), |faced|, s0)
      ensures repo.nextId == old(repo.nextId)
      ensures token.None? ==> repo.stats == old(repo.stats) && repo.events == old(repo.events)
      ensures token.Some? ==>
        var i, result := |faced|, ModelsFrom(c, 0, 0, []).result;
        if result.Aborted? then
          repo.stats == old(repo.stats) && repo.events == set e | e in old(repo.events) && e.id != token.value
        else
          var row := old(repo.stats)[KeyOf(inc, i)];
          var after := CommitRow(row, inc.ranked[i].settledAt, OutcomeOf(inc, i, result, s0.streaks), inc.tun);
          repo.stats == old(repo.stats)[KeyOf(inc, i) := after] && repo.events == old(repo.events)
      ensures Grown(ever0, lost0, since, s.asked, orch.memory.ever, orch.memory.lost)
    {
      hide Turn, CommitRow, ModelsFrom, OutcomeOf;
      var i, req := |faced|, RequestOf(inc, faced + [c]);
      assert Attempts(req)[i] == c;
      if token.None? {
        SkippingTurn(req, i, s0);
        s := s0.(skipped := s0.skipped + [c.name]);
      } else {
        ghost var ever1, lost1, later := orch.memory.ever, orch.memory.lost, orch.clock.now;
        s := orch.DispatchOne(req, i, s0);
        DispatchingTurn(req, i, s0);
        GrownThen(ever0, lost0, since, s0.asked, ever1, lost1,
                  later, Asks(req.user, c.name, ModelsFrom(c, 0, 0, []).cooled), orch.memory.ever, orch.memory.lost);
        Settle(inc, i, token.value, c, req, s0, s);
      }
    }

    method Serve(inc: Incoming) returns (s: Chat, faced: seq<Candidate>, ghost seen: seq<Sight>)
      requires Valid() && DistinctProviders(inc.ranked)
      modifies orch, orch.memory, orch.clock, repo
      ensures Valid() && orch.inFlight == old(orch.inFlight) && orch.streaks == s.streaks
      ensures AsAtStart(inc, faced, seen, old(Now()), old(orch.memory.calls), old(orch.clock.now))
      ensures orch.memory.lost == old(orch.memory.lost) ==> forall i | 0 <= i < |seen| :: !seen[i].forgotten
      ensures VisitedOnly(inc, faced)
      ensures s == ChatOnce(RequestOf(inc, faced), old(orch.streaks))
      ensures Now() == TablesAfter(inc, faced, old(orch.streaks), |faced|, old(Now()))
      ensures !inc.fallback && inc.ranked != [] ==>
        |faced| == 1 && forall key | key != KeyOf(inc, 0) :: SameFor(key, Now(), old(Now()))
      ensures Grown(old(orch.memory.ever), old(orch.memory.lost), old(orch.clock.now), s.asked,
                    orch.memory.ever, orch.memory.lost)
    {
      hide Grown, Turn, After, Quiet, UsableModels, Grants, TurnTables, CandidateAt, Ready, Lean, ChatOnce;
      ghost var tb, calls, since, streaks := Now(), orch.memory.calls, orch.clock.now, orch.streaks;
      ghost var ever0, lost0 := orch.memory.ever, orch.memory.lost;
      var attempts := AttemptsOf(inc.ranked, inc.fallback);
      s, faced, seen := Fresh(orch.streaks), [], [];
      NoneFaced(inc, streaks);
      EndOfRun(inc, [], streaks);
      MemoryHolds(orch.memory, orch.clock);
      NothingAsked(ever0, lost0, since);
      if inc.ranked == [] {
        s := s.(end := Refused(NoCandidatesKind(inc.unhealthy)));
        return;
      }
      while |faced| < |attempts| && !Stops(s)
        invariant Valid() && orch.inFlight == old(orch.inFlight) && orch.streaks == s.streaks
        invariant orch.clock.now >= since && Within(inc, faced)
        invariant AsAtStart(inc, faced, seen, tb, calls, since)
        invariant (exists i :: 0 <= i < |seen| && seen[i].forgotten) ==> orch.memory.lost > lost0
        invariant forall i | 0 <= i < |faced| :: Quiet(faced, i)
        invariant s == After(RequestOf(inc, faced), streaks, |faced|)
        invariant Now() == TablesAfter(inc, faced, streaks, |faced|, tb)
        invariant Grown(ever0, lost0, since, s.asked, orch.memory.ever, orch.memory.lost)
        decreases |attempts| - |faced|
      {
        var c;
        ghost var sight;
        RunningAfter(RequestOf(inc, faced), streaks, |faced|);
        FacedInOrder(inc, faced, seen, tb, calls, since);
        s, c, sight := Face(inc, faced, s, seen, tb, calls, since, streaks, ever0, lost0);
        OneMoreFaced(inc, faced, c, streaks, tb);
        faced, seen := faced + [c], seen + [sight];
      }
      RunningAfter(RequestOf(inc, faced), streaks, |faced|);
      OthersUntouchedWithoutFallback(inc, faced, streaks, tb);
      EndOfRun(inc, faced, streaks);
      if s.end.Running? {
        s := s.(end := Refused(ExhaustedKind(s.lastKind, s.skipped)));
      }
    }
  }

  /** Without fallback only the first provider's row and events change. */
  lemma OthersUntouchedWithoutFallback(inc: Incoming, faced: seq<Candidate>, streaks: map<Key, nat>, tb: Tables)
    requires VisitedOnly(inc, faced)
    ensures !inc.fallback && inc.ranked != [] ==>
      |faced| == 1
      && forall key | key != KeyOf(inc, 0) :: SameFor(key, TablesAfter(inc, faced, streaks, |faced|, tb), tb)
  {
    hide TablesAfter, SameFor;
    if !inc.fallback && inc.ranked != [] {
      forall key | key != KeyOf(inc, 0) ensures SameFor(key, TablesAfter(inc, faced, streaks, |faced|, tb), tb) {
        OtherKeysStay(inc, faced, streaks, 0, |faced|, tb, key);
        assert TablesAfter(inc, faced, streaks, 0, tb) == tb by { NoTurns(inc, faced, streaks, tb); }
      }
    }
  }

  lemma NoTurns(inc: Incoming, faced: seq<Candidate>, streaks: map<Key, nat>, tb: Tables)
    requires Within(inc, faced)
    ensures TablesAfter(inc, faced, streaks, 0, tb) == tb
  {
  }

  // ---------- what a request leaves behind ----------

  lemma TurnIsLocal(inc: Incoming, k: nat, c: Candidate, streaks: map<Key, nat>, x: Tables, y: Tables)
    requires k < |inc.ranked| && SameFor(KeyOf(inc, k), x, y) && x.nextId == y.nextId
    ensures SameFor(KeyOf(inc, k), TurnTables(inc, k, c, streaks, x), TurnTables(inc, k, c, streaks, y))
  {
    hide CommitRow, ModelsFrom, OutcomeOf;
  }

  lemma {:induction false} IdsGrow(inc: Incoming, faced: seq<Candidate>, streaks: map<Key, nat>, n: nat, tb: Tables)
    requires Within(inc, faced) && n <= |faced|
    ensures TablesAfter(inc, faced, streaks, n, tb).nextId >= tb.nextId
    decreases n
  {
    hide After, CommitRow, ModelsFrom, OutcomeOf;
    if n > 0 {
      IdsGrow(inc, faced, streaks, n - 1, tb);
    }
  }

  /** Provider `k`'s part of the tables, once the request is over: exactly what its own turn would do to
      the tables as they were at the start, but for the number its event gets. */
  lemma EachLeavesItsOwn(inc: Incoming, faced: seq<Candidate>, streaks: map<Key, nat>, k: nat, tb: Tables)
    returns (id: nat)
    requires FacesRanked(inc, faced) && DistinctProviders(inc.ranked) && k < |faced|
    ensures id >= tb.nextId
    ensures var s := After(RequestOf(inc, faced), streaks, k);
      SameFor(KeyOf(inc, k), TablesAfter(inc, faced, streaks, |faced|, tb),
              TurnTables(inc, k, faced[k], s.streaks, tb.(nextId := id)))
  {
    hide After, TurnTables;
    OtherKeysStay(inc, faced, streaks, 0, k, tb, KeyOf(inc, k));
    OtherKeysStay(inc, faced, streaks, k + 1, |faced|, tb, KeyOf(inc, k));
    var s, before := After(RequestOf(inc, faced), streaks, k), TablesAfter(inc, faced, streaks, k, tb);
    id := before.nextId;
    IdsGrow(inc, faced, streaks, k, tb);
    TurnIsLocal(inc, k, faced[k], s.streaks, before, tb.(nextId := id));
  }

  /** A request never takes a provider over a cap that held before. */
  lemma RequestKeepsCaps(inc: Incoming, faced: seq<Candidate>, seen: seq<Sight>, streaks: map<Key, nat>, k: nat,
                         tb: Tables, calls: seq<Cooling>, since: real, first: nat)
    requires AsAtStart(inc, faced, seen, tb, calls, since) && DistinctProviders(inc.ranked) && k < |faced|
    requires Capped(tb.events, KeyOf(inc, k), inc.ranked[k].caps.rpm, MINUTE, first)
    requires Capped(tb.events, KeyOf(inc, k), inc.ranked[k].caps.rpd, DAY, first)
    ensures var end := TablesAfter(inc, faced, streaks, |faced|, tb);
      && Capped(end.events, KeyOf(inc, k), inc.ranked[k].caps.rpm, MINUTE, first)
      && Capped(end.events, KeyOf(inc, k), inc.ranked[k].caps.rpd, DAY, first)
  {
    hide TablesAfter, UsableModels, ModelsFrom, OutcomeOf, After, CommitRow;
    FacedInOrder(inc, faced, seen, tb, calls, since);
    var id := EachLeavesItsOwn(inc, faced, streaks, k, tb);
    var key, caps, end := KeyOf(inc, k), inc.ranked[k].caps, TablesAfter(inc, faced, streaks, |faced|, tb);
    if faced[k].models == [] || !faced[k].granted {
      StillCapped(end.events, tb.events, key, caps, first);
    } else {
      OneMoreCapped(tb.events, Event(id, key, inc.start), caps, first);
      StillCapped(end.events, tb.events + {Event(id, key, inc.start)}, key, caps, first);
    }
  }

  lemma StillCapped(small: set<Event>, big: set<Event>, key: Key, caps: Caps, first: nat)
    requires Capped(big, key, caps.rpm, MINUTE, first) && Capped(big, key, caps.rpd, DAY, first)
    requires forall e | e in small && e.key == key :: e in big
    ensures Capped(small, key, caps.rpm, MINUTE, first) && Capped(small, key, caps.rpd, DAY, first)
  {
    FewerRowsKeepCap(small, big, key, caps.rpm, MINUTE, first);
    FewerRowsKeepCap(small, big, key, caps.rpd, DAY, first);
  }

  lemma OneMoreCapped(events: set<Event>, row: Event, caps: Caps, first: nat)
    requires Capped(events, row.key, caps.rpm, MINUTE, first) && Capped(events, row.key, caps.rpd, DAY, first)
    requires RateRepo.UnderCap(events, row.key, caps.rpm, row.at, MINUTE)
    requires RateRepo.UnderCap(events, row.key, caps.rpd, row.at, DAY)
    ensures Capped(events + {row}, row.key, caps.rpm, MINUTE, first)
    ensures Capped(events + {row}, row.key, caps.rpd, DAY, first)
  {
    if caps.rpm.Some? { AdmittedRowKeepsCap(events, row, caps.rpm.value, MINUTE, first); }
    if caps.rpd.Some? { AdmittedRowKeepsCap(events, row, caps.rpd.value, DAY, first); }
  }

  lemma TurnAddsOne(inc: Incoming, i: nat, c: Candidate, streaks: map<Key, nat>, tb: Tables)
    requires i < |inc.ranked| && forall e | e in tb.events :: e.id < tb.nextId
    ensures var t, fate := TurnTables(inc, i, c, streaks, tb), FateOf(c);
      && tb.events <= t.events && (forall e | e in t.events :: e.id < t.nextId)
      && |t.events| == |tb.events| + if fate.Answers? || fate.Fails? then 1 else 0
  {
    hide CommitRow, ModelsFrom, OutcomeOf;
  }

  /** The events a request leaves are one for each fallback position it recorded. */
  lemma {:induction false} OneEventPerPosition(
    inc: Incoming, faced: seq<Candidate>, streaks: map<Key, nat>, n: nat, tb: Tables)
    requires FacesRanked(inc, faced) && n <= |faced| && forall i | 0 <= i < n :: Quiet(faced, i)
    requires forall e | e in tb.events :: e.id < tb.nextId
    ensures var end, s := TablesAfter(inc, faced, streaks, n, tb), After(RequestOf(inc, faced), streaks, n);
      && tb.events <= end.events && |end.events| == |tb.events| + Committed(s)
      && forall e | e in end.events :: e.id < end.nextId
    decreases n
  {
    hide Turn, TurnTables, FateOf, Quiet, Usable;
    if n > 0 {
      OneEventPerPosition(inc, faced, streaks, n - 1, tb);
      var req := RequestOf(inc, faced);
      var s := After(req, streaks, n - 1);
      RunningAfter(req, streaks, n - 1);
      TurnByFate(req, n - 1, s);
      TurnNames(req, n - 1, s);
      SkipsAreNotUsable(faced[n - 1]);
      TurnAddsOne(inc, n - 1, faced[n - 1], s.streaks, TablesAfter(inc, faced, streaks, n - 1, tb));
    }
  }

  // ---------- what the next request finds ----------

  /** How long provider `k` is left alone after it failed the request: for a benign failure the time its
      error asks for, for another one that trips the breaker the cool-down. */
  function BackOff(inc: Incoming, k: nat, e: ProviderError, tb: Tables): Option<real>
    requires k < |inc.ranked|
  {
    var row, p := RowOrFresh(tb.stats, KeyOf(inc, k)), inc.ranked[k];
    if IsBenign(e.kind) then
      var asked := QuarantineSecondsFor(e, AllModelsUnavailable(RequestOf(inc, []), e));
      if Truthy(asked) then asked else None
    else if Trips(row, p.settledAt, inc.tun) then Some(Cooldown(row.cooldownLevel, inc.tun) as real)
    else None
  }

  /** A provider that failed the request is granted no reservation until that time is over. */
  lemma FailedIsLeftAlone(inc: Incoming, faced: seq<Candidate>, streaks: map<Key, nat>, k: nat, tb: Tables,
                          events: set<Event>, caps: Caps, now: real)
    requires FacesRanked(inc, faced) && DistinctProviders(inc.ranked) && k < |faced|
    requires FateOf(faced[k]).Fails? && BackOff(inc, k, FateOf(faced[k]).error, tb).Some?
    requires now < inc.ranked[k].settledAt + BackOff(inc, k, FateOf(faced[k]).error, tb).value
    ensures !Grants(TablesAfter(inc, faced, streaks, |faced|, tb).stats, events, KeyOf(inc, k), caps, now)
  {
    hide After, ModelsFrom, TablesAfter;
    var id := EachLeavesItsOwn(inc, faced, streaks, k, tb);
  }

  /** Two requests of a user, one after the other: the second does not dispatch a provider that failed
      the first, while that provider is to be left alone. */
  method ServeTwice(service: Service, a: Incoming, b: Incoming)
    returns (first: Chat, faced: seq<Candidate>, second: Chat)
    requires service.Valid() && DistinctProviders(a.ranked) && DistinctProviders(b.ranked) && a.user == b.user
    modifies service.orch, service.orch.memory, service.orch.clock, service.repo
    ensures service.Valid() && FacesRanked(a, faced)
    ensures first == ChatOnce(RequestOf(a, faced), old(service.orch.streaks))
    ensures forall k | 0 <= k < |faced| && FateOf(faced[k]).Fails? ::
      var wait := BackOff(a, k, FateOf(faced[k]).error, old(service.Now()));
      wait.Some? && b.start < a.ranked[k].settledAt + wait.value ==> a.ranked[k].name !in second.chain
  {
    hide ChatOnce, FateOf, BackOff, Grants, TablesAfter, UsableModels, Grown, Quiet;
    ghost var tb, streaks := service.Now(), service.orch.streaks;
    ghost var seen, seen2;
    var faced2;
    first, faced, seen := service.Serve(a);
    FacedInOrder(a, faced, seen, tb, old(service.orch.memory.calls), old(service.orch.clock.now));
    ghost var mid, calls, since, streaks2 :=
      service.Now(), service.orch.memory.calls, service.orch.clock.now, service.orch.streaks;
    second, faced2, seen2 := service.Serve(b);
    FacedInOrder(b, faced2, seen2, mid, calls, since);
    forall k | 0 <= k < |faced| && FateOf(faced[k]).Fails? && BackOff(a, k, FateOf(faced[k]).error, tb).Some?
        && b.start < a.ranked[k].settledAt + BackOff(a, k, FateOf(faced[k]).error, tb).value
      ensures a.ranked[k].name !in second.chain
    {
      forall j | 0 <= j < |faced2| && b.ranked[j].name == a.ranked[k].name ensures !Usable(faced2[j]) {
        FailedIsLeftAlone(a, faced, streaks, k, tb, mid.events, b.ranked[j].caps, b.start);
      }
      NotUsableNotDispatched(b, faced2, streaks2, a.ranked[k].name);
    }
  }

  lemma NotUsableNotDispatched(inc: Incoming, faced: seq<Candidate>, streaks: map<Key, nat>, name: string)
    requires FacesRanked(inc, faced) && DistinctProviders(inc.ranked)
    requires forall j | 0 <= j < |faced| && inc.ranked[j].name == name :: !Usable(faced[j])
    ensures name !in ChatOnce(RequestOf(inc, faced), streaks).chain
  {
    hide After, Quiet, Usable;
    ChainAndSkippedPartition(RequestOf(inc, faced), streaks);
  }
}
