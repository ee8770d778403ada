/** Scoring and ranking of a user's providers. */
module Ranking {
  import opened Common
  import opened Providers
  import opened RateRepo
  import opened StrategyDsl

  /** A user's merged provider settings. */
  datatype Config = Config(
    name: string, enabled: bool, hasKey: bool, weight: real, tags: seq<string>,
    rpdLimit: Option<int>, rpmLimit: Option<int>, tpdLimit: Option<int>)

  // ---------- the evaluation context ----------

  predicate Limited(limit: Option<int>) {
    limit.Some? && limit.value > 0
  }

  function Remaining(limit: Option<int>, used: int): real {
    if Limited(limit) then MaxReal(0.0, 1.0 - used as real / limit.value as real) else 1.0
  }

  function OptionalNumber(x: Option<real>): Json {
    if x.Some? then JNum(x.value) else JNull
  }

  /** `context_from_provider`. */
  function Context(c: Config, snap: ProviderSnapshot): map<string, Json> {
    map[
      "name" := JStr(c.name),
      "enabled" := JBool(c.enabled),
      "weight" := JNum(c.weight),
      "tags" := JList(seq(|c.tags|, i requires 0 <= i < |c.tags| => JStr(c.tags[i]))),
      "last_latency_ms" := OptionalNumber(LastLatency(snap)),
      "latency_ema_ms" := OptionalNumber(snap.latencyEmaMs),
      "requests_today" := JNum(snap.requestsToday as real),
      "requests_this_minute" := JNum(snap.requestsThisMinute as real),
      "rpd_remaining" := JNum(Remaining(c.rpdLimit, snap.requestsToday)),
      "rpm_remaining" := JNum(Remaining(c.rpmLimit, snap.requestsThisMinute)),
      "tpd_remaining" := JNum(Remaining(c.tpdLimit, snap.tokensToday)),
      "tokens_today" := JNum(snap.tokensToday as real),
      "total_failures" := JNum(snap.totalFailures as real)
    ]
  }

  function LastLatency(snap: ProviderSnapshot): Option<real> {
    if snap.lastLatencyMs.Some? then Some(snap.lastLatencyMs.value as real) else None
  }

  /** The orchestrator only evaluates definitions on contexts of the right type. */
  lemma ContextIsTyped(c: Config, snap: ProviderSnapshot)
    ensures TypedContext(Context(c, snap))
  {
    var ctx := Context(c, snap);
    forall field | field in ctx && FieldTypeOf(field).Some?
      ensures ctx[field].JNull? ||
        match FieldTypeOf(field).value
        case StringArray => ctx[field].JList?
        case StringField => ctx[field].JStr?
        case NumberField => ctx[field].JNum?
        case BoolField => ctx[field].JBool?
    {
      hide Remaining, LastLatency;
      var t := FieldTypeOf(field).value;
      if t.NumberField? {
        if field == "last_latency_ms" || field == "latency_ema_ms" {
        } else {
          assert ctx[field].JNum?;
        }
      }
    }
  }

  // ---------- baseline score ----------

  function NumberAt(ctx: map<string, Json>, field: string, default: real): real {
    if field in ctx && ctx[field].JNum? then ctx[field].n else default
  }

  function OptionalAt(ctx: map<string, Json>, field: string): Option<real> {
    if field in ctx && ctx[field].JNum? then Some(ctx[field].n) else None
  }

  /** The moving average, or the last sample when there is none or it is zero. */
  function LatencyOf(ctx: map<string, Json>): Option<real> {
    var ema := OptionalAt(ctx, "latency_ema_ms");
    if Truthy(ema) then ema else OptionalAt(ctx, "last_latency_ms")
  }

  function LatencyBonus(latency: Option<real>): real {
    if latency.None? then 0.0
    else if latency.value < 500.0 then 2.0
    else if latency.value < 1000.0 then 1.2
    else if latency.value < 2000.0 then 0.4
    else -1.0
  }

  function FailurePenalty(failures: real): real {
    if failures > 0.0 then 0.1 * MinReal(failures, 20.0) else 0.0
  }

  function Baseline(ctx: map<string, Json>): real {
    NumberAt(ctx, "weight", 0.0)
    + 1.5 * NumberAt(ctx, "rpd_remaining", 1.0)
    + 2.0 * NumberAt(ctx, "tpd_remaining", 1.0)
    + LatencyBonus(LatencyOf(ctx))
    - FailurePenalty(NumberAt(ctx, "total_failures", 0.0))
  }

  /** `baseline_score`. */
  method BaselineScore(ctx: map<string, Json>) returns (s: real)
    ensures s == Baseline(ctx)
  {
    s := NumberAt(ctx, "weight", 0.0);
    s := s + NumberAt(ctx, "rpd_remaining", 1.0) * 1.5;
    s := s + NumberAt(ctx, "tpd_remaining", 1.0) * 2.0;
    var latency := OptionalAt(ctx, "latency_ema_ms");
    if latency.None? || latency.value == 0.0 {
      latency := OptionalAt(ctx, "last_latency_ms");
    }
    if latency.Some? {
      if latency.value < 500.0 {
        s := s + 2.0;
      } else if latency.value < 1000.0 {
        s := s + 1.2;
      } else if latency.value < 2000.0 {
        s := s + 0.4;
      } else {
        s := s - 1.0;
      }
    }
    var failures := NumberAt(ctx, "total_failures", 0.0);
    if failures > 0.0 {
      s := s - 0.1 * (if failures <= 20.0 then failures else 20.0);
    }
  }

  /** A context without fields has the baseline of an unused provider of weight zero. */
  lemma BaselineOfNothing()
    ensures Baseline(map[]) == 3.5
  {
  }

  lemma RemainingIsShare(limit: Option<int>, used: int)
    requires used >= 0
    ensures 0.0 <= Remaining(limit, used) <= 1.0
    ensures Remaining(limit, used) == 1.0 <==> !Limited(limit) || used == 0
    ensures Remaining(limit, used) == 0.0 <==> Limited(limit) && used >= limit.value
  {
    if Limited(limit) {
      var l, u := limit.value as real, used as real;
      assert l > 0.0 && (u / l) * l == u;
    }
  }

  function SnapLatency(snap: ProviderSnapshot): Option<real> {
    if Truthy(snap.latencyEmaMs) then snap.latencyEmaMs else LastLatency(snap)
  }

  lemma BaselineOfContext(c: Config, snap: ProviderSnapshot)
    ensures Baseline(Context(c, snap)) ==
      c.weight + 1.5 * Remaining(c.rpdLimit, snap.requestsToday)
      + 2.0 * Remaining(c.tpdLimit, snap.tokensToday)
      + LatencyBonus(SnapLatency(snap)) - FailurePenalty(snap.totalFailures as real)
  {
    hide Remaining, LatencyBonus, FailurePenalty;
    assert LatencyOf(Context(c, snap)) == SnapLatency(snap);
  }

  /** The baseline stays within [weight - 3.0, weight + 5.5], and exactly who gets the two ends. */
  lemma BaselineBounds(c: Config, snap: ProviderSnapshot)
    requires snap.tokensToday >= 0
    ensures c.weight - 3.0 <= Baseline(Context(c, snap)) <= c.weight + 5.5
    ensures Baseline(Context(c, snap)) == c.weight + 5.5 <==>
      && (!Limited(c.rpdLimit) || snap.requestsToday == 0)
      && (!Limited(c.tpdLimit) || snap.tokensToday == 0)
      && SnapLatency(snap).Some? && SnapLatency(snap).value < 500.0
      && snap.totalFailures <= 0
    ensures Baseline(Context(c, snap)) == c.weight - 3.0 <==>
      && Limited(c.rpdLimit) && snap.requestsToday >= c.rpdLimit.value
      && Limited(c.tpdLimit) && snap.tokensToday >= c.tpdLimit.value
      && SnapLatency(snap).Some? && SnapLatency(snap).value >= 2000.0
      && snap.totalFailures >= 20
  {
    hide Context, Baseline, Remaining;
    BaselineOfContext(c, snap);
    RemainingIsShare(c.rpdLimit, snap.requestsToday);
    RemainingIsShare(c.tpdLimit, snap.tokensToday);
  }

  lemma RemainingAntitone(limit: Option<int>, less: int, more: int)
    requires less <= more
    ensures Remaining(limit, less) >= Remaining(limit, more)
  {
    if Limited(limit) {
      var l := limit.value as real;
      assert (more - less) as real / l >= 0.0;
      assert more as real / l == less as real / l + (more - less) as real / l;
    }
  }

  /** More requests, tokens or failures, or a slower answer, never raise the baseline. */
  lemma BaselineAntitone(c: Config, calm: ProviderSnapshot, busy: ProviderSnapshot)
    requires calm.requestsToday <= busy.requestsToday && calm.tokensToday <= busy.tokensToday
    requires calm.totalFailures <= busy.totalFailures
    requires SnapLatency(calm) == SnapLatency(busy)
      || (SnapLatency(calm).Some? && SnapLatency(busy).Some?
          && SnapLatency(calm).value <= SnapLatency(busy).value)
    ensures Baseline(Context(c, calm)) >= Baseline(Context(c, busy))
  {
    hide Context, Baseline, Remaining;
    BaselineOfContext(c, calm);
    BaselineOfContext(c, busy);
    RemainingAntitone(c.rpdLimit, calm.requestsToday, busy.requestsToday);
    RemainingAntitone(c.tpdLimit, calm.tokensToday, busy.tokensToday);
  }

  // ---------- total score ----------

  /** Everything a ranking reads besides the provider list. */
  datatype World = World(
    user: int, snapshots: map<string, ProviderSnapshot>, registry: set<string>,
    definition: Option<Definition>, preferred: Option<string>, inFlight: map<Key, int>)

  /** The strategy cache only ever holds definitions the parser has accepted. */
  ghost predicate Parsed(w: World) {
    w.definition.Some? ==> WellTypedDefinition(w.definition.value)
  }

  function InFlightPenalty(w: World, name: string): real {
    var key := Key(w.user, name);
    if key in w.inFlight && w.inFlight[key] > 0 then 0.5 * w.inFlight[key] as real else 0.0
  }

  function DslScore(w: World, ctx: map<string, Json>): Score {
    if w.definition.None? then Total(0.0) else ScoreOf(w.definition.value, ctx)
  }

  function PreferredBonus(w: World, name: string): real {
    if w.preferred == Some(name) && name != "" then 100.0 else 0.0
  }

  datatype Verdict = Skipped | Unavailable | Ranked(score: real)

  /** The score before the preferred bonus; `None` when the provider is excluded. */
  function ScoreFor(c: Config, snap: ProviderSnapshot, w: World): Option<real> {
    if !snap.healthy then None
    else
      match DslScore(w, Context(c, snap))
      case Total(points) => Some(Baseline(Context(c, snap)) + points - InFlightPenalty(w, c.name))
      case _ => None
  }

  /** What the ranking makes of one provider. */
  function VerdictOn(c: Config, w: World): Verdict {
    if !c.enabled || !c.hasKey then Skipped
    else if c.name !in w.snapshots || !w.snapshots[c.name].healthy then Unavailable
    else
      var snap := w.snapshots[c.name];
      if c.tpdLimit.Some? && c.tpdLimit.value != 0 && snap.tokensToday >= c.tpdLimit.value then Unavailable
      else if c.name !in w.registry then Skipped
      else
        match ScoreFor(c, snap, w)
        case Some(score) => Ranked(score + PreferredBonus(w, c.name))
        case None => Skipped
  }

  datatype Candidate = Candidate(name: string, score: real)

  /** The scored providers, in the order the repository lists them. */
  function Candidates(configs: seq<Config>, w: World): seq<Candidate> {
    if configs == [] then []
    else
      var n := |configs| - 1;
      var v := VerdictOn(configs[n], w);
      Candidates(configs[..n], w) + if v.Ranked? then [Candidate(configs[n].name, v.score)] else []
  }

  function Unhealthy(configs: seq<Config>, w: World): seq<string> {
    if configs == [] then []
    else
      var n := |configs| - 1;
      Unhealthy(configs[..n], w) + if VerdictOn(configs[n], w).Unavailable? then [configs[n].name] else []
  }

  // ---------- the stable sort ----------

  ghost predicate Descending(xs: seq<Candidate>) {
    forall i, j | 0 <= i < j < |xs| :: xs[i].score >= xs[j].score
  }

  /** The candidates of one score, in order. */
  function WithScore(xs: seq<Candidate>, score: real): seq<Candidate> {
    if xs == [] then []
    else (if xs[0].score == score then [xs[0]] else []) + WithScore(xs[1..], score)
  }

  /** The contract of `list.sort(key=score, reverse=True)`: descending, and ties keep their order. */
  ghost predicate StablySorted(sorted: seq<Candidate>, xs: seq<Candidate>) {
    Descending(sorted) && forall s: real :: WithScore(sorted, s) == WithScore(xs, s)
  }

  function Insert(xs: seq<Candidate>, x: Candidate): seq<Candidate> {
    if xs == [] || xs[0].score < x.score then [x] + xs else [xs[0]] + Insert(xs[1..], x)
  }

  function SortByScore(xs: seq<Candidate>): seq<Candidate> {
    if xs == [] then [] else Insert(SortByScore(xs[..|xs| - 1]), xs[|xs| - 1])
  }

  lemma {:induction false} WithScoreAppend(a: seq<Candidate>, b: seq<Candidate>, s: real)
    ensures WithScore(a + b, s) == WithScore(a, s) + WithScore(b, s)
    decreases |a|
  {
    if a == [] {
      assert a + b == b;
    } else {
      var head := if a[0].score == s then [a[0]] else [];
      var rest := WithScore(a[1..] + b, s);
      assert WithScore(a + b, s) == head + rest by {
        assert (a + b)[0] == a[0] && (a + b)[1..] == a[1..] + b;
      }
      WithScoreAppend(a[1..], b, s);
      assert head + (WithScore(a[1..], s) + WithScore(b, s)) == (head + WithScore(a[1..], s)) + WithScore(b, s);
    }
  }

  lemma {:induction false} InsertAdds(xs: seq<Candidate>, x: Candidate)
    ensures multiset(Insert(xs, x)) == multiset(xs) + multiset{x}
    decreases |xs|
  {
    if xs == [] || xs[0].score < x.score {
    } else {
      InsertAdds(xs[1..], x);
      assert xs == [xs[0]] + xs[1..];
    }
  }

  lemma {:induction false} InsertKeepsOrder(xs: seq<Candidate>, x: Candidate)
    requires Descending(xs)
    ensures Descending(Insert(xs, x))
    decreases |xs|
  {
    if xs == [] || xs[0].score < x.score {
    } else {
      InsertKeepsOrder(xs[1..], x);
      InsertAdds(xs[1..], x);
      var rest := Insert(xs[1..], x);
      forall i | 0 <= i < |rest| ensures rest[i].score <= xs[0].score {
        assert rest[i] in multiset(rest);
        assert rest[i] in multiset(xs[1..]) || rest[i] == x;
      }
    }
  }

  lemma {:induction false} InsertIsStable(xs: seq<Candidate>, x: Candidate, s: real)
    requires Descending(xs)
    ensures WithScore(Insert(xs, x), s) == WithScore(xs, s) + WithScore([x], s)
    decreases |xs|
  {
    if xs == [] || xs[0].score < x.score {
      assert ([x] + xs)[1..] == xs;
      if s == x.score {
        NoneWithScore(xs, s);
      }
    } else {
      InsertIsStable(xs[1..], x, s);
      assert Insert(xs, x)[1..] == Insert(xs[1..], x);
    }
  }

  lemma {:induction false} NoneWithScore(xs: seq<Candidate>, s: real)
    ensures WithScore(xs, s) == [] <==> forall c | c in xs :: c.score != s
    decreases |xs|
  {
    if xs != [] {
      NoneWithScore(xs[1..], s);
      assert xs == [xs[0]] + xs[1..];
    }
  }

  lemma {:induction false} SortIsStable(xs: seq<Candidate>)
    ensures StablySorted(SortByScore(xs), xs)
    ensures multiset(SortByScore(xs)) == multiset(xs)
    decreases |xs|
  {
    if xs != [] {
      var init, last := xs[..|xs| - 1], xs[|xs| - 1];
      SortIsStable(init);
      assert xs == init + [last];
      InsertKeepsOrder(SortByScore(init), last);
      InsertAdds(SortByScore(init), last);
      forall s: real ensures WithScore(SortByScore(xs), s) == WithScore(xs, s) {
        InsertIsStable(SortByScore(init), last, s);
        WithScoreAppend(init, [last], s);
      }
    }
  }

  lemma RestWithScore(xs: seq<Candidate>, s: real)
    requires xs != []
    ensures WithScore(xs[1..], s) == if xs[0].score == s then WithScore(xs, s)[1..] else WithScore(xs, s)
  {
  }

  /** The sort's contract leaves no freedom: any list that meets it is this one. */
  lemma {:induction false} StableSortIsUnique(a: seq<Candidate>, b: seq<Candidate>)
    requires Descending(a) && StablySorted(b, a)
    ensures a == b
    decreases |a|
  {
    if a == [] {
      if b != [] {
        assert false;
      }
    } else {
      NoneWithScore(a, a[0].score);
      NoneWithScore(b, a[0].score);
      assert WithScore(b, a[0].score) == WithScore(a, a[0].score);
      NoneWithScore(a, b[0].score);
      NoneWithScore(b, b[0].score);
      assert WithScore(b, b[0].score) == WithScore(a, b[0].score);
      assert a[0].score == b[0].score;
      assert WithScore(a, a[0].score)[0] == a[0] && WithScore(b, a[0].score)[0] == b[0];
      forall s: real ensures WithScore(b[1..], s) == WithScore(a[1..], s) {
        assert WithScore(b, s) == WithScore(a, s);
        RestWithScore(a, s);
        RestWithScore(b, s);
      }
      StableSortIsUnique(a[1..], b[1..]);
    }
  }

  // ---------- ranking ----------

  /** `_score`. */
  method TotalScore(c: Config, snap: ProviderSnapshot, w: World) returns (score: Option<real>)
    requires Parsed(w)
    ensures score == ScoreFor(c, snap, w)
  {
    hide Context, Baseline, ScoreOf;
    if !snap.healthy {
      return None;
    }
    var ctx := Context(c, snap);
    var total := BaselineScore(ctx);
    if w.definition.Some? {
      var dsl := ComputeScore(w.definition.value, ctx);
      if dsl.Excluded? {
        return None;
      }
      NoTypeErrors(w, ctx) by { ContextIsTyped(c, snap); }
      total := total + dsl.points;
    }
    var key := Key(w.user, c.name);
    var inFlight := if key in w.inFlight then w.inFlight[key] else 0;
    if inFlight > 0 {
      total := total - 0.5 * inFlight as real;
    }
    return Some(total);
  }

  /** `_rank`. */
  method Rank(configs: seq<Config>, w: World) returns (ranked: seq<Candidate>, unhealthy: seq<string>)
    requires Parsed(w)
    ensures StablySorted(ranked, Candidates(configs, w))
    ensures unhealthy == Unhealthy(configs, w)
  {
    hide ScoreFor, StablySorted, SortByScore, WellTypedDefinition;
    var candidates := [];
    unhealthy := [];
    for i := 0 to |configs|
      invariant candidates == Candidates(configs[..i], w)
      invariant unhealthy == Unhealthy(configs[..i], w)
    {
      var c := configs[i];
      assert configs[..i + 1][..i] == configs[..i];
      if !c.enabled || !c.hasKey {
        continue;
      }
      if c.name !in w.snapshots || !w.snapshots[c.name].healthy {
        unhealthy := unhealthy + [c.name];
        continue;
      }
      var snap := w.snapshots[c.name];
      if c.tpdLimit.Some? && c.tpdLimit.value != 0 && snap.tokensToday >= c.tpdLimit.value {
        unhealthy := unhealthy + [c.name];
        continue;
      }
      if c.name !in w.registry {
        continue;
      }
      var scored := TotalScore(c, snap, w);
      if scored.None? {
        continue;
      }
      var score := scored.value;
      if w.preferred.Some? && w.preferred.value != "" && c.name == w.preferred.value {
        score := score + 100.0;
      }
      candidates := candidates + [Candidate(c.name, score)];
    }
    assert configs[..|configs|] == configs;
    ranked := SortByScore(candidates);
    SortIsStable(candidates);
  }

  lemma NoTypeErrors(w: World, ctx: map<string, Json>)
    requires Parsed(w) && TypedContext(ctx)
    ensures !DslScore(w, ctx).ScoreTypeError?
  {
    if w.definition.Some? {
      var d := w.definition.value;
      PassesIsSafe(d.require, ctx);
      forall c | c in d.prefer ensures Matches(c, ctx).Val? { MatchIsSafe(c, ctx); }
    }
  }

  lemma {:induction false} CandidatesAreThePassing(configs: seq<Config>, w: World, x: Candidate)
    ensures x in Candidates(configs, w) <==>
      exists i :: 0 <= i < |configs| && configs[i].name == x.name && VerdictOn(configs[i], w) == Ranked(x.score)
    decreases |configs|
  {
    hide VerdictOn;
    if configs != [] {
      var n := |configs| - 1;
      CandidatesAreThePassing(configs[..n], w, x);
      assert forall i | 0 <= i < n :: configs[..n][i] == configs[i];
    }
  }

  lemma {:induction false} UnhealthyAreTheUnavailable(configs: seq<Config>, w: World, name: string)
    ensures name in Unhealthy(configs, w) <==>
      exists i :: 0 <= i < |configs| && configs[i].name == name && VerdictOn(configs[i], w).Unavailable?
    decreases |configs|
  {
    hide VerdictOn;
    if configs != [] {
      var n := |configs| - 1;
      UnhealthyAreTheUnavailable(configs[..n], w, name);
      assert forall i | 0 <= i < n :: configs[..n][i] == configs[i];
    }
  }

  /** The ranking holds exactly the providers that pass every filter, with their scores. */
  lemma RankedAreThePassing(configs: seq<Config>, w: World, ranked: seq<Candidate>, x: Candidate)
    requires StablySorted(ranked, Candidates(configs, w))
    ensures x in ranked <==>
      exists i :: 0 <= i < |configs| && configs[i].name == x.name && VerdictOn(configs[i], w) == Ranked(x.score)
    ensures multiset(ranked) == multiset(Candidates(configs, w))
  {
    hide VerdictOn;
    var candidates := Candidates(configs, w);
    SortIsStable(candidates);
    StableSortIsUnique(SortByScore(candidates), ranked);
    CandidatesAreThePassing(configs, w, x);
    assert x in ranked <==> x in multiset(ranked);
  }

  // ---------- the preferred provider ----------

  function AbsReal(x: real): real {
    if x >= 0.0 then x else -x
  }

  /** The sum of the absolute prefer weights. */
  function Spread(prefer: seq<Clause>): (r: real)
    ensures r >= 0.0
  {
    if prefer == [] then 0.0 else Spread(prefer[..|prefer| - 1]) + AbsReal(prefer[|prefer| - 1].weight)
  }

  /** Two providers' DSL points differ by at most the sum of the absolute weights. */
  lemma {:induction false} PointsSpread(prefer: seq<Clause>, a: map<string, Json>, b: map<string, Json>)
    ensures Points(prefer, a) - Points(prefer, b) <= Spread(prefer)
    decreases |prefer|
  {
    hide Matches;
    if prefer != [] {
      PointsSpread(prefer[..|prefer| - 1], a, b);
    }
  }

  function WorldSpread(w: World): real {
    if w.definition.None? then 0.0 else Spread(w.definition.value.prefer)
  }

  /** The preferred provider outscores a rival whenever 8.5, the weight gap, the prefer weights and
      its own in-flight penalty stay below the bonus of 100. */
  lemma PreferredOutscores(p: Config, c: Config, w: World)
    requires Parsed(w) && VerdictOn(p, w).Ranked? && VerdictOn(c, w).Ranked?
    requires w.preferred == Some(p.name) && p.name != "" && c.name != p.name
    requires w.snapshots[p.name].tokensToday >= 0 && w.snapshots[c.name].tokensToday >= 0
    requires 8.5 + (c.weight - p.weight) + WorldSpread(w) + InFlightPenalty(w, p.name) < 100.0
    ensures VerdictOn(c, w).score < VerdictOn(p, w).score
  {
    hide Context, Baseline, ScoreOf;
    var pc, cc := Context(p, w.snapshots[p.name]), Context(c, w.snapshots[c.name]);
    BaselineBounds(p, w.snapshots[p.name]);
    BaselineBounds(c, w.snapshots[c.name]);
    DslGap(w, cc, pc);
  }

  lemma DslGap(w: World, a: map<string, Json>, b: map<string, Json>)
    requires DslScore(w, a).Total? && DslScore(w, b).Total?
    ensures DslScore(w, a).points - DslScore(w, b).points <= WorldSpread(w)
  {
    if w.definition.Some? {
      PointsSpread(w.definition.value.prefer, a, b);
    }
  }

  /** Then it is ranked first. */
  lemma PreferredComesFirst(configs: seq<Config>, w: World, ranked: seq<Candidate>, k: nat)
    requires Parsed(w) && StablySorted(ranked, Candidates(configs, w))
    requires k < |configs| && VerdictOn(configs[k], w).Ranked?
    requires w.preferred == Some(configs[k].name) && configs[k].name != ""
    requires forall n | n in w.snapshots :: w.snapshots[n].tokensToday >= 0
    requires forall i | 0 <= i < |configs| && VerdictOn(configs[i], w).Ranked? ::
      8.5 + (configs[i].weight - configs[k].weight) + WorldSpread(w) + InFlightPenalty(w, configs[k].name) < 100.0
    ensures ranked != [] && ranked[0].name == configs[k].name
  {
    var p := Candidate(configs[k].name, VerdictOn(configs[k], w).score);
    RankedAreThePassing(configs, w, ranked, p);
    var first := ranked[0];
    RankedAreThePassing(configs, w, ranked, first);
    var i :| 0 <= i < |configs| && configs[i].name == first.name && VerdictOn(configs[i], w) == Ranked(first.score);
    assert first.score >= p.score;
    if first.name != p.name {
      PreferredOutscores(configs[k], configs[i], w);
    }
  }
}
