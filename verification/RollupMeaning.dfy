/** What every column of a rolled-up day counts, in terms of the usage events alone. */
module RollupMeaning {
  import opened Common
  import opened Rollup
  import opened RollupSchedule

  /** The event is one of the row's: of its day in UTC, with a missing user counted as 0 and a missing model
      as the empty one. */
  predicate Belongs(e: UsageEvent, key: RollupKey) {
    && key.day as real * 86400.0 <= e.at < key.day as real * 86400.0 + 86400.0
    && (match e.user case Some(u) => u == key.user case None => key.user == 0)
    && (match e.model case Some(m) => m == key.model case None => key.model == "")
    && e.provider == key.provider && e.strategy == key.strategy
  }

  function Tally(events: seq<UsageEvent>, p: UsageEvent -> bool): nat {
    if events == [] then 0 else (if p(events[|events| - 1]) then 1 else 0) + Tally(events[..|events| - 1], p)
  }

  function Sum(events: seq<UsageEvent>, p: UsageEvent -> bool, f: UsageEvent -> real): real {
    if events == [] then 0.0
    else
      var e := events[|events| - 1];
      (if p(e) then f(e) else 0.0) + Sum(events[..|events| - 1], p, f)
  }

  function OfRow(key: RollupKey): UsageEvent -> bool {
    (e: UsageEvent) => Belongs(e, key)
  }

  function WithOutcome(key: RollupKey, outcome: string): UsageEvent -> bool {
    (e: UsageEvent) => Belongs(e, key) && e.outcome == outcome
  }

  function NotSuccessful(key: RollupKey): UsageEvent -> bool {
    (e: UsageEvent) => Belongs(e, key) && e.outcome != "success"
  }

  /** The positions 1 and 2 are counted on their own, later ones together as 3. */
  function AtPosition(key: RollupKey, bucket: int): UsageEvent -> bool {
    (e: UsageEvent) => Belongs(e, key) && ((bucket < 3 && e.position == bucket) || (bucket == 3 && e.position >= 3))
  }

  function LatencyOf(): UsageEvent -> real {
    (e: UsageEvent) => e.latencyMs as real
  }

  function PromptOf(): UsageEvent -> real {
    (e: UsageEvent) => e.promptTokens as real
  }

  function CompletionOf(): UsageEvent -> real {
    (e: UsageEvent) => e.completionTokens as real
  }

  /** A missing cost counts nothing. */
  function CostOf(): UsageEvent -> real {
    (e: UsageEvent) => match e.cost case Some(c) => c case None => 0.0
  }

  lemma BelongsMeans(e: UsageEvent, key: RollupKey)
    ensures Belongs(e, key) <==> InDay(e, key.day) && KeyOf(e, key.day) == key
  {
    assert (key.day + 1) as real * DAY == key.day as real * 86400.0 + 86400.0;
  }

  lemma {:induction false} CountsMean(events: seq<UsageEvent>, key: RollupKey, o: string, b: int)
    ensures var es := OfKey(events, key);
      && |es| == Tally(events, OfRow(key))
      && CountOutcome(es, o) == Tally(events, WithOutcome(key, o))
      && CountFailed(es) == Tally(events, NotSuccessful(key))
      && CountBucket(es, b) == Tally(events, AtPosition(key, b))
    decreases |events|
  {
    hide KeyOfGroup, InDay, Belongs;
    if events != [] {
      var n := |events| - 1;
      CountsMean(events[..n], key, o, b);
      BelongsMeans(events[n], key);
      OneMoreCounted(OfKey(events[..n], key), events[n], o, b);
      assert OfKey(events[..n], key) + [] == OfKey(events[..n], key);
    }
  }

  lemma OneMoreCounted(es: seq<UsageEvent>, e: UsageEvent, o: string, b: int)
    ensures CountOutcome(es + [e], o) == CountOutcome(es, o) + if e.outcome == o then 1 else 0
    ensures CountFailed(es + [e]) == CountFailed(es) + if e.outcome != "success" then 1 else 0
    ensures CountBucket(es + [e], b) == CountBucket(es, b)
      + if (b < 3 && e.position == b) || (b == 3 && e.position >= 3) then 1 else 0
  {
    assert (es + [e])[..|es|] == es;
  }

  lemma {:induction false} SumsMean(events: seq<UsageEvent>, key: RollupKey)
    ensures var es := OfKey(events, key);
      && SumLatency(es) as real == Sum(events, OfRow(key), LatencyOf())
      && SumPrompt(es) as real == Sum(events, OfRow(key), PromptOf())
      && SumCompletion(es) as real == Sum(events, OfRow(key), CompletionOf())
      && SumCost(es) == Sum(events, OfRow(key), CostOf())
    decreases |events|
  {
    hide KeyOfGroup, InDay, Belongs, SumLatency, SumPrompt, SumCompletion, SumCost;
    OneMoreSummed([], []);
    if events != [] {
      var n := |events| - 1;
      SumsMean(events[..n], key);
      BelongsMeans(events[n], key);
      var es := OfKey(events[..n], key);
      OneMoreSummed(es, [events[n]]);
      assert es + [] == es;
    }
  }

  lemma OneMoreSummed(es: seq<UsageEvent>, one: seq<UsageEvent>)
    ensures |one| == 1 ==>
      && SumLatency(es + one) == SumLatency(es) + one[0].latencyMs
      && SumPrompt(es + one) == SumPrompt(es) + one[0].promptTokens
      && SumCompletion(es + one) == SumCompletion(es) + one[0].completionTokens
      && SumCost(es + one) == SumCost(es) + match one[0].cost case Some(c) => c case None => 0.0
    ensures SumLatency([]) == 0 && SumPrompt([]) == 0 && SumCompletion([]) == 0 && SumCost([]) == 0.0
  {
    if |one| == 1 {
      assert (es + one)[..|es|] == es;
    }
  }

  lemma {:induction false} SomeTallied(events: seq<UsageEvent>, p: UsageEvent -> bool)
    ensures Tally(events, p) > 0 <==> exists e :: e in events && p(e)
    decreases |events|
  {
    if events != [] {
      var n := |events| - 1;
      SomeTallied(events[..n], p);
      assert events == events[..n] + [events[n]];
    }
  }

  /** A rolled-up day has a row exactly for the keys some event belongs to. */
  lemma RowExistsIff(events: seq<UsageEvent>, day: int, key: RollupKey)
    ensures key in DayRows(events, day) <==> key.day == day && exists e :: e in events && Belongs(e, key)
  {
    hide InDay;
    forall e | e in events ensures Belongs(e, key) <==> InDay(e, key.day) && KeyOf(e, key.day) == key {
      BelongsMeans(e, key);
    }
    if key in DayRows(events, day) {
      var g :| g in Groups(events, day) && KeyOfGroup(g, day) == key;
      var e :| e in events && InDay(e, day) && GroupOf(e) == g;
      assert Belongs(e, key);
    }
    if e :| key.day == day && e in events && Belongs(e, key) {
      assert GroupOf(e) in Groups(events, day);
    }
  }

  /** Every column of the row is what its name says, over the events that belong to it. */
  lemma RowMeans(events: seq<UsageEvent>, day: int, key: RollupKey)
    requires key in DayRows(events, day)
    ensures var row := DayRows(events, day)[key];
      && row.total == Tally(events, OfRow(key))
      && row.success == Tally(events, WithOutcome(key, "success"))
      && row.failed == Tally(events, NotSuccessful(key))
      && row.latency as real == Sum(events, OfRow(key), LatencyOf())
      && row.promptTokens as real == Sum(events, OfRow(key), PromptOf())
      && row.completionTokens as real == Sum(events, OfRow(key), CompletionOf())
      && row.cost == Sum(events, OfRow(key), CostOf())
      && (forall o :: o in row.errors <==> o != "success" && Tally(events, WithOutcome(key, o)) > 0)
      && (forall o | o in row.errors :: row.errors[o] == Tally(events, WithOutcome(key, o)))
      && (forall b :: b in row.positions <==> Tally(events, AtPosition(key, b)) > 0)
      && (forall b | b in row.positions :: row.positions[b] == Tally(events, AtPosition(key, b)))
  {
    hide CountOutcome, CountFailed, CountBucket, SumLatency, SumPrompt, SumCompletion, SumCost, OfKey, Tally, Sum,
      Bucket, DayKeys, WithOutcome, AtPosition;
    var es := OfKey(events, key);
    SumsMean(events, key);
    forall o: string, b: int
      ensures CountOutcome(es, o) == Tally(events, WithOutcome(key, o))
      ensures CountBucket(es, b) == Tally(events, AtPosition(key, b))
      ensures CountOutcome(es, o) == 0 <==> forall e | e in es :: e.outcome != o
      ensures CountBucket(es, b) == 0 <==> forall e | e in es :: Bucket(e) != b
    {
      CountsMean(events, key, o, b);
      NoOutcome(es, o);
      NoBucket(es, b);
    }
    CountsMean(events, key, "", 0);
  }

  // ---------- the historical summary ----------

  /** The events of the day that a query asks for. */
  function Selected(day: int, q: Query): UsageEvent -> bool {
    (e: UsageEvent) =>
      && day as real * 86400.0 <= e.at < day as real * 86400.0 + 86400.0
      && (q.user.Some? ==> (match e.user case Some(u) => u case None => 0) == q.user.value)
      && (q.provider.Some? ==> e.provider == q.provider.value)
  }

  /** What an event adds to a column. */
  function Share(m: Measure): UsageEvent -> real {
    (e: UsageEvent) =>
      match m
      case Calls => 1.0
      case Successes => if e.outcome == "success" then 1.0 else 0.0
      case Failures => if e.outcome == "success" then 0.0 else 1.0
      case Latency => e.latencyMs as real
      case PromptTokens => e.promptTokens as real
      case CompletionTokens => e.completionTokens as real
      case Cost => match e.cost case Some(c) => c case None => 0.0
  }

  /** The direct aggregate that the summary is measured against. */
  lemma {:induction false} QueryMeans(events: seq<UsageEvent>, day: int, q: Query)
    ensures DirectTotal(events, day, q) == Sum(events, Selected(day, q), Share(q.measure))
    decreases |events|
  {
    if events != [] {
      QueryMeans(events[..|events| - 1], day, q);
      assert (day + 1) as real * DAY == day as real * 86400.0 + 86400.0;
    }
  }

  // ---------- one round of the job ----------

  lemma TodayMeans(at: real)
    ensures Today(at) as real * 86400.0 <= at < Today(at) as real * 86400.0 + 86400.0
  {
    var q := at / DAY;
    assert q.Floor as real <= q < q.Floor as real + 1.0 && q * DAY == at;
  }

  lemma {:induction false} SinceMeans(events: seq<UsageEvent>, cutoff: real, e: UsageEvent)
    ensures e in Since(events, cutoff) <==> e in events && e.at >= cutoff
    decreases |events|
  {
    if events != [] {
      SinceMeans(events[..|events| - 1], cutoff, e);
      assert events == events[..|events| - 1] + [events[|events| - 1]];
    }
  }

  /** A round that meets no collision on its two days keeps the events of the last 90 days, rolls yesterday
      and today up, leaves the other days and drops rows more than 730 days old; otherwise it does nothing. */
  lemma RoundMeans(s: State, at: real)
    ensures var day, after := Today(at), AfterRound(s, at);
      if Collides(s.events, day - 1) || Collides(s.events, day) then after == s
      else
        && (forall e :: e in after.events <==> e in s.events && e.at >= at - 90.0 * 86400.0)
        && (forall key :: key in after.rollup <==>
              && key.day >= day - 730
              && if key.day == day - 1 || key.day == day then key in DayRows(s.events, key.day) else key in s.rollup)
        && (forall key | key in after.rollup ::
              after.rollup[key] == if key.day == day - 1 || key.day == day then DayRows(s.events, key.day)[key]
                                   else s.rollup[key])
  {
    hide Collides, DayRows, Today, Since;
    var day := Today(at);
    forall e ensures e in Since(s.events, at - 90.0 * 86400.0) <==> e in s.events && e.at >= at - 90.0 * 86400.0 {
      SinceMeans(s.events, at - 90.0 * 86400.0, e);
    }
    forall key | key in DayRows(s.events, day) || key in DayRows(s.events, day - 1)
      ensures key in DayRows(s.events, day) ==> key.day == day
      ensures key in DayRows(s.events, day - 1) ==> key.day == day - 1
    {
      RowExistsIff(s.events, day, key);
      RowExistsIff(s.events, day - 1, key);
    }
  }
}
