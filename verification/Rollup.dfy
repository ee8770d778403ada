/** Usage events and their daily rollup: grouping, totals, and the purges. */
module Rollup {
  import opened Common

  const SUCCESS := "success"

  datatype UsageEvent = UsageEvent(
    at: real, user: Option<int>, provider: string, model: Option<string>, strategy: string, outcome: string,
    latencyMs: int, promptTokens: int, completionTokens: int, position: int, cost: Option<real>)

  /** The primary key of the rollup table: NULL users and models are stored as 0 and "". */
  datatype RollupKey = RollupKey(user: int, day: int, provider: string, model: string, strategy: string)

  datatype RollupRow = RollupRow(
    total: nat, success: nat, failed: nat, latency: int, promptTokens: int, completionTokens: int, cost: real,
    errors: map<string, nat>, positions: map<int, nat>)

  type Table = map<RollupKey, RollupRow>

  predicate InDay(e: UsageEvent, day: int) {
    day as real * DAY <= e.at < (day + 1) as real * DAY
  }

  /** What GROUP BY groups on: the stored columns, not the defaulted ones. */
  datatype RawGroup = RawGroup(user: Option<int>, provider: string, model: Option<string>, strategy: string)

  function GroupOf(e: UsageEvent): RawGroup {
    RawGroup(e.user, e.provider, e.model, e.strategy)
  }

  function KeyOfGroup(g: RawGroup, day: int): RollupKey {
    RollupKey(if g.user.Some? then g.user.value else 0, day, g.provider,
              if g.model.Some? then g.model.value else "", g.strategy)
  }

  function KeyOf(e: UsageEvent, day: int): RollupKey {
    KeyOfGroup(GroupOf(e), day)
  }

  function OfKey(events: seq<UsageEvent>, key: RollupKey): seq<UsageEvent> {
    if events == [] then []
    else
      var n := |events| - 1;
      OfKey(events[..n], key)
        + if InDay(events[n], key.day) && KeyOf(events[n], key.day) == key then [events[n]] else []
  }

  function OfGroup(events: seq<UsageEvent>, day: int, g: RawGroup): seq<UsageEvent> {
    if events == [] then []
    else
      var n := |events| - 1;
      OfGroup(events[..n], day, g) + if InDay(events[n], day) && GroupOf(events[n]) == g then [events[n]] else []
  }

  // ---------- aggregates ----------

  datatype Measure = Calls | Successes | Failures | Latency | PromptTokens | CompletionTokens | Cost

  /** What one event adds to a measure. A NULL cost adds nothing. */
  function Amount(e: UsageEvent, m: Measure): real {
    match m
    case Calls => 1.0
    case Successes => if e.outcome == SUCCESS then 1.0 else 0.0
    case Failures => if e.outcome != SUCCESS then 1.0 else 0.0
    case Latency => e.latencyMs as real
    case PromptTokens => e.promptTokens as real
    case CompletionTokens => e.completionTokens as real
    case Cost => if e.cost.Some? then e.cost.value else 0.0
  }

  function CountOutcome(es: seq<UsageEvent>, outcome: string): nat {
    if es == [] then 0
    else CountOutcome(es[..|es| - 1], outcome) + if es[|es| - 1].outcome == outcome then 1 else 0
  }

  function CountFailed(es: seq<UsageEvent>): nat {
    if es == [] then 0
    else CountFailed(es[..|es| - 1]) + if es[|es| - 1].outcome != SUCCESS then 1 else 0
  }

  /** LEAST(fallback_position, 3). */
  function Bucket(e: UsageEvent): int {
    MinInt(e.position, 3)
  }

  function CountBucket(es: seq<UsageEvent>, bucket: int): nat {
    if es == [] then 0
    else CountBucket(es[..|es| - 1], bucket) + if Bucket(es[|es| - 1]) == bucket then 1 else 0
  }

  function SumLatency(es: seq<UsageEvent>): int {
    if es == [] then 0 else SumLatency(es[..|es| - 1]) + es[|es| - 1].latencyMs
  }

  function SumPrompt(es: seq<UsageEvent>): int {
    if es == [] then 0 else SumPrompt(es[..|es| - 1]) + es[|es| - 1].promptTokens
  }

  function SumCompletion(es: seq<UsageEvent>): int {
    if es == [] then 0 else SumCompletion(es[..|es| - 1]) + es[|es| - 1].completionTokens
  }

  function SumCost(es: seq<UsageEvent>): real {
    if es == [] then 0.0
    else SumCost(es[..|es| - 1]) + if es[|es| - 1].cost.Some? then es[|es| - 1].cost.value else 0.0
  }

  function ErrorKinds(group: seq<UsageEvent>): set<string> {
    set e | e in group && e.outcome != SUCCESS :: e.outcome
  }

  /** jsonb_object_agg over the outcomes of a group, with the counts of its partition. */
  function ErrorsByKind(group: seq<UsageEvent>, partition: seq<UsageEvent>): map<string, nat> {
    map o | o in ErrorKinds(group) :: CountOutcome(partition, o)
  }

  function PositionHist(group: seq<UsageEvent>, partition: seq<UsageEvent>): map<int, nat> {
    map b | b in (set e | e in group :: Bucket(e)) :: CountBucket(partition, b)
  }

  /** The aggregates run over the raw group, the two window counts over the defaulted partition. */
  function Aggregate(group: seq<UsageEvent>, partition: seq<UsageEvent>): RollupRow {
    RollupRow(|group|, CountOutcome(group, SUCCESS), CountFailed(group), SumLatency(group), SumPrompt(group),
              SumCompletion(group), SumCost(group), ErrorsByKind(group, partition), PositionHist(group, partition))
  }

  function RowMeasure(row: RollupRow, m: Measure): real {
    match m
    case Calls => row.total as real
    case Successes => row.success as real
    case Failures => row.failed as real
    case Latency => row.latency as real
    case PromptTokens => row.promptTokens as real
    case CompletionTokens => row.completionTokens as real
    case Cost => row.cost
  }

  // ---------- sums over a map ----------

  ghost function Pick<K>(m: map<K, real>): (k: K)
    requires m != map[]
    ensures k in m
  {
    assert m.Keys != {};
    var k :| k in m;
    k
  }

  ghost function SumValues<K>(m: map<K, real>): real
    decreases |m|
  {
    if m == map[] then 0.0
    else
      var k := Pick(m);
      m[k] + SumValues(m - {k})
  }

  /** Any entry can be taken out first. */
  lemma {:induction false} SumValuesAt<K>(m: map<K, real>, k: K)
    requires k in m
    ensures SumValues(m) == m[k] + SumValues(m - {k})
    decreases |m|
  {
    var first := Pick(m);
    if first != k {
      SumValuesAt(m - {first}, k);
      SumValuesAt(m - {k}, first);
      assert m - {first} - {k} == m - {k} - {first};
    }
  }

  lemma SumAfterUpdate<K>(m: map<K, real>, k: K, v: real)
    ensures SumValues(m[k := v]) == SumValues(m) + v - (if k in m then m[k] else 0.0)
  {
    SumValuesAt(m[k := v], k);
    assert m[k := v] - {k} == m - {k};
    if k in m {
      SumValuesAt(m, k);
    } else {
      assert m - {k} == m;
    }
  }

  function Weights<K>(m: map<K, nat>): map<K, real> {
    map k | k in m :: m[k] as real
  }

  // ---------- one row ----------

  lemma {:induction false} NoOutcome(es: seq<UsageEvent>, o: string)
    ensures CountOutcome(es, o) == 0 <==> forall e | e in es :: e.outcome != o
    decreases |es|
  {
    if es != [] {
      NoOutcome(es[..|es| - 1], o);
      assert es == es[..|es| - 1] + [es[|es| - 1]];
    }
  }

  lemma {:induction false} NoBucket(es: seq<UsageEvent>, b: int)
    ensures CountBucket(es, b) == 0 <==> forall e | e in es :: Bucket(e) != b
    decreases |es|
  {
    if es != [] {
      NoBucket(es[..|es| - 1], b);
      assert es == es[..|es| - 1] + [es[|es| - 1]];
    }
  }

  lemma OneMoreWeight<K>(m: map<K, nat>, k: K, v: nat)
    ensures Weights(m[k := v]) == Weights(m)[k := v as real]
  {
  }

  lemma ErrorKindsStep(init: seq<UsageEvent>, last: UsageEvent)
    ensures ErrorKinds(init + [last]) == ErrorKinds(init) + if last.outcome != SUCCESS then {last.outcome} else {}
  {
  }

  lemma OneMoreError(init: seq<UsageEvent>, last: UsageEvent)
    requires last.outcome != SUCCESS
    ensures ErrorsByKind(init + [last], init + [last])
      == ErrorsByKind(init, init)[last.outcome := CountOutcome(init, last.outcome) + 1]
  {
    hide CountOutcome, ErrorKinds;
    ErrorKindsStep(init, last);
    forall o: string
      ensures CountOutcome(init + [last], o) == CountOutcome(init, o) + if last.outcome == o then 1 else 0
    {
      OutcomeStep(init, last, o);
    }
  }

  lemma OutcomeStep(init: seq<UsageEvent>, last: UsageEvent, o: string)
    ensures CountOutcome(init + [last], o) == CountOutcome(init, o) + if last.outcome == o then 1 else 0
  {
    assert (init + [last])[..|init|] == init;
  }

  lemma OneMoreSuccess(init: seq<UsageEvent>, last: UsageEvent)
    requires last.outcome == SUCCESS
    ensures ErrorsByKind(init + [last], init + [last]) == ErrorsByKind(init, init)
  {
    hide CountOutcome, ErrorKinds;
    ErrorKindsStep(init, last);
    forall o: string | o in ErrorKinds(init) ensures CountOutcome(init + [last], o) == CountOutcome(init, o) {
      OutcomeStep(init, last, o);
      ErrorKindsAreErrors(init, o);
    }
  }

  lemma ErrorKindsAreErrors(es: seq<UsageEvent>, o: string)
    requires o in ErrorKinds(es)
    ensures o != SUCCESS
  {
  }

  lemma {:induction false} ErrorsSum(es: seq<UsageEvent>)
    ensures SumValues(Weights(ErrorsByKind(es, es))) == CountFailed(es) as real
    decreases |es|
  {
    hide ErrorsByKind, SumValues, Weights;
    if es == [] {
      NothingToSum();
    } else {
      var init, last := es[..|es| - 1], es[|es| - 1];
      ErrorsSum(init);
      assert es == init + [last];
      if last.outcome == SUCCESS {
        OneMoreSuccess(init, last);
      } else {
        var before, count := ErrorsByKind(init, init), CountOutcome(init, last.outcome);
        OneMoreError(init, last);
        OneMoreWeight(before, last.outcome, count + 1);
        SumAfterUpdate(Weights(before), last.outcome, (count + 1) as real);
        ErrorEntry(init, last.outcome);
      }
    }
  }

  lemma NothingToSum()
    ensures SumValues(Weights(ErrorsByKind([], []))) == 0.0
    ensures SumValues(Weights(PositionHist([], []))) == 0.0
  {
    assert Weights(ErrorsByKind([], [])) == map[];
    assert Weights(PositionHist([], [])) == map[];
  }

  lemma ErrorEntry(es: seq<UsageEvent>, o: string)
    requires o != SUCCESS
    ensures var w := Weights(ErrorsByKind(es, es)); (if o in w then w[o] else 0.0) == CountOutcome(es, o) as real
  {
    NoOutcome(es, o);
  }

  lemma BucketStep(init: seq<UsageEvent>, last: UsageEvent, b: int)
    ensures CountBucket(init + [last], b) == CountBucket(init, b) + if Bucket(last) == b then 1 else 0
  {
    assert (init + [last])[..|init|] == init;
  }

  lemma OneMorePosition(init: seq<UsageEvent>, last: UsageEvent)
    ensures PositionHist(init + [last], init + [last])
      == PositionHist(init, init)[Bucket(last) := CountBucket(init, Bucket(last)) + 1]
  {
    hide CountBucket, Bucket;
    var es := init + [last];
    forall b ensures CountBucket(es, b) == CountBucket(init, b) + if Bucket(last) == b then 1 else 0 {
      BucketStep(init, last, b);
    }
    assert (set e | e in es :: Bucket(e)) == (set e | e in init :: Bucket(e)) + {Bucket(last)};
  }

  lemma PositionEntry(es: seq<UsageEvent>, b: int)
    ensures var w := Weights(PositionHist(es, es)); (if b in w then w[b] else 0.0) == CountBucket(es, b) as real
  {
    NoBucket(es, b);
  }

  lemma {:induction false} PositionsSum(es: seq<UsageEvent>)
    ensures SumValues(Weights(PositionHist(es, es))) == |es| as real
    decreases |es|
  {
    hide PositionHist, SumValues, Weights;
    if es == [] {
      NothingToSum();
    } else {
      var init, last := es[..|es| - 1], es[|es| - 1];
      PositionsSum(init);
      assert es == init + [last];
      var before, count := PositionHist(init, init), CountBucket(init, Bucket(last));
      OneMorePosition(init, last);
      OneMoreWeight(before, Bucket(last), count + 1);
      SumAfterUpdate(Weights(before), Bucket(last), (count + 1) as real);
      PositionEntry(init, Bucket(last));
    }
  }

  lemma {:induction false} SuccessPlusFailed(es: seq<UsageEvent>)
    ensures CountOutcome(es, SUCCESS) + CountFailed(es) == |es|
    decreases |es|
  {
    if es != [] {
      SuccessPlusFailed(es[..|es| - 1]);
    }
  }

  /** Every row adds up: successes and failures to the total, errors by kind to the failures, and the
      position histogram to the total. */
  ghost predicate Consistent(row: RollupRow) {
    && row.total == row.success + row.failed
    && SumValues(Weights(row.errors)) == row.failed as real
    && SumValues(Weights(row.positions)) == row.total as real
    && SUCCESS !in row.errors
  }

  lemma RowsAreConsistent(es: seq<UsageEvent>)
    ensures Consistent(Aggregate(es, es))
  {
    SuccessPlusFailed(es);
    ErrorsSum(es);
    PositionsSum(es);
  }

  // ---------- rollup_day ----------

  function Groups(events: seq<UsageEvent>, day: int): set<RawGroup> {
    set e | e in events && InDay(e, day) :: GroupOf(e)
  }

  /** Two groups of the day that the primary key does not keep apart: one has NULL and the other 0 as
      user, or one NULL and the other "" as model. */
  ghost predicate Collides(events: seq<UsageEvent>, day: int) {
    exists g, h | g in Groups(events, day) && h in Groups(events, day) ::
      g != h && KeyOfGroup(g, day) == KeyOfGroup(h, day)
  }

  /** The input: an event without a user and one of user 0, otherwise in the same group. */
  lemma NullAndZeroCollide(e: UsageEvent, day: int)
    requires InDay(e, day)
    ensures Collides([e.(user := None), e.(user := Some(0))], day)
    ensures Collides([e.(model := None), e.(model := Some(""))], day)
  {
    var users := [e.(user := None), e.(user := Some(0))];
    assert users[0] in users && users[1] in users;
    assert GroupOf(users[0]) in Groups(users, day) && GroupOf(users[1]) in Groups(users, day);
    var models := [e.(model := None), e.(model := Some(""))];
    assert models[0] in models && models[1] in models;
    assert GroupOf(models[0]) in Groups(models, day) && GroupOf(models[1]) in Groups(models, day);
  }

  function DayKeys(events: seq<UsageEvent>, day: int): set<RollupKey> {
    set g | g in Groups(events, day) :: KeyOfGroup(g, day)
  }

  /** The rows of one day: one per key, over all its events. */
  function DayRows(events: seq<UsageEvent>, day: int): Table {
    map key | key in DayKeys(events, day) :: Aggregate(OfKey(events, key), OfKey(events, key))
  }

  function WithoutDay(table: Table, day: int): Table {
    map key | key in table && key.day != day :: table[key]
  }

  /** The table after a rollup of `day`. */
  function RolledUp(table: Table, events: seq<UsageEvent>, day: int): Table {
    WithoutDay(table, day) + DayRows(events, day)
  }

  /** The row INSERT ... SELECT makes of one group. */
  function RowFor(events: seq<UsageEvent>, day: int, g: RawGroup): RollupRow {
    Aggregate(OfGroup(events, day, g), OfKey(events, KeyOfGroup(g, day)))
  }

  lemma {:induction false} GroupIsPartition(events: seq<UsageEvent>, day: int, g: RawGroup)
    requires forall h | h in Groups(events, day) && KeyOfGroup(h, day) == KeyOfGroup(g, day) :: h == g
    ensures OfGroup(events, day, g) == OfKey(events, KeyOfGroup(g, day))
    decreases |events|
  {
    if events != [] {
      var n := |events| - 1;
      assert forall h | h in Groups(events[..n], day) :: h in Groups(events, day);
      GroupIsPartition(events[..n], day, g);
      assert InDay(events[n], day) ==> GroupOf(events[n]) in Groups(events, day);
    }
  }

  /** Without a collision the groups of the query are the keys of the table. */
  lemma RowsOfGroups(events: seq<UsageEvent>, day: int, inserted: Table)
    requires !Collides(events, day)
    requires inserted.Keys == DayKeys(events, day)
    requires forall g | g in Groups(events, day) :: inserted[KeyOfGroup(g, day)] == RowFor(events, day, g)
    ensures inserted == DayRows(events, day)
  {
    forall key | key in inserted ensures inserted[key] == DayRows(events, day)[key] {
      var g :| g in Groups(events, day) && KeyOfGroup(g, day) == key;
      GroupIsPartition(events, day, g);
    }
  }

  lemma MoreGroups(events: seq<UsageEvent>, day: int, i: nat)
    requires i < |events|
    ensures Groups(events[..i + 1], day) ==
      Groups(events[..i], day) + if InDay(events[i], day) then {GroupOf(events[i])} else {}
  {
    assert events[..i + 1] == events[..i] + [events[i]];
  }

  lemma CollisionShows(events: seq<UsageEvent>, day: int, i: nat)
    requires i < |events| && InDay(events[i], day)
    requires GroupOf(events[i]) !in Groups(events[..i], day) && KeyOf(events[i], day) in DayKeys(events[..i], day)
    ensures Collides(events, day)
  {
    var g :| g in Groups(events[..i], day) && KeyOfGroup(g, day) == KeyOf(events[i], day);
    assert g in Groups(events, day) && GroupOf(events[i]) in Groups(events, day);
  }

  /** Where the INSERT stands after some of the events: no collision so far, one row per group. */
  ghost predicate Inserted(
    events: seq<UsageEvent>, day: int, done: seq<UsageEvent>, seen: set<RawGroup>, inserted: Table)
  {
    && seen == Groups(done, day)
    && inserted.Keys == DayKeys(done, day)
    && (forall g | g in seen :: inserted[KeyOfGroup(g, day)] == RowFor(events, day, g))
    && !Collides(done, day)
  }

  lemma NothingInserted(events: seq<UsageEvent>, day: int)
    ensures Inserted(events, day, [], {}, map[])
  {
  }

  /** One event: skipped, a duplicate key, or a new row. */
  lemma OneEvent(events: seq<UsageEvent>, day: int, i: nat, seen: set<RawGroup>, inserted: Table)
    requires i < |events| && Inserted(events, day, events[..i], seen, inserted)
    ensures var e := events[i];
      if !InDay(e, day) || GroupOf(e) in seen then Inserted(events, day, events[..i + 1], seen, inserted)
      else if KeyOf(e, day) in inserted then Collides(events, day)
      else Inserted(events, day, events[..i + 1], seen + {GroupOf(e)},
                    inserted[KeyOf(e, day) := RowFor(events, day, GroupOf(e))])
  {
    hide RowFor, KeyOfGroup, Groups;
    var e := events[i];
    MoreGroups(events, day, i);
    if InDay(e, day) && GroupOf(e) !in seen {
      if KeyOf(e, day) in inserted {
        CollisionShows(events, day, i);
      } else {
        assert forall g | g in seen :: KeyOfGroup(g, day) in inserted;
      }
    }
  }

  lemma AllInserted(events: seq<UsageEvent>, day: int, seen: set<RawGroup>, inserted: Table)
    requires Inserted(events, day, events, seen, inserted)
    ensures !Collides(events, day) && inserted == DayRows(events, day)
  {
    RowsOfGroups(events, day, inserted);
  }

  class UsageRepository {
    var events: seq<UsageEvent>
    var rollup: Table

    /** `record`. */
    method Record(e: UsageEvent)
      modifies this`events
      ensures events == old(events) + [e]
    {
      events := events + [e];
    }

    /** `rollup_day`: delete, then one row per group. A duplicate key fails the statement, and its
        transaction leaves the table as it was. */
    method RollupDay(day: int) returns (rows: Option<nat>)
      modifies this`rollup
      ensures rows.None? <==> Collides(events, day)
      ensures rows.None? ==> rollup == old(rollup)
      ensures rows.Some? ==> rollup == RolledUp(old(rollup), events, day)
      ensures rows.Some? ==> rows.value == |DayRows(events, day)|
    {
      hide Inserted, RowFor, KeyOfGroup, Groups, Collides, DayRows;
      var kept := WithoutDay(rollup, day);
      var inserted: Table := map[];
      var seen: set<RawGroup> := {};
      assert Inserted(events, day, [], seen, inserted) by { NothingInserted(events, day); }
      for i := 0 to |events|
        invariant Inserted(events, day, events[..i], seen, inserted)
        invariant rollup == old(rollup)
      {
        var e := events[i];
        OneEvent(events, day, i, seen, inserted);
        if !InDay(e, day) || GroupOf(e) in seen {
          continue;
        }
        var key := KeyOf(e, day);
        if key in inserted {
          return None;
        }
        inserted := inserted[key := RowFor(events, day, GroupOf(e))];
        seen := seen + {GroupOf(e)};
      }
      assert events[..|events|] == events;
      AllInserted(events, day, seen, inserted);
      rollup := kept + inserted;
      rows := Some(|inserted|);
    }

    method PurgeOlderThan(now: real, seconds: real) returns (count: nat)
      modifies this`events
      ensures events == Since(old(events), now - seconds) && count == |old(events)| - |events|
    {
      SinceIsShorter(events, now - seconds);
      count := |events| - |Since(events, now - seconds)|;
      events := Since(events, now - seconds);
    }

    method PurgeRollupsOlderThan(today: int, days: int) returns (count: nat)
      modifies this`rollup
      ensures rollup == FromDay(old(rollup), today - days)
      ensures count == |old(rollup).Keys - rollup.Keys|
    {
      var doomed := set key | key in rollup && key.day < today - days;
      count := |doomed|;
      assert rollup.Keys - FromDay(rollup, today - days).Keys == doomed;
      rollup := FromDay(rollup, today - days);
    }
  }

  // ---------- purges ----------

  function Since(events: seq<UsageEvent>, cutoff: real): seq<UsageEvent> {
    if events == [] then []
    else
      var n := |events| - 1;
      Since(events[..n], cutoff) + if events[n].at < cutoff then [] else [events[n]]
  }

  lemma {:induction false} SinceIsShorter(events: seq<UsageEvent>, cutoff: real)
    ensures |Since(events, cutoff)| <= |events|
    decreases |events|
  {
    if events != [] {
      SinceIsShorter(events[..|events| - 1], cutoff);
    }
  }

  function FromDay(table: Table, day: int): Table {
    map key | key in table && key.day >= day :: table[key]
  }

  // ---------- a rolled-up day ----------

  /** Rolling a day up again changes nothing, late rows are absorbed as if they had been there the
      first time, and other days are not touched. */
  lemma RollupIsIdempotent(table: Table, events: seq<UsageEvent>, late: seq<UsageEvent>, day: int)
    ensures RolledUp(RolledUp(table, events, day), events, day) == RolledUp(table, events, day)
    ensures RolledUp(RolledUp(table, events, day), events + late, day) == RolledUp(table, events + late, day)
    ensures forall key: RollupKey | key.day != day ::
      (key in RolledUp(table, events, day) <==> key in table)
      && (key in table ==> RolledUp(table, events, day)[key] == table[key])
  {
    hide Aggregate, OfKey;
    assert WithoutDay(RolledUp(table, events, day), day) == WithoutDay(table, day);
  }

  lemma DayRowsAreConsistent(events: seq<UsageEvent>, day: int)
    ensures forall key | key in DayRows(events, day) :: Consistent(DayRows(events, day)[key])
  {
    hide Aggregate, OfKey, Consistent;
    forall key | key in DayRows(events, day) ensures Consistent(DayRows(events, day)[key]) {
      RowsAreConsistent(OfKey(events, key));
    }
  }

  // ---------- conservation ----------

  /** A column of the historical summary, for one user or all, one provider or all. */
  datatype Query = Query(measure: Measure, user: Option<int>, provider: Option<string>)

  predicate Asks(q: Query, key: RollupKey) {
    (q.user.Some? ==> key.user == q.user.value) && (q.provider.Some? ==> key.provider == q.provider.value)
  }

  function Contributions(table: Table, q: Query): map<RollupKey, real> {
    map key | key in table && Asks(q, key) :: RowMeasure(table[key], q.measure)
  }

  /** The aggregate taken directly over the events of a day. */
  function DirectTotal(events: seq<UsageEvent>, day: int, q: Query): real {
    if events == [] then 0.0
    else
      var n := |events| - 1;
      DirectTotal(events[..n], day, q)
      + if InDay(events[n], day) && Asks(q, KeyOf(events[n], day)) then Amount(events[n], q.measure) else 0.0
  }

  lemma OneMoreInRow(es: seq<UsageEvent>, e: UsageEvent, m: Measure)
    ensures RowMeasure(Aggregate(es + [e], es + [e]), m) == RowMeasure(Aggregate(es, es), m) + Amount(e, m)
    ensures RowMeasure(Aggregate([], []), m) == 0.0
  {
    hide ErrorsByKind, PositionHist;
    assert (es + [e])[..|es|] == es;
  }

  lemma {:induction false} NoKeyNoEvents(events: seq<UsageEvent>, key: RollupKey)
    requires key !in DayKeys(events, key.day)
    ensures OfKey(events, key) == []
    decreases |events|
  {
    hide KeyOfGroup;
    if events != [] {
      var n := |events| - 1;
      MoreGroups(events, key.day, n);
      assert events[..n + 1] == events;
      assert forall k | k in DayKeys(events[..n], key.day) :: k in DayKeys(events, key.day);
      NoKeyNoEvents(events[..n], key);
    }
  }

  /** One more event of the day only changes the row of its key. */
  lemma DayRowsStep(events: seq<UsageEvent>, day: int)
    requires events != []
    ensures var n, e := |events| - 1, events[|events| - 1];
      var key := KeyOf(e, day);
      DayRows(events, day) ==
        if InDay(e, day) then DayRows(events[..n], day)[key := Aggregate(OfKey(events, key), OfKey(events, key))]
        else DayRows(events[..n], day)
  {
    hide Aggregate, KeyOfGroup, Groups;
    var n, e := |events| - 1, events[|events| - 1];
    MoreGroups(events, day, n);
    assert events[..n + 1] == events;
    var key := KeyOf(e, day);
    forall k | k in DayKeys(events[..n], day) && (!InDay(e, day) || k != key)
      ensures OfKey(events, k) == OfKey(events[..n], k)
    {
      KeysAreOfTheDay(events[..n], day, k);
    }
    if InDay(e, day) {
      assert DayKeys(events, day) == DayKeys(events[..n], day) + {key};
    }
  }

  /** One more event of the day adds its amount to its own row and leaves the others. */
  lemma OneMoreEvent(events: seq<UsageEvent>, day: int, q: Query)
    requires events != []
    ensures var n, e := |events| - 1, events[|events| - 1];
      var before, after := Contributions(DayRows(events[..n], day), q), Contributions(DayRows(events, day), q);
      if InDay(e, day) && Asks(q, KeyOf(e, day)) then
        var key := KeyOf(e, day);
        after == before[key := (if key in before then before[key] else 0.0) + Amount(e, q.measure)]
      else after == before
  {
    hide Aggregate, RowMeasure, KeyOfGroup, Asks, Amount, Groups;
    var n, e := |events| - 1, events[|events| - 1];
    DayRowsStep(events, day);
    if InDay(e, day) {
      var key := KeyOf(e, day);
      KeyHasItsDay(e, day);
      assert OfKey(events, key) == OfKey(events[..n], key) + [e];
      OneMoreInRow(OfKey(events[..n], key), e, q.measure);
      if key !in DayKeys(events[..n], day) {
        NoKeyNoEvents(events[..n], key);
      }
    }
  }

  lemma KeyHasItsDay(e: UsageEvent, day: int)
    ensures KeyOf(e, day).day == day
  {
  }

  lemma KeysAreOfTheDay(events: seq<UsageEvent>, day: int, key: RollupKey)
    requires key in DayKeys(events, day)
    ensures key.day == day
  {
  }

  /** Conservation: summing any column over the day's rows, for any user and provider, is summing
      it over the day's events. */
  lemma {:induction false} RollupConserves(events: seq<UsageEvent>, day: int, q: Query)
    ensures SumValues(Contributions(DayRows(events, day), q)) == DirectTotal(events, day, q)
    decreases |events|
  {
    hide DayRows, KeyOfGroup, Asks, Amount, RowMeasure;
    if events == [] {
      NoRows(day);
      assert Contributions(map[], q) == map[];
    } else {
      var n, e := |events| - 1, events[|events| - 1];
      RollupConserves(events[..n], day, q);
      OneMoreEvent(events, day, q);
      var before := Contributions(DayRows(events[..n], day), q);
      if InDay(e, day) && Asks(q, KeyOf(e, day)) {
        var key := KeyOf(e, day);
        SumAfterUpdate(before, key, (if key in before then before[key] else 0.0) + Amount(e, q.measure));
      }
    }
  }

  lemma NoRows(day: int)
    ensures DayRows([], day) == map[]
  {
    assert Groups([], day) == {};
  }
}
