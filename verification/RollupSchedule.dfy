/** The hourly job: roll up yesterday and today, then purge. What the long-window history is worth. */
module RollupSchedule {
  import opened Common
  import opened Rollup

  const EVENT_DAYS := 90
  const ROLLUP_DAYS := 730

  function Today(at: real): int {
    (at / DAY).Floor
  }

  datatype State = State(events: seq<UsageEvent>, rollup: Table)


  /** A colliding day fails the round's transaction. */
  ghost predicate RoundFails(events: seq<UsageEvent>, at: real) {
    Collides(events, Today(at) - 1) || Collides(events, Today(at))
  }

  ghost function AfterRound(s: State, at: real): State {
    if RoundFails(s.events, at) then s
    else
      var rolled := RolledUp(RolledUp(s.rollup, s.events, Today(at) - 1), s.events, Today(at));
      State(Since(s.events, at - EVENT_DAYS as real * DAY), FromDay(rolled, Today(at) - ROLLUP_DAYS))
  }

  /** One round of `_periodic_purge`, in one transaction. */
  method Round(repo: UsageRepository, at: real)
    modifies repo
    ensures State(repo.events, repo.rollup) == AfterRound(old(State(repo.events, repo.rollup)), at)
  {
    hide Collides, RolledUp, Since, FromDay, DayRows, Today;
    var before := repo.rollup;
    var yesterday := repo.RollupDay(Today(at) - 1);
    if yesterday.None? {
      return;
    }
    var today := repo.RollupDay(Today(at));
    if today.None? {
      repo.rollup := before;
      return;
    }
    var purgedEvents := repo.PurgeOlderThan(at, EVENT_DAYS as real * DAY);
    var purgedRows := repo.PurgeRollupsOlderThan(Today(at), ROLLUP_DAYS);
  }

  // ---------- runs ----------

  /** An event is written some time after it occurred, however late. */
  datatype Step = Write(event: UsageEvent, at: real) | Job(at: real)

  ghost predicate Ordered(steps: seq<Step>) {
    forall i, j | 0 <= i < j < |steps| :: steps[i].at <= steps[j].at
  }

  ghost function Run(steps: seq<Step>): State {
    if steps == [] then State([], map[])
    else
      var s, last := Run(steps[..|steps| - 1]), steps[|steps| - 1];
      match last
      case Write(e, _) => s.(events := s.events + [e])
      case Job(at) => AfterRound(s, at)
  }

  /** Every event ever written. */
  function History(steps: seq<Step>): seq<UsageEvent> {
    if steps == [] then []
    else
      var last := steps[|steps| - 1];
      History(steps[..|steps| - 1]) + if last.Write? then [last.event] else []
  }

  // ---------- a day's rows only depend on the day's events ----------

  function OfDay(events: seq<UsageEvent>, day: int): seq<UsageEvent> {
    if events == [] then []
    else
      var n := |events| - 1;
      OfDay(events[..n], day) + if InDay(events[n], day) then [events[n]] else []
  }

  lemma {:induction false} SameOfKey(events: seq<UsageEvent>, key: RollupKey)
    ensures OfKey(OfDay(events, key.day), key) == OfKey(events, key)
    decreases |events|
  {
    if events != [] {
      var n := |events| - 1;
      SameOfKey(events[..n], key);
      var day := OfDay(events[..n], key.day);
      assert (day + [events[n]])[..|day|] == day && day + [] == day;
    }
  }

  lemma {:induction false} SameMembers(events: seq<UsageEvent>, day: int, e: UsageEvent)
    ensures e in OfDay(events, day) <==> e in events && InDay(e, day)
    decreases |events|
  {
    hide InDay;
    if events != [] {
      var n := |events| - 1;
      SameMembers(events[..n], day, e);
      assert events == events[..n] + [events[n]];
    }
  }

  lemma DayRowsOfDay(events: seq<UsageEvent>, day: int)
    ensures DayRows(OfDay(events, day), day) == DayRows(events, day)
  {
    hide Aggregate, OfKey, KeyOfGroup, InDay, OfDay;
    forall e: UsageEvent ensures e in OfDay(events, day) <==> e in events && InDay(e, day) {
      SameMembers(events, day, e);
    }
    assert Groups(OfDay(events, day), day) == Groups(events, day);
    forall key | key in DayKeys(events, day) ensures OfKey(OfDay(events, day), key) == OfKey(events, key) {
      KeysAreOfTheDay(events, day, key);
      SameOfKey(events, key);
    }
  }

  lemma {:induction false} PurgeKeepsDay(events: seq<UsageEvent>, cutoff: real, day: int)
    requires cutoff <= day as real * DAY
    ensures OfDay(Since(events, cutoff), day) == OfDay(events, day)
    decreases |events|
  {
    if events != [] {
      var n := |events| - 1;
      PurgeKeepsDay(events[..n], cutoff, day);
      var kept := Since(events[..n], cutoff);
      assert (kept + [events[n]])[..|kept|] == kept && kept + [] == kept;
    }
  }

  lemma OneMoreOfDay(events: seq<UsageEvent>, e: UsageEvent, day: int)
    ensures OfDay(events + [e], day) == OfDay(events, day) + if InDay(e, day) then [e] else []
  {
    assert (events + [e])[..|events|] == events;
  }

  /** The purge never reaches a day that a rollup may still need. */
  lemma {:induction false} RecentDaysAreWhole(steps: seq<Step>, day: int)
    requires forall i | 0 <= i < |steps| :: steps[i].at - EVENT_DAYS as real * DAY <= day as real * DAY
    ensures OfDay(Run(steps).events, day) == OfDay(History(steps), day)
    decreases |steps|
  {
    hide OfDay, InDay, RoundFails, Since;
    if steps != [] {
      var n, last := |steps| - 1, steps[|steps| - 1];
      RecentDaysAreWhole(steps[..n], day);
      match last {
        case Write(e, _) =>
          OneMoreOfDay(Run(steps[..n]).events, e, day);
          OneMoreOfDay(History(steps[..n]), e, day);
        case Job(at) =>
          PurgeKeepsDay(Run(steps[..n]).events, at - EVENT_DAYS as real * DAY, day);
          assert History(steps[..n]) + [] == History(steps[..n]);
      }
    }
  }

  function OnDay(table: Table, day: int): Table {
    map key | key in table && key.day == day :: table[key]
  }

  lemma RowsOfRolledUp(table: Table, events: seq<UsageEvent>, day: int, other: int)
    ensures OnDay(RolledUp(table, events, day), other) ==
      if other == day then DayRows(events, day) else OnDay(table, other)
  {
    hide Aggregate, OfKey, Groups;
    forall key | key in DayKeys(events, day) ensures key.day == day { KeysAreOfTheDay(events, day, key); }
  }

  lemma RowsOfRound(s: State, at: real, day: int)
    requires !RoundFails(s.events, at) && Today(at) - ROLLUP_DAYS <= day
    ensures OnDay(AfterRound(s, at).rollup, day) ==
      if day == Today(at) || day == Today(at) - 1 then DayRows(s.events, day) else OnDay(s.rollup, day)
  {
    hide RolledUp, DayRows, RoundFails, Since, Today;
    var first := RolledUp(s.rollup, s.events, Today(at) - 1);
    var rolled := RolledUp(first, s.events, Today(at));
    RowsOfRolledUp(s.rollup, s.events, Today(at) - 1, day);
    RowsOfRolledUp(first, s.events, Today(at), day);
    assert OnDay(FromDay(rolled, Today(at) - ROLLUP_DAYS), day) == OnDay(rolled, day);
  }

  /** Step `i` is a successful round that rolls up `day`: one on the day itself, or on the day after. */
  ghost predicate RollsUp(steps: seq<Step>, i: nat, day: int)
    requires i < |steps|
  {
    && steps[i].Job? && (Today(steps[i].at) == day || Today(steps[i].at) == day + 1)
    && !RoundFails(Run(steps[..i]).events, steps[i].at)
  }

  /** The number of steps up to the last successful rollup of the day; 0 if there is none. */
  ghost function LastRollup(steps: seq<Step>, day: int): (n: nat)
    ensures n <= |steps|
  {
    if steps == [] then 0
    else if RollsUp(steps, |steps| - 1, day) then |steps|
    else LastRollup(steps[..|steps| - 1], day)
  }

  ghost predicate Kept(steps: seq<Step>, day: int) {
    forall k | 0 <= k < |steps| :: Today(steps[k].at) - ROLLUP_DAYS <= day
  }

  lemma TodayIsMonotone(a: real, b: real)
    requires a <= b
    ensures Today(a) <= Today(b)
    ensures a < (Today(a) + 1) as real * DAY && Today(a) as real * DAY <= a
  {
  }

  /** A round that succeeds rolls up all the events of the day that were written before it. */
  lemma RoundTakesAll(steps: seq<Step>, day: int)
    requires Ordered(steps) && Kept(steps, day) && steps != [] && RollsUp(steps, |steps| - 1, day)
    ensures OnDay(Run(steps).rollup, day) == DayRows(History(steps), day)
  {
    hide DayRows, RoundFails, Today, OnDay;
    var n, last := |steps| - 1, steps[|steps| - 1];
    RowsOfRound(Run(steps[..n]), last.at, day);
    forall k | 0 <= k < n ensures steps[k].at - EVENT_DAYS as real * DAY <= day as real * DAY {
      TodayIsMonotone(steps[k].at, last.at);
      TodayIsMonotone(last.at, last.at);
    }
    RecentDaysAreWhole(steps[..n], day);
    DayRowsOfDay(Run(steps[..n]).events, day);
    DayRowsOfDay(History(steps[..n]), day);
    assert History(steps[..n]) + [] == History(steps[..n]);
  }

  /** The rows of a day stay, for two years, what its last successful rollup made of the events
      written until then, whatever is purged; without one there are none. */
  lemma {:induction false} LastRollupStays(steps: seq<Step>, day: int)
    requires Ordered(steps) && Kept(steps, day)
    ensures OnDay(Run(steps).rollup, day) == DayRows(History(steps[..LastRollup(steps, day)]), day)
    decreases |steps|
  {
    hide DayRows, RoundFails, Today, OnDay, RollsUp;
    if steps == [] {
      NothingRolledUp(day);
    } else if RollsUp(steps, |steps| - 1, day) {
      RoundTakesAll(steps, day);
      assert steps[..|steps|] == steps;
    } else {
      var n := |steps| - 1;
      LastRollupStays(steps[..n], day);
      assert steps[..n][..LastRollup(steps, day)] == steps[..LastRollup(steps, day)];
      OtherStepKeepsDay(steps, day);
    }
  }

  lemma NothingRolledUp(day: int)
    ensures OnDay(Run([]).rollup, day) == DayRows(History([]), day)
  {
    NoRows(day);
  }

  lemma OtherStepKeepsDay(steps: seq<Step>, day: int)
    requires Kept(steps, day) && steps != [] && !RollsUp(steps, |steps| - 1, day)
    ensures OnDay(Run(steps).rollup, day) == OnDay(Run(steps[..|steps| - 1]).rollup, day)
  {
    hide DayRows, RoundFails, Today, OnDay;
    var n, last := |steps| - 1, steps[|steps| - 1];
    if last.Job? && !RoundFails(Run(steps[..n]).events, last.at) {
      RowsOfRound(Run(steps[..n]), last.at, day);
    }
  }

  const ALL_CALLS := Query(Calls, None, None)

  /** What the historical view shows for a day. */
  ghost function Shown(steps: seq<Step>, day: int, q: Query): real {
    SumValues(Contributions(OnDay(Run(steps).rollup, day), q))
  }

  /** An event of `day` is written at step `i` or later. */
  ghost predicate WrittenSince(steps: seq<Step>, i: nat, day: int) {
    exists k | i <= k < |steps| :: steps[k].Write? && InDay(steps[k].event, day)
  }

  lemma WrittenSinceStep(steps: seq<Step>, i: nat, day: int)
    requires i < |steps|
    ensures var n, last := |steps| - 1, steps[|steps| - 1];
      WrittenSince(steps, i, day) <==>
        WrittenSince(steps[..n], i, day) || (last.Write? && InDay(last.event, day))
  {
    hide InDay;
    var n := |steps| - 1;
    assert forall k | i <= k < n :: steps[..n][k] == steps[k];
  }

  lemma DirectTotalStep(events: seq<UsageEvent>, e: UsageEvent, day: int, q: Query)
    ensures DirectTotal(events + [e], day, q) == DirectTotal(events, day, q)
      + if InDay(e, day) && Asks(q, KeyOf(e, day)) then Amount(e, q.measure) else 0.0
  {
    assert (events + [e])[..|events|] == events;
  }

  /** The direct totals move exactly when an event of the day is written. */
  lemma {:induction false} DirectTotalSince(steps: seq<Step>, i: nat, day: int, q: Query)
    requires i <= |steps|
    ensures var now, before := DirectTotal(History(steps), day, q), DirectTotal(History(steps[..i]), day, q);
      && (!WrittenSince(steps, i, day) ==> now == before)
      && (q == ALL_CALLS ==> now >= before && (WrittenSince(steps, i, day) ==> now > before))
    decreases |steps|
  {
    hide InDay, DirectTotal, WrittenSince, KeyOf;
    if i == |steps| {
      assert steps[..i] == steps;
      NothingWritten(steps, day);
    } else {
      var n, last := |steps| - 1, steps[|steps| - 1];
      DirectTotalSince(steps[..n], i, day, q);
      assert steps[..n][..i] == steps[..i];
      WrittenSinceStep(steps, i, day);
      if last.Write? {
        DirectTotalStep(History(steps[..n]), last.event, day, q);
      } else {
        assert History(steps[..n]) + [] == History(steps[..n]);
      }
    }
  }

  lemma NothingWritten(steps: seq<Step>, day: int)
    ensures !WrittenSince(steps, |steps|, day)
  {
  }

  /** The call count shown for a day is the true one exactly when none of its events was written
      after its last successful rollup. That covers days with no such rollup at all: they show
      nothing, which is right only if they had no event. */
  lemma HistoryIsExactIff(steps: seq<Step>, day: int)
    requires Ordered(steps) && Kept(steps, day)
    ensures Shown(steps, day, ALL_CALLS) == DirectTotal(History(steps), day, ALL_CALLS)
      <==> !WrittenSince(steps, LastRollup(steps, day), day)
  {
    hide Ordered, Kept, LastRollup, SumValues, Contributions, DirectTotal, InDay, WrittenSince;
    var n := LastRollup(steps, day);
    LastRollupStays(steps, day);
    RollupConserves(History(steps[..n]), day, ALL_CALLS);
    DirectTotalSince(steps, n, day, ALL_CALLS);
  }

  /** Every other column is then right as well. */
  lemma ColumnsAreExact(steps: seq<Step>, day: int, q: Query)
    requires Ordered(steps) && Kept(steps, day) && !WrittenSince(steps, LastRollup(steps, day), day)
    ensures Shown(steps, day, q) == DirectTotal(History(steps), day, q)
  {
    hide Ordered, Kept, LastRollup, SumValues, Contributions, DirectTotal, InDay, WrittenSince;
    var n := LastRollup(steps, day);
    LastRollupStays(steps, day);
    RollupConserves(History(steps[..n]), day, q);
    DirectTotalSince(steps, n, day, q);
  }

  lemma {:induction false} LastRollupIsLast(steps: seq<Step>, i: nat, day: int)
    requires i < |steps| && RollsUp(steps, i, day)
    ensures i < LastRollup(steps, day)
    decreases |steps|
  {
    hide RoundFails, Run;
    var n := |steps| - 1;
    if i < n {
      assert steps[..n][..i] == steps[..i];
      LastRollupIsLast(steps[..n], i, day);
    }
  }

  /** A successful round, on the day or the day after, that comes after the day's last event settles
      every column of that day, from then on and whatever the 90-day purge deletes. */
  lemma ClosedDayIsExact(steps: seq<Step>, i: nat, day: int, q: Query)
    requires Ordered(steps) && Kept(steps, day) && i < |steps| && RollsUp(steps, i, day)
    requires !WrittenSince(steps, i, day)
    ensures Shown(steps, day, q) == DirectTotal(History(steps), day, q)
  {
    hide Ordered, Kept, RollsUp, LastRollup, Shown, DirectTotal, InDay;
    LastRollupIsLast(steps, i, day);
    ColumnsAreExact(steps, day, q);
  }

  // ---------- a late row is lost ----------

  /** An event at the start of day 0, the closing round a day later, and then a late second event. */
  function LateRun(e: UsageEvent, late: UsageEvent): seq<Step> {
    [Write(e, 1.0), Job(DAY + 1.0), Write(late, DAY + 2.0)]
  }

  /** The input on which the job's promise fails: the late event is never counted. */
  lemma LateRowIsLost(e: UsageEvent, late: UsageEvent)
    requires e.at == 0.5 && late.at == 0.75
    ensures var steps := LateRun(e, late);
      && Ordered(steps) && Kept(steps, 0) && LastRollup(steps, 0) == 2 && WrittenSince(steps, 2, 0)
      && Shown(steps, 0, ALL_CALLS) != DirectTotal(History(steps), 0, ALL_CALLS)
  {
    var steps := LateRun(e, late);
    LateRunRollsUp(e, late);
    assert steps[2].Write? && InDay(steps[2].event, 0);
    HistoryIsExactIff(steps, 0);
  }

  lemma LateRunRollsUp(e: UsageEvent, late: UsageEvent)
    requires e.at == 0.5
    ensures var steps := LateRun(e, late); Kept(steps, 0) && LastRollup(steps, 0) == 2
  {
    var steps := LateRun(e, late);
    assert Today(1.0) == 0 && Today(DAY + 1.0) == 1 && Today(DAY + 2.0) == 1;
    assert steps[..2][..1] == [steps[0]] && steps[..1] == [steps[0]];
    assert Run([steps[0]]).events == [e];
    assert forall d :: Groups([e], d) <= {GroupOf(e)};
    assert steps[..2][1] == steps[1];
    assert RollsUp(steps[..2], 1, 0);
  }

  // ---------- the window totals ----------

  lemma SumOfNothing<K>()
    ensures SumValues<K>(map[]) == 0.0
  {
  }

  lemma {:induction false} SumOfDisjoint<K>(a: map<K, real>, b: map<K, real>)
    requires a.Keys !! b.Keys
    ensures SumValues(a + b) == SumValues(a) + SumValues(b)
    decreases |b|
  {
    hide SumValues;
    if b == map[] {
      assert a + b == a;
      SumOfNothing<K>();
    } else {
      var k := Pick(b);
      TakeOne(a, b, k);
      var rest := b - {k};
      SumOfDisjoint(a, rest);
      SumAfterUpdate(a + rest, k, b[k]);
      SumAfterUpdate(rest, k, b[k]);
    }
  }

  lemma TakeOne<K>(a: map<K, real>, b: map<K, real>, k: K)
    requires a.Keys !! b.Keys && k in b
    ensures var rest := b - {k};
      && a.Keys !! rest.Keys && |rest| < |b| && k !in rest && k !in a + rest
      && rest[k := b[k]] == b && (a + rest)[k := b[k]] == a + b
  {
    RestIsSmaller(b, k);
    UnionWithRest(a, b, k);
  }

  lemma RestIsSmaller<K>(b: map<K, real>, k: K)
    requires k in b
    ensures var rest := b - {k}; rest.Keys <= b.Keys && |rest| < |b| && k !in rest && rest[k := b[k]] == b
  {
    var rest := b - {k};
    assert rest.Keys == b.Keys - {k};
    assert |rest.Keys| == |b.Keys| - 1;
  }

  lemma UnionWithRest<K>(a: map<K, real>, b: map<K, real>, k: K)
    requires k in b && k !in a
    ensures (a + (b - {k}))[k := b[k]] == a + b && k !in a + (b - {k})
  {
    var left, right := (a + (b - {k}))[k := b[k]], a + b;
    assert forall x :: x in left <==> x in right;
    forall x | x in right ensures left[x] == right[x] {
      if x in b && x != k {
        assert x in b - {k};
      }
    }
  }

  /** The daily series of the summary, added up. */
  ghost function SumOfDays(table: Table, start: int, days: nat, q: Query): real
    decreases days
  {
    if days == 0 then 0.0
    else SumValues(Contributions(OnDay(table, start), q)) + SumOfDays(table, start + 1, days - 1, q)
  }

  /** The totals of the summary are the sum of its daily series, when no row lies after today. */
  lemma {:induction false} TotalsAreSumOfDays(table: Table, start: int, days: nat, q: Query)
    requires forall key | key in table :: key.day < start + days
    ensures SumValues(Contributions(FromDay(table, start), q)) == SumOfDays(table, start, days, q)
    decreases days
  {
    hide RowMeasure, SumValues, Asks;
    if days == 0 {
      assert Contributions(FromDay(table, start), q) == map[];
      SumOfNothing<RollupKey>();
    } else {
      TotalsAreSumOfDays(table, start + 1, days - 1, q);
      var today, rest := Contributions(OnDay(table, start), q), Contributions(FromDay(table, start + 1), q);
      assert Contributions(FromDay(table, start), q) == today + rest;
      SumOfDisjoint(today, rest);
    }
  }
}
