/** Which models of a provider are worth trying: the catalog chain and the per-user memory of
    models that are cooling down. */
module ModelCooldowns {
  import opened Common

  // ---------- the catalog's model chain ----------

  datatype CatalogModel = CatalogModel(id: string, autoFallback: bool)
  datatype CatalogEntry = CatalogEntry(models: seq<CatalogModel>, retired: set<string>, perModelQuota: bool)

  predicate IsRetired(entry: Option<CatalogEntry>, model: Option<string>) {
    entry.Some? && model.Some? && model.value != "" && model.value in entry.value.retired
  }

  predicate LeadsChain(entry: Option<CatalogEntry>, configured: Option<string>) {
    configured.Some? && configured.value != "" && !IsRetired(entry, configured)
  }

  predicate NoDuplicates<T(==)>(xs: seq<T>) {
    forall i, j | 0 <= i < j < |xs| :: xs[i] != xs[j]
  }

  ghost predicate IsSubsequence<T>(xs: seq<T>, ys: seq<T>)
    decreases |ys|
  {
    if xs == [] then true
    else if ys == [] then false
    else if xs[0] == ys[0] then IsSubsequence(xs[1..], ys[1..])
    else IsSubsequence(xs, ys[1..])
  }

  /** The chain is duplicate-free; it is the configured model (unless it is missing or retired)
      followed by the auto-fallback models of the catalog that are not that one, in catalog order. */
  ghost predicate IsModelChain(chain: seq<string>, entry: Option<CatalogEntry>, configured: Option<string>) {
    var head := if LeadsChain(entry, configured) then [configured.value] else [];
    && NoDuplicates(chain)
    && head <= chain
    && (entry.None? ==> chain == head)
    && (entry.Some? ==>
      && (forall m | m in entry.value.models && m.autoFallback :: m.id in chain)
      && (forall i | |head| <= i < |chain| :: CatalogModel(chain[i], true) in entry.value.models)
      && (forall i, j | |head| <= i < j < |chain| :: Before(entry.value.models, chain[i], chain[j])))
  }

  /** Some auto-fallback occurrence of `a` precedes every one of `b`. */
  ghost predicate Before(models: seq<CatalogModel>, a: string, b: string) {
    exists i :: 0 <= i < |models| && models[i] == CatalogModel(a, true)
      && forall j | 0 <= j < |models| && models[j] == CatalogModel(b, true) :: i < j
  }

  /** The chain after the first `k` catalog models. */
  ghost predicate ChainSoFar(models: seq<CatalogModel>, k: nat, head: seq<string>, chain: seq<string>)
    requires k <= |models|
  {
    && NoDuplicates(chain) && head <= chain
    && (forall i | 0 <= i < k && models[i].autoFallback :: models[i].id in chain)
    && (forall i | |head| <= i < |chain| :: CatalogModel(chain[i], true) in models[..k])
    && (forall i, j | |head| <= i < j < |chain| :: Before(models, chain[i], chain[j]))
  }

  lemma ChainGrows(models: seq<CatalogModel>, k: nat, head: seq<string>, chain: seq<string>)
    requires k < |models| && ChainSoFar(models, k, head, chain)
    requires models[k].autoFallback && models[k].id !in chain
    ensures ChainSoFar(models, k + 1, head, chain + [models[k].id])
  {
    assert models[k] == CatalogModel(models[k].id, true);
  }

  method ModelChain(entry: Option<CatalogEntry>, configured: Option<string>) returns (chain: seq<string>)
    ensures IsModelChain(chain, entry, configured)
  {
    chain := if LeadsChain(entry, configured) then [configured.value] else [];
    ghost var head := chain;
    if entry.Some? {
      var models := entry.value.models;
      for k := 0 to |models|
        invariant ChainSoFar(models, k, head, chain)
      {
        var m := models[k];
        if m.autoFallback && m.id !in chain {
          ChainGrows(models, k, head, chain);
          chain := chain + [m.id];
        }
      }
    }
  }

  /** The chain begins with the configured model if there is one that is not retired; the rest are the
      catalog's auto-fallback models, each once; without a catalog entry there is no rest. */
  lemma ChainMeans(chain: seq<string>, entry: Option<CatalogEntry>, configured: Option<string>)
    requires IsModelChain(chain, entry, configured)
    ensures var leads := configured.Some? && configured.value != ""
        && (entry.Some? ==> configured.value !in entry.value.retired);
      && (leads ==> chain != [] && chain[0] == configured.value)
      && (entry.None? ==> chain == if leads then [configured.value] else [])
      && (entry.Some? ==>
            forall m :: m in chain <==> (leads && m == configured.value) || CatalogModel(m, true) in entry.value.models)
      && (forall i, j | 0 <= i < j < |chain| :: chain[i] != chain[j])
  {
    var head := if LeadsChain(entry, configured) then [configured.value] else [];
    assert forall k | 0 <= k < |head| :: head[k] in head && head[k] == chain[k];
    forall m | m in chain && m !in head && entry.Some? ensures CatalogModel(m, true) in entry.value.models {
      var i :| 0 <= i < |chain| && chain[i] == m;
      assert i >= |head|;
    }
    assert head <= chain ==> forall m | m in head :: m in chain;
  }

  lemma BeforeIsStrict(models: seq<CatalogModel>, a: string, b: string)
    requires a != b && Before(models, a, b)
    ensures !Before(models, b, a)
  {
    var i :| 0 <= i < |models| && models[i] == CatalogModel(a, true)
      && forall j | 0 <= j < |models| && models[j] == CatalogModel(b, true) :: i < j;
  }

  function Members(xs: seq<string>): set<string> {
    set x | x in xs
  }

  lemma {:induction false} MembersCount(xs: seq<string>)
    requires NoDuplicates(xs)
    ensures |Members(xs)| == |xs|
    decreases |xs|
  {
    if xs != [] {
      var n := |xs| - 1;
      MembersCount(xs[..n]);
      assert xs == xs[..n] + [xs[n]];
      assert Members(xs) == Members(xs[..n]) + {xs[n]} && xs[n] !in xs[..n];
    }
  }

  /** There is only one such chain. */
  lemma ChainIsUnique(a: seq<string>, b: seq<string>, entry: Option<CatalogEntry>, configured: Option<string>)
    requires IsModelChain(a, entry, configured) && IsModelChain(b, entry, configured)
    ensures a == b
  {
    hide IsModelChain, Before;
    ChainMeans(a, entry, configured);
    ChainMeans(b, entry, configured);
    if entry.Some? {
      assert Members(a) == Members(b);
      MembersCount(a);
      MembersCount(b);
      SameUpTo(a, b, entry.value, configured, |a|);
      assert a[..|a|] == a && b[..|a|] == b;
    }
  }

  lemma {:induction false} SameUpTo(
    a: seq<string>, b: seq<string>, entry: CatalogEntry, configured: Option<string>, n: nat)
    requires IsModelChain(a, Some(entry), configured) && IsModelChain(b, Some(entry), configured)
    requires n <= |a| && n <= |b|
    ensures a[..n] == b[..n]
  {
    if n > 0 {
      SameUpTo(a, b, entry, configured, n - 1);
      if a[n - 1] != b[n - 1] {
        NextDiffers(a, b, entry, configured, n - 1);
        NextDiffers(b, a, entry, configured, n - 1);
        BeforeIsStrict(entry.models, a[n - 1], b[n - 1]);
      }
      assert a[..n] == a[..n - 1] + [a[n - 1]] && b[..n] == b[..n - 1] + [b[n - 1]];
    }
  }

  lemma NextDiffers(a: seq<string>, b: seq<string>, entry: CatalogEntry, configured: Option<string>, n: nat)
    requires IsModelChain(a, Some(entry), configured) && IsModelChain(b, Some(entry), configured)
    requires n < |a| && n < |b| && a[..n] == b[..n] && a[n] != b[n]
    ensures Before(entry.models, a[n], b[n])
  {
    hide Before;
    ChainMeans(a, Some(entry), configured);
    ChainMeans(b, Some(entry), configured);
    assert b[n] in b;
    assert forall i | 0 <= i < n :: a[..n][i] == a[i] && b[..n][i] == b[i];
    var k :| 0 <= k < |a| && a[k] == b[n];
    assert k > n;
  }

  // ---------- the memory of cooling models ----------

  datatype Slot = Slot(user: int, provider: string, model: string)
  datatype Reason = Unavailable | ModelRateLimited | ModelQuota | HeadersEmpty
  datatype Entry = Entry(until: real, reason: Reason)

  /** Pseudo-model: the whole provider is cooling. */
  const PROVIDER_WIDE := "*"
  const UNAVAILABLE_COOLDOWN_S := 21600.0
  const MAX_KEYS := 10000

  /** One call of `cool`. */
  datatype Cooling = Cooling(slot: Slot, until: real, reason: Reason)

  function CoolingOf(slot: Slot, seconds: real, reason: Reason, now: real): Cooling {
    Cooling(slot, now + MaxReal(1.0, seconds), reason)
  }

  /** The call with the latest end for this slot (the earliest such call on ties). */
  function Longest(calls: seq<Cooling>, slot: Slot): Option<Entry> {
    if calls == [] then None
    else
      LongerOf(Longest(calls[..|calls| - 1], slot), calls[|calls| - 1], slot)
  }

  function LongerOf(before: Option<Entry>, c: Cooling, slot: Slot): Option<Entry> {
    if c.slot == slot && (before.None? || before.value.until < c.until) then Some(Entry(c.until, c.reason))
    else before
  }

  lemma LongestStep(calls: seq<Cooling>, c: Cooling, slot: Slot)
    ensures Longest(calls + [c], slot) == LongerOf(Longest(calls, slot), c, slot)
  {
    assert (calls + [c])[..|calls|] == calls;
  }

  /** Why the slot is cooling at `now`, according to the full history of calls. */
  function ReasonAt(calls: seq<Cooling>, slot: Slot, now: real): Option<Reason> {
    var e := Longest(calls, slot);
    if e.Some? && e.value.until > now then Some(e.value.reason) else None
  }

  /** The meaning of that answer: a slot is cooling exactly while some call still covers `now`. */
  lemma {:induction false} CoolingIffCovered(calls: seq<Cooling>, slot: Slot, now: real)
    ensures ReasonAt(calls, slot, now).Some? <==> exists c :: c in calls && c.slot == slot && c.until > now
    ensures Longest(calls, slot).Some? ==>
      && Cooling(slot, Longest(calls, slot).value.until, Longest(calls, slot).value.reason) in calls
      && forall c | c in calls && c.slot == slot :: c.until <= Longest(calls, slot).value.until
    ensures Longest(calls, slot).None? ==> forall c | c in calls :: c.slot != slot
    decreases |calls|
  {
    if calls != [] {
      var rest := calls[..|calls| - 1];
      CoolingIffCovered(rest, slot, now);
      assert calls == rest + [calls[|calls| - 1]];
    }
  }

  class Cooldowns {
    var data: map<Slot, Entry>
    ghost var ever: seq<Cooling>  // every call of `cool`
    ghost var lost: nat           // how many of them were made before the map was last cleared
    ghost var calls: seq<Cooling> // the calls since then
    ghost var clock: real

    /** The map holds the longest call of every slot, except those already expired and dropped. */
    ghost predicate Valid()
      reads this
    {
      && |data| <= 10000 && lost <= |ever| && calls == ever[lost..]
      && forall slot: Slot ::
        if slot in data then Longest(calls, slot) == Some(data[slot])
        else Longest(calls, slot).Some? ==> Longest(calls, slot).value.until <= clock
    }

    constructor ()
      ensures Valid() && ever == [] && clock == 0.0
    {
      data, ever, lost, calls, clock := map[], [], 0, [], 0.0;
    }

    method Cool(slot: Slot, seconds: real, reason: Reason, now: real)
      requires Valid() && now >= clock
      modifies this
      ensures Valid() && clock == now
      ensures calls == (if |old(data)| == 10000 then [] else old(calls)) + [CoolingOf(slot, seconds, reason, now)]
      ensures ever == old(ever) + [CoolingOf(slot, seconds, reason, now)]
      ensures lost == if |old(data)| == 10000 then |old(ever)| else old(lost)
    {
      hide Longest;
      if |data| >= MAX_KEYS {
        Clear();
      }
      var until := now + MaxReal(1.0, seconds);
      ghost var before, call := calls, CoolingOf(slot, seconds, reason, now);
      if slot !in data || data[slot].until < until {
        data := data[slot := Entry(until, reason)];
      }
      calls := calls + [call];
      ever := ever + [call];
      assert ever[lost..] == ever[lost..|ever| - 1] + [call] && ever[lost..|ever| - 1] == before;
      forall other: Slot ensures Longest(calls, other) == LongerOf(Longest(before, other), call, other) {
        LongestStep(before, call, other);
      }
      clock := now;
    }

    method Clear()
      requires Valid()
      modifies this
      ensures Valid() && data == map[] && calls == [] && lost == |ever| && ever == old(ever) && clock == old(clock)
    {
      data, calls, lost := map[], [], |ever|;
    }

    method Reason(slot: Slot, now: real) returns (r: Option<Reason>)
      requires Valid() && now >= clock
      modifies this
      ensures Valid() && clock == now && ever == old(ever) && lost == old(lost) && calls == old(calls)
      ensures r == ReasonAt(calls, slot, now)
    {
      clock := now;
      if slot !in data {
        return None;
      }
      var e := data[slot];
      if e.until <= now {
        data := data - {slot};
        return None;
      }
      return Some(e.reason);
    }

    /** Asks for the reason of every model of the chain. */
    method Survey(user: int, provider: string, chain: seq<string>, now: real)
      returns (alive: seq<string>, allUnavailable: bool)
      requires Valid() && now >= clock
      modifies this
      ensures Valid() && clock == now && ever == old(ever) && lost == old(lost) && calls == old(calls)
      ensures alive == AliveIn(calls, user, provider, chain, now)
      ensures allUnavailable == AllUnavailable(calls, user, provider, chain, now)
    {
      clock := now;
      alive, allUnavailable := [], true;
      for i := 0 to |chain|
        invariant Valid() && clock == now && ever == old(ever) && lost == old(lost) && calls == old(calls)
        invariant alive == AliveIn(calls, user, provider, chain[..i], now)
        invariant allUnavailable == AllUnavailable(calls, user, provider, chain[..i], now)
      {
        var r := Reason(Slot(user, provider, chain[i]), now);
        assert chain[..i + 1][..i] == chain[..i];
        if r.None? {
          alive := alive + [chain[i]];
        }
        allUnavailable := allUnavailable && r == Some(Unavailable);
      }
      assert chain[..|chain|] == chain;
    }

    /** Models to try, in order, for one candidate; empty means skip the provider. */
    method ModelsFor(user: int, provider: string, chain: seq<string>, explicit: Option<string>, now: real)
      returns (models: seq<Option<string>>)
      requires Valid() && now >= clock
      modifies this
      ensures Valid() && clock == now && ever == old(ever) && lost == old(lost) && calls == old(calls)
      ensures models == UsableModels(calls, user, provider, chain, explicit, now)
    {
      var wide := Reason(Slot(user, provider, PROVIDER_WIDE), now);
      if wide.Some? {
        return [];
      }
      if explicit.Some? {
        return [explicit];
      }
      if chain == [] {
        return [None];
      }
      var alive, allUnavailable := Survey(user, provider, chain, now);
      if alive != [] {
        return Named(alive);
      }
      if allUnavailable {
        return [Some(chain[0])];
      }
      return [];
    }
  }

  /** `time.monotonic()`: it never goes back. */
  class Clock {
    var now: real

    constructor ()
      ensures now == 0.0
    {
      now := 0.0;
    }

    method Read() returns (t: real)
      modifies this
      ensures t == now >= old(now)
    {
      var reading: real := *;
      now := MaxReal(now, reading);
      t := now;
    }
  }

  /** A request to cool a slot. */
  datatype Ask = Ask(slot: Slot, seconds: real, reason: Reason)

  ghost predicate Ready(memory: Cooldowns, clock: Clock)
    reads memory, clock
  {
    memory.Valid() && memory.clock <= clock.now
  }

  /** The call answers the request, and was made at `since` or later. */
  predicate Answers(c: Cooling, ask: Ask, since: real) {
    c.slot == ask.slot && c.reason == ask.reason && c.until >= since + MaxReal(1.0, ask.seconds)
  }

  /** From (`ever0`, `lost0`) to (`ever1`, `lost1`) exactly the requests `asked` were made, in order and
      none before `since`; either nothing was forgotten, or everything older was. */
  ghost predicate Grown(ever0: seq<Cooling>, lost0: nat, since: real, asked: seq<Ask>,
                        ever1: seq<Cooling>, lost1: nat)
  {
    && |ever1| == |ever0| + |asked| && ever0 <= ever1
    && (forall i | 0 <= i < |asked| :: Answers(ever1[|ever0| + i], asked[i], since))
    && (lost1 == lost0 || lost1 >= |ever0|)
  }

  lemma GrownThen(ever0: seq<Cooling>, lost0: nat, since: real, asked: seq<Ask>, ever1: seq<Cooling>, lost1: nat,
                  later: real, more: seq<Ask>, ever2: seq<Cooling>, lost2: nat)
    requires Grown(ever0, lost0, since, asked, ever1, lost1)
    requires Grown(ever1, lost1, later, more, ever2, lost2) && since <= later
    ensures Grown(ever0, lost0, since, asked + more, ever2, lost2)
  {
    var all := asked + more;
    forall i | 0 <= i < |all| ensures Answers(ever2[|ever0| + i], all[i], since) {
      if i < |asked| {
        assert ever2[|ever0| + i] == ever1[|ever0| + i];
      } else {
        assert ever2[|ever0| + i] == ever2[|ever1| + (i - |asked|)];
      }
    }
  }

  lemma NothingAsked(ever: seq<Cooling>, lost: nat, since: real)
    ensures Grown(ever, lost, since, [], ever, lost)
  {
  }

  lemma OneMoreAnswered(ever0: seq<Cooling>, lost0: nat, since: real, asked: seq<Ask>, i: nat, ever1: seq<Cooling>,
                        lost1: nat, c: Cooling, lost2: nat)
    requires i < |asked| && Grown(ever0, lost0, since, asked[..i], ever1, lost1) && Answers(c, asked[i], since)
    requires lost2 == lost1 || lost2 == |ever1|
    ensures Grown(ever0, lost0, since, asked[..i + 1], ever1 + [c], lost2)
  {
    assert asked[..i + 1] == asked[..i] + [asked[i]];
  }

  /** Cools every slot asked for, reading the clock each time. */
  method Remember(memory: Cooldowns, clock: Clock, asked: seq<Ask>)
    requires Ready(memory, clock)
    modifies memory, clock
    ensures Ready(memory, clock) && clock.now >= old(clock.now)
    ensures Grown(old(memory.ever), old(memory.lost), old(clock.now), asked, memory.ever, memory.lost)
  {
    hide Grown, Longest;
    ghost var ever0, lost0, since := memory.ever, memory.lost, clock.now;
    assert Grown(ever0, lost0, since, asked[..0], memory.ever, memory.lost) by { NothingAsked(ever0, lost0, since); }
    for i := 0 to |asked|
      invariant Ready(memory, clock) && clock.now >= since
      invariant Grown(ever0, lost0, since, asked[..i], memory.ever, memory.lost)
    {
      ghost var ever1, lost1 := memory.ever, memory.lost;
      var now := clock.Read();
      memory.Cool(asked[i].slot, asked[i].seconds, asked[i].reason, now);
      ghost var c := CoolingOf(asked[i].slot, asked[i].seconds, asked[i].reason, now);
      OneMoreAnswered(ever0, lost0, since, asked, i, ever1, lost1, c, memory.lost);
    }
    assert asked[..|asked|] == asked;
  }

  function Named(models: seq<string>): seq<Option<string>> {
    seq(|models|, i requires 0 <= i < |models| => Some(models[i]))
  }

  function AliveIn(calls: seq<Cooling>, user: int, provider: string, chain: seq<string>, now: real): seq<string> {
    if chain == [] then []
    else
      var n := |chain| - 1;
      AliveIn(calls, user, provider, chain[..n], now)
        + if ReasonAt(calls, Slot(user, provider, chain[n]), now).None? then [chain[n]] else []
  }

  predicate AllUnavailable(calls: seq<Cooling>, user: int, provider: string, chain: seq<string>, now: real) {
    chain == [] ||
    (var n := |chain| - 1;
     AllUnavailable(calls, user, provider, chain[..n], now)
       && ReasonAt(calls, Slot(user, provider, chain[n]), now) == Some(Unavailable))
  }

  function UsableModels(calls: seq<Cooling>, user: int, provider: string, chain: seq<string>,
                        explicit: Option<string>, now: real): seq<Option<string>> {
    if ReasonAt(calls, Slot(user, provider, PROVIDER_WIDE), now).Some? then []
    else if explicit.Some? then [explicit]
    else if chain == [] then [None]
    else
      var alive := AliveIn(calls, user, provider, chain, now);
      if alive != [] then Named(alive)
      else if AllUnavailable(calls, user, provider, chain, now) then [Some(chain[0])]
      else []
  }

  // ---------- what callers rely on ----------

  lemma {:induction false} SubsequenceSnoc<T>(xs: seq<T>, ys: seq<T>, y: T)
    requires IsSubsequence(xs, ys)
    ensures IsSubsequence(xs + [y], ys + [y]) && IsSubsequence(xs, ys + [y])
    decreases |ys|
  {
    if ys == [] {
      assert xs == [] && xs + [y] == [y] && ys + [y] == [y];
      assert [y][1..] == [];
    } else {
      assert (ys + [y])[1..] == ys[1..] + [y];
      if xs != [] && xs[0] == ys[0] {
        SubsequenceSnoc(xs[1..], ys[1..], y);
        assert (xs + [y])[1..] == xs[1..] + [y];
      } else {
        SubsequenceSnoc(xs, ys[1..], y);
        if xs == [] && y == ys[0] {
          assert (xs + [y])[1..] == [];
        }
      }
    }
  }

  lemma {:induction false} AliveIsFilter(
    calls: seq<Cooling>, user: int, provider: string, chain: seq<string>, now: real)
    ensures var alive := AliveIn(calls, user, provider, chain, now);
      forall m :: m in alive <==> m in chain && ReasonAt(calls, Slot(user, provider, m), now).None?
    decreases |chain|
  {
    if chain != [] {
      var n := |chain| - 1;
      AliveIsFilter(calls, user, provider, chain[..n], now);
      assert chain == chain[..n] + [chain[n]];
    }
  }

  lemma {:induction false} AliveKeepsOrder(
    calls: seq<Cooling>, user: int, provider: string, chain: seq<string>, now: real)
    requires NoDuplicates(chain)
    ensures var alive := AliveIn(calls, user, provider, chain, now);
      IsSubsequence(alive, chain) && NoDuplicates(alive)
    decreases |chain|
  {
    if chain != [] {
      var n := |chain| - 1;
      var rest := chain[..n];
      AliveKeepsOrder(calls, user, provider, rest, now);
      AliveIsFilter(calls, user, provider, rest, now);
      var before, alive := AliveIn(calls, user, provider, rest, now), AliveIn(calls, user, provider, chain, now);
      SubsequenceSnoc(before, rest, chain[n]);
      assert chain == rest + [chain[n]];
      assert chain[n] !in rest;
      assert alive == before || alive == before + [chain[n]];
    }
  }

  lemma {:induction false} AllUnavailableMeans(
    calls: seq<Cooling>, user: int, provider: string, chain: seq<string>, now: real)
    ensures AllUnavailable(calls, user, provider, chain, now)
      <==> forall m | m in chain :: ReasonAt(calls, Slot(user, provider, m), now) == Some(Unavailable)
    decreases |chain|
  {
    if chain != [] {
      var n := |chain| - 1;
      AllUnavailableMeans(calls, user, provider, chain[..n], now);
      assert chain == chain[..n] + [chain[n]];
    }
  }

  /** Without an explicit model, what is tried is a duplicate-free subsequence of the chain with no
      cooling model in it, or a single probe of the chain's first model when every model is cooling
      as unavailable. */
  lemma UsableModelsSound(calls: seq<Cooling>, user: int, provider: string, chain: seq<string>, now: real)
    requires chain != [] && NoDuplicates(chain)
    ensures var models := UsableModels(calls, user, provider, chain, None, now);
      || models == []
      || (models == [Some(chain[0])]
          && forall m | m in chain :: ReasonAt(calls, Slot(user, provider, m), now) == Some(Unavailable))
      || exists alive :: models == Named(alive) && IsSubsequence(alive, chain) && NoDuplicates(alive)
           && forall m | m in alive :: ReasonAt(calls, Slot(user, provider, m), now).None?
  {
    AliveIsFilter(calls, user, provider, chain, now);
    AliveKeepsOrder(calls, user, provider, chain, now);
    AllUnavailableMeans(calls, user, provider, chain, now);
  }

  /** While a call for a model is in force it is not chosen, if another model of the chain is usable. */
  lemma CoolingIsAvoided(calls: seq<Cooling>, user: int, provider: string, chain: seq<string>,
                         cooling: Cooling, other: string, now: real)
    requires cooling in calls && cooling.slot.user == user && cooling.slot.provider == provider
    requires now < cooling.until
    requires other in chain && ReasonAt(calls, Slot(user, provider, other), now).None?
    ensures Some(cooling.slot.model) !in UsableModels(calls, user, provider, chain, None, now)
  {
    CoolingIffCovered(calls, cooling.slot, now);
    AliveIsFilter(calls, user, provider, chain, now);
    assert other in AliveIn(calls, user, provider, chain, now);
  }

  /** A cooling model is only ever chosen as the lone probe of a chain whose models are all cooling as
      unavailable. */
  lemma CoolingIsOnlyProbed(calls: seq<Cooling>, user: int, provider: string, chain: seq<string>,
                            cooling: Cooling, now: real)
    requires cooling in calls && cooling.slot.user == user && cooling.slot.provider == provider
    requires now < cooling.until && chain != []
    requires Some(cooling.slot.model) in UsableModels(calls, user, provider, chain, None, now)
    ensures UsableModels(calls, user, provider, chain, None, now) == [Some(cooling.slot.model)]
    ensures forall m | m in chain :: ReasonAt(calls, Slot(user, provider, m), now) == Some(Unavailable)
  {
    CoolingIffCovered(calls, cooling.slot, now);
    AliveIsFilter(calls, user, provider, chain, now);
    AllUnavailableMeans(calls, user, provider, chain, now);
  }

  /** The call that answered a request is in the memory, unless the memory was cleared since. */
  lemma AskedIsRemembered(ever0: seq<Cooling>, lost0: nat, since: real, asked: seq<Ask>,
                          ever1: seq<Cooling>, lost1: nat, ask: Ask) returns (cooling: Cooling)
    requires Grown(ever0, lost0, since, asked, ever1, lost1) && ask in asked && lost1 <= |ever0|
    ensures cooling in ever1[lost1..] && Answers(cooling, ask, since)
  {
    var i :| 0 <= i < |asked| && asked[i] == ask;
    cooling := ever1[|ever0| + i];
    assert ever1[lost1..][|ever0| + i - lost1] == cooling;
  }

  /** A request that was answered at `since` or later, and not forgotten, keeps its model from being
      chosen for its time, if another model of the chain is usable. */
  lemma AskedIsAvoided(ever0: seq<Cooling>, lost0: nat, since: real, asked: seq<Ask>, ever1: seq<Cooling>, lost1: nat,
                       ask: Ask, chain: seq<string>, other: string, now: real)
    requires Grown(ever0, lost0, since, asked, ever1, lost1) && ask in asked && lost1 <= |ever0|
    requires now < since + MaxReal(1.0, ask.seconds)
    requires other in chain
    requires ReasonAt(ever1[lost1..], Slot(ask.slot.user, ask.slot.provider, other), now).None?
    ensures Some(ask.slot.model) !in
      UsableModels(ever1[lost1..], ask.slot.user, ask.slot.provider, chain, None, now)
  {
    var cooling := AskedIsRemembered(ever0, lost0, since, asked, ever1, lost1, ask);
    CoolingIsAvoided(ever1[lost1..], ask.slot.user, ask.slot.provider, chain, cooling, other, now);
  }

  /** A model that answered "unavailable" is not chosen again for that user for six hours, while
      another model of the chain is usable. */
  lemma UnavailableIsAvoided(calls: seq<Cooling>, user: int, provider: string, chain: seq<string>,
                             model: string, other: string, at: real, now: real)
    requires CoolingOf(Slot(user, provider, model), UNAVAILABLE_COOLDOWN_S, Unavailable, at) in calls
    requires now < at + UNAVAILABLE_COOLDOWN_S
    requires other in chain && ReasonAt(calls, Slot(user, provider, other), now).None?
    ensures Some(model) !in UsableModels(calls, user, provider, chain, None, now)
  {
    var cooling := CoolingOf(Slot(user, provider, model), UNAVAILABLE_COOLDOWN_S, Unavailable, at);
    CoolingIsAvoided(calls, user, provider, chain, cooling, other, now);
  }

  /** A call cools its slot for the seconds asked, but at least for one. */
  lemma CoolsForAtLeastASecond(slot: Slot, seconds: real, reason: Reason, now: real)
    ensures var c := CoolingOf(slot, seconds, reason, now);
      c.slot == slot && c.reason == reason && c.until == if seconds >= 1.0 then now + seconds else now + 1.0
  {
  }

  /** Call `i` is the one that counts for the slot: none ends later, and none before it as late. */
  predicate Counts(calls: seq<Cooling>, slot: Slot, i: nat) {
    && i < |calls| && calls[i].slot == slot
    && (forall j | 0 <= j < i && calls[j].slot == slot :: calls[j].until < calls[i].until)
    && (forall j | i <= j < |calls| && calls[j].slot == slot :: calls[j].until <= calls[i].until)
  }

  /** Among calls of a slot that end together the earliest one counts. */
  lemma {:induction false} LongestIsEarliest(calls: seq<Cooling>, slot: Slot) returns (i: nat)
    requires Longest(calls, slot).Some?
    ensures Counts(calls, slot, i) && Longest(calls, slot) == Some(Entry(calls[i].until, calls[i].reason))
    decreases |calls|
  {
    var n := |calls| - 1;
    var before := calls[..n];
    i := n;
    if Longest(before, slot).Some? {
      var earlier := LongestIsEarliest(before, slot);
      if Longest(calls, slot) == Longest(before, slot) {
        i := earlier;
      }
    } else {
      CoolingIffCovered(before, slot, 0.0);
      assert forall j | 0 <= j < n :: before[j] in before;
    }
  }

  /** The reason given is that of a call that covers `now` and outlasts all others of the slot. */
  lemma ReasonMeans(calls: seq<Cooling>, slot: Slot, now: real, r: Reason)
    requires ReasonAt(calls, slot, now) == Some(r)
    ensures exists c ::
      && c in calls && c.slot == slot && c.reason == r && c.until > now
      && forall other | other in calls && other.slot == slot :: other.until <= c.until
  {
    CoolingIffCovered(calls, slot, now);
    var e := Longest(calls, slot).value;
    assert Cooling(slot, e.until, e.reason) in calls;
  }

  // ---------- exactly which models are tried ----------

  predicate Cools(calls: seq<Cooling>, user: int, provider: string, model: string, now: real) {
    ReasonAt(calls, Slot(user, provider, model), now).Some?
  }

  /** A cooling provider is left out; otherwise a model the caller named is the one to try, and a provider
      without a chain uses its own default. */
  lemma NamedModelIsUsed(calls: seq<Cooling>, user: int, provider: string, chain: seq<string>,
                         explicit: Option<string>, now: real)
    ensures var models := UsableModels(calls, user, provider, chain, explicit, now);
      && (Cools(calls, user, provider, "*", now) ==> models == [])
      && (!Cools(calls, user, provider, "*", now) && explicit.Some? ==> models == [explicit])
      && (!Cools(calls, user, provider, "*", now) && explicit.None? && chain == [] ==> models == [None])
  {
  }

  /** Otherwise, when some model of the chain is not cooling, exactly those models are tried, in chain
      order. */
  lemma UsableModelsAreTheWarm(calls: seq<Cooling>, user: int, provider: string, chain: seq<string>, now: real)
    requires !Cools(calls, user, provider, "*", now)
    requires exists m :: m in chain && !Cools(calls, user, provider, m, now)
    ensures var models := UsableModels(calls, user, provider, chain, None, now);
      && models != [] && None !in models
      && (forall m :: Some(m) in models <==> m in chain && !Cools(calls, user, provider, m, now))
    ensures var models := UsableModels(calls, user, provider, chain, None, now);
      NoDuplicates(chain) ==>
        exists alive :: IsSubsequence(alive, chain) && NoDuplicates(alive) && |alive| == |models|
          && forall i | 0 <= i < |alive| :: models[i] == Some(alive[i])
  {
    hide AllUnavailable;
    AliveIsFilter(calls, user, provider, chain, now);
    var alive := AliveIn(calls, user, provider, chain, now);
    var warm :| warm in chain && !Cools(calls, user, provider, warm, now);
    assert warm in alive;
    var models := UsableModels(calls, user, provider, chain, None, now);
    assert models == Named(alive);
    forall m ensures Some(m) in models <==> m in alive {
      if m in alive {
        var i :| 0 <= i < |alive| && alive[i] == m;
        assert models[i] == Some(m);
      }
    }
    if NoDuplicates(chain) {
      AliveKeepsOrder(calls, user, provider, chain, now);
    }
  }

  lemma NothingIn(xs: seq<string>)
    ensures (forall x :: x !in xs) ==> xs == []
  {
    assert xs != [] ==> xs[0] in xs;
  }

  /** When every model of the chain is cooling, the first one is tried if all of them are unavailable, and
      none if one is cooling for another reason. */
  lemma ProbeIffAllUnavailable(calls: seq<Cooling>, user: int, provider: string, chain: seq<string>, now: real)
    requires !Cools(calls, user, provider, "*", now) && chain != []
    requires forall m | m in chain :: Cools(calls, user, provider, m, now)
    ensures var models := UsableModels(calls, user, provider, chain, None, now);
      var all := forall m | m in chain :: ReasonAt(calls, Slot(user, provider, m), now) == Some(Unavailable);
      (models == [Some(chain[0])] <==> all) && (models == [] <==> !all)
  {
    AliveIsFilter(calls, user, provider, chain, now);
    AllUnavailableMeans(calls, user, provider, chain, now);
    NothingIn(AliveIn(calls, user, provider, chain, now));
  }
}
