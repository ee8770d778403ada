/** Migration 0014 brought back the unlocked first-row path that 0007 had removed. This file
    shows the over-admitting run and that a missing stats row is exactly what makes it possible. */
module FirstRowRace {
  import opened Common
  import opened Windows
  import opened Admission
  import opened RollingCap

  ghost predicate Reaches(v: Variant, caps: Key -> Caps, s: State, s': State) {
    exists steps :: Run(v, caps, s, steps) == Some(s')
  }

  /** The cap promise for one key, over every run from `s`: rows admitted from now on never push
      a window over its cap. */
  ghost predicate KeepsCap(v: Variant, caps: Key -> Caps, s: State, key: Key) {
    forall s' | Reaches(v, caps, s, s') :: BothCapped(s'.events, key, Enforced(v, caps(key)), s.nextId)
  }

  /** Row ids come from a sequence and no row is stamped in the future. */
  ghost predicate TableInOrder(s: State) {
    forall e | e in s.events :: e.id < s.nextId && e.at <= s.clock
  }

  lemma {:induction false} RunConcat(v: Variant, caps: Key -> Caps, s: State, a: seq<Step>, b: seq<Step>, s': State)
    requires Run(v, caps, s, a) == Some(s')
    ensures Run(v, caps, s, a + b) == Run(v, caps, s', b)
    decreases a
  {
    if a == [] {
      assert a + b == b;
    } else {
      assert (a + b)[0] == a[0] && (a + b)[1..] == a[1..] + b;
      RunConcat(v, caps, Apply(v, caps, s, a[0]).value, a[1..], b, s');
    }
  }

  lemma ReachesThen(v: Variant, caps: Key -> Caps, s: State, mid: State, s': State)
    requires Reaches(v, caps, s, mid) && Reaches(v, caps, mid, s')
    ensures Reaches(v, caps, s, s')
  {
    var a :| Run(v, caps, s, a) == Some(mid);
    var b :| Run(v, caps, mid, b) == Some(s');
    RunConcat(v, caps, s, a, b, mid);
  }

  lemma OneMore(v: Variant, caps: Key -> Caps, s: State, mid: State, step: Step, s': State)
    requires Reaches(v, caps, s, mid)
    requires Apply(v, caps, mid, step) == Some(s')
    ensures Reaches(v, caps, s, s')
  {
    assert [step][1..] == [];
    assert Run(v, caps, s', []) == Some(s');
    assert Run(v, caps, mid, [step]) == Some(s');
    ReachesThen(v, caps, s, mid, s');
  }

  lemma Stay(v: Variant, caps: Key -> Caps, s: State)
    ensures Reaches(v, caps, s, s)
  {
    assert Run(v, caps, s, []) == Some(s);
  }

  /** From the gate to the insert, when the gate is open and both counts are below the caps. */
  lemma Admit(caps: Key -> Caps, s: State, tx: nat, key: Key) returns (s': State)
    requires tx in s.txs && s.txs[tx].pc == Gated(key, FRESH_GATE) && s.txs[tx].start >= 0.0
    requires UnderCap(s, s.txs[tx], key, caps(key).rpm, MINUTE)
    requires UnderCap(s, s.txs[tx], key, caps(key).rpd, DAY)
    ensures Reaches(SelectThenInsert, caps, s, s')
    ensures var t := s.txs[tx];
      s' == Put(s, tx, t.(inserted := t.inserted + {Event(s.nextId, key, t.start)}, pc := Idle,
                          token := Some(s.nextId))).(nextId := s.nextId + 1)
  {
    var v, t := SelectThenInsert, s.txs[tx];
    var s1 := Put(s, tx, t.(pc := CountMinute(key)));
    var s2 := Put(s1, tx, t.(pc := CountDay(key)));
    var s3 := Put(s2, tx, t.(pc := Insert(key)));
    assert View(s1, s1.txs[tx]) == View(s, t) == View(s2, s2.txs[tx]);
    Stay(v, caps, s);
    OneMore(v, caps, s, s, Continue(tx), s1);
    OneMore(v, caps, s, s1, Continue(tx), s2);
    OneMore(v, caps, s, s2, Continue(tx), s3);
    s' := Apply(v, caps, s3, Continue(tx)).value;
    OneMore(v, caps, s, s3, Continue(tx), s');
    assert s'.txs == Put(s, tx, s'.txs[tx]).txs;
  }

  /** Every cap of the key lets `r` rows through. */
  predicate AllowsAtLeast(caps: Caps, r: int) {
    (caps.rpm.Some? ==> caps.rpm.value >= r) && (caps.rpd.Some? ==> caps.rpd.value >= r)
  }

  /** Some cap of the key admits nothing at all. */
  predicate Closed(caps: Caps) {
    !AllowsAtLeast(caps, 1)
  }

  /** `r` is the smallest cap of the key. */
  predicate TightestCap(caps: Caps, r: int) {
    AllowsAtLeast(caps, r) && (caps.rpm == Some(r) || caps.rpd == Some(r))
  }

  /** A transaction stamped `now`, between calls, that sees `count` rows of its own, each stamped
      `now`, and no other row of the last day. */
  ghost predicate Filling(s: State, tx: nat, key: Key, now: real, count: nat) {
    && now >= 0.0
    && tx in s.txs && s.txs[tx].pc.Idle? && s.txs[tx].start == now && s.txs[tx].deleted == {}
    && key in s.rows && s.rows[key] == FRESH_GATE && key !in s.txs[tx].rows
    && !HeldByOther(s, tx, key)
    && |s.txs[tx].inserted| == count
    && (forall e | e in s.txs[tx].inserted :: e.key == key && e.at == now && e.id < s.nextId)
    && (forall e | e in s.events :: e.id < s.nextId)
    && Since(s.events, key, now - DAY) == {}
  }

  /** The SELECT finds the row and locks it; both counts are below their caps. */
  lemma LockExistingRow(caps: Key -> Caps, s: State, tx: nat, key: Key, now: real, count: nat, r: int)
    returns (s1: State)
    requires Filling(s, tx, key, now, count) && count < r
    requires AllowsAtLeast(caps(key), r)
    ensures Reaches(SelectThenInsert, caps, s, s1)
    ensures var t := s.txs[tx];
      s1 == Put(s, tx, t.(locks := t.locks + {key}, pc := Gated(key, FRESH_GATE), token := None))
    ensures UnderCap(s1, s1.txs[tx], key, caps(key).rpm, MINUTE)
    ensures UnderCap(s1, s1.txs[tx], key, caps(key).rpd, DAY)
  {
    hide Apply, Run, View, Since;
    var t := s.txs[tx];
    s1 := Put(s, tx, t.(locks := t.locks + {key}, pc := Gated(key, FRESH_GATE), token := None));
    LockApplies(caps, s, tx, key, now, count);
    Stay(SelectThenInsert, caps, s);
    OneMore(SelectThenInsert, caps, s, s, Call(tx, key), s1);
    FillingUnderCaps(s, s1, tx, key, now, count);
  }

  lemma LockApplies(caps: Key -> Caps, s: State, tx: nat, key: Key, now: real, count: nat)
    requires Filling(s, tx, key, now, count)
    ensures var t := s.txs[tx];
      Apply(SelectThenInsert, caps, s, Call(tx, key))
        == Some(Put(s, tx, t.(locks := t.locks + {key}, pc := Gated(key, FRESH_GATE), token := None)))
  {
  }

  lemma FillingUnderCaps(s: State, s1: State, tx: nat, key: Key, now: real, count: nat)
    requires Filling(s, tx, key, now, count)
    requires var t := s.txs[tx];
      s1 == Put(s, tx, t.(locks := t.locks + {key}, pc := Gated(key, FRESH_GATE), token := None))
    ensures |Since(View(s1, s1.txs[tx]), key, now - MINUTE)| == count
    ensures |Since(View(s1, s1.txs[tx]), key, now - DAY)| == count
  {
    var t := s.txs[tx];
    assert View(s1, s1.txs[tx]) == s.events + t.inserted;
    assert Since(View(s1, s1.txs[tx]), key, now - MINUTE) == Since(s.events, key, now - MINUTE) + t.inserted;
    assert Since(View(s1, s1.txs[tx]), key, now - DAY) == Since(s.events, key, now - DAY) + t.inserted;
  }

  lemma FillOne(caps: Key -> Caps, s: State, tx: nat, key: Key, now: real, count: nat, r: int) returns (s': State)
    requires Filling(s, tx, key, now, count) && count < r
    requires AllowsAtLeast(caps(key), r)
    ensures Reaches(SelectThenInsert, caps, s, s') && Filling(s', tx, key, now, count + 1)
    ensures s'.events == s.events && s'.rows == s.rows && s'.txs.Keys == s.txs.Keys
    ensures s'.nextId > s.nextId && s.txs[tx].inserted <= s'.txs[tx].inserted
    ensures forall e | e in s'.txs[tx].inserted - s.txs[tx].inserted :: e.id >= s.nextId
    ensures forall u | u in s.txs && u != tx :: s'.txs[u] == s.txs[u]
  {
    var s1 := LockExistingRow(caps, s, tx, key, now, count, r);
    s' := Admit(caps, s1, tx, key);
    ReachesThen(SelectThenInsert, caps, s, s1, s');
  }

  lemma {:induction false} FillMany(caps: Key -> Caps, s: State, tx: nat, key: Key, now: real, count: nat, r: nat)
    returns (s': State)
    requires Filling(s, tx, key, now, count) && count <= r
    requires AllowsAtLeast(caps(key), r)
    ensures Reaches(SelectThenInsert, caps, s, s') && Filling(s', tx, key, now, r)
    ensures s'.events == s.events && s'.rows == s.rows && s'.txs.Keys == s.txs.Keys
    ensures s'.nextId >= s.nextId && s.txs[tx].inserted <= s'.txs[tx].inserted
    ensures forall e | e in s'.txs[tx].inserted - s.txs[tx].inserted :: e.id >= s.nextId
    ensures forall u | u in s.txs && u != tx :: s'.txs[u] == s.txs[u]
    decreases r - count
  {
    if count == r {
      Stay(SelectThenInsert, caps, s);
      s' := s;
    } else {
      var mid := FillOne(caps, s, tx, key, now, count, r);
      s' := FillMany(caps, mid, tx, key, now, count + 1, r);
      ReachesThen(SelectThenInsert, caps, s, mid, s');
    }
  }

  /** Transaction 1 finds no stats row and inserts it. */
  lemma FirstInserts(caps: Key -> Caps, s: State, key: Key, start: real) returns (s': State)
    requires s.txs == map[] && key !in s.rows && s.clock == start
    ensures Reaches(SelectThenInsert, caps, s, s')
    ensures s' == s.(txs := map[1 := Tx(start, Gated(key, FRESH_GATE), {key}, {}, {}, map[key := FRESH_GATE], None)])
  {
    var v := SelectThenInsert;
    var idle := Tx(start, Idle, {}, {}, {}, map[], None);
    var s2 := Put(s, 1, idle);
    var s3 := Put(s2, 1, idle.(pc := RowMissing(key)));
    var gated := Tx(start, Gated(key, FRESH_GATE), {key}, {}, {}, map[key := FRESH_GATE], None);
    s' := Put(s3, 1, gated);
    Stay(v, caps, s);
    OneMore(v, caps, s, s, Begin(1), s2);
    OneMore(v, caps, s, s2, Call(1, key), s3);
    assert {} + {key} == {key};
    OneMore(v, caps, s, s3, Continue(1), s');
    assert s'.txs == map[1 := gated];
  }

  /** Then it reserves, and takes the reservation back. */
  lemma FirstTakesBack(caps: Key -> Caps, s: State, key: Key, start: real) returns (s': State)
    requires s.txs == map[] && key !in s.rows && s.clock == start >= 0.0
    requires !Closed(caps(key)) && Since(s.events, key, start - DAY) == {}
    requires forall e | e in s.events :: e.id < s.nextId
    ensures Reaches(SelectThenInsert, caps, s, s')
    ensures s' == s.(nextId := s.nextId + 1, txs := map[1 :=
      Tx(start, Idle, {key}, {}, {}, map[key := FRESH_GATE], Some(s.nextId))])
  {
    var v := SelectThenInsert;
    var s4 := FirstInserts(caps, s, key, start);
    assert View(s4, s4.txs[1]) == s.events;
    var s5 := Admit(caps, s4, 1, key);
    ReachesThen(v, caps, s, s4, s5);
    var row := Event(s.nextId, key, start);
    assert {} + {row} == {row};
    var t := Tx(start, Idle, {key}, {row}, {}, map[key := FRESH_GATE], Some(s.nextId));
    assert s5.txs == map[1 := t];
    s' := Apply(v, caps, s5, Rollback(1, s.nextId)).value;
    assert (set e | e in View(s5, t) && e.id == s.nextId) == {row};
    assert {} + ({row} * s.events) == {} && {row} - {row} == {};
    OneMore(v, caps, s, s5, Rollback(1, s.nextId), s');
    assert s'.txs == map[1 := t.(inserted := {})];
  }

  /** Transaction 2 looks for the row while 1 is still open, and finds nothing. */
  lemma SecondLooksEarly(caps: Key -> Caps, s: State, key: Key) returns (s': State)
    requires key !in s.rows && s.txs.Keys == {1}
    ensures Reaches(SelectThenInsert, caps, s, s')
    ensures s' == s.(txs := s.txs[2 := Tx(s.clock, RowMissing(key), {}, {}, {}, map[], None)])
  {
    var v := SelectThenInsert;
    var idle := Tx(s.clock, Idle, {}, {}, {}, map[], None);
    var s7 := Put(s, 2, idle);
    s' := Put(s7, 2, idle.(pc := RowMissing(key)));
    Stay(v, caps, s);
    OneMore(v, caps, s, s, Begin(2), s7);
    OneMore(v, caps, s, s7, Call(2, key), s');
  }

  /** Transaction 1 commits, and 2's INSERT finds the row there: it goes on without having locked
      anything. */
  lemma SecondSlipsBy(caps: Key -> Caps, s: State, key: Key, token: nat) returns (s': State)
    requires key !in s.rows
    requires s.txs == map[1 := Tx(s.clock, Idle, {key}, {}, {}, map[key := FRESH_GATE], Some(token)),
                          2 := Tx(s.clock, RowMissing(key), {}, {}, {}, map[], None)]
    ensures Reaches(SelectThenInsert, caps, s, s')
    ensures s'.events == s.events && s'.nextId == s.nextId && s'.clock == s.clock
    ensures s'.rows == s.rows[key := FRESH_GATE]
    ensures s'.txs == map[2 := Tx(s.clock, Gated(key, FRESH_GATE), {}, {}, {}, map[], None)]
  {
    var v := SelectThenInsert;
    var s9 := Apply(v, caps, s, Commit(1)).value;
    s' := Put(s9, 2, Tx(s.clock, Gated(key, FRESH_GATE), {}, {}, {}, map[], None));
    Stay(v, caps, s);
    OneMore(v, caps, s, s, Commit(1), s9);
    OneMore(v, caps, s, s9, Continue(2), s');
  }

  /** First half of the race: the row exists now, and transaction 2 is past it without a lock. */
  lemma FirstRowUnlocked(caps: Key -> Caps, s: State, key: Key) returns (s': State)
    requires Quiescent(s) && TableInOrder(s) && key !in s.rows && !Closed(caps(key))
    ensures Reaches(SelectThenInsert, caps, s, s')
    ensures s'.clock >= 0.0 && s'.nextId > s.nextId
    ensures s'.txs == map[2 := Tx(s'.clock, Gated(key, FRESH_GATE), {}, {}, {}, map[], None)]
    ensures key in s'.rows && s'.rows[key] == FRESH_GATE
    ensures forall e | e in s'.events :: e.id < s'.nextId
    ensures Since(s'.events, key, s'.clock - DAY) == {}
  {
    var v := SelectThenInsert;
    var start := (if s.clock >= 0.0 then s.clock else 0.0) + 100000.0;
    var s1 := s.(clock := start);
    Stay(v, caps, s);
    OneMore(v, caps, s, s, Tick(start), s1);
    var s5 := FirstTakesBack(caps, s1, key, start);
    ReachesThen(v, caps, s, s1, s5);
    var s8 := SecondLooksEarly(caps, s5, key);
    ReachesThen(v, caps, s, s5, s8);
    s' := SecondSlipsBy(caps, s8, key, s.nextId);
    ReachesThen(v, caps, s, s8, s');
  }

  /** Transaction 2 admits its row with no lock; transaction 3 starts. */
  lemma UnlockedAdmits(caps: Key -> Caps, s: State, key: Key) returns (s': State)
    requires !Closed(caps(key))
    requires s.txs == map[2 := Tx(s.clock, Gated(key, FRESH_GATE), {}, {}, {}, map[], None)]
    requires s.clock >= 0.0 && key in s.rows && s.rows[key] == FRESH_GATE
    requires forall e | e in s.events :: e.id < s.nextId
    requires Since(s.events, key, s.clock - DAY) == {}
    ensures Reaches(SelectThenInsert, caps, s, s')
    ensures s'.events == s.events && s'.rows == s.rows && s'.clock == s.clock
    ensures s'.txs.Keys == {2, 3} && s'.nextId == s.nextId + 1
    ensures s'.txs[2] == Tx(s.clock, Idle, {}, {Event(s.nextId, key, s.clock)}, {}, map[], Some(s.nextId))
    ensures Filling(s', 3, key, s.clock, 0)
  {
    assert View(s, s.txs[2]) == s.events;
    var s2 := Admit(caps, s, 2, key);
    s' := Put(s2, 3, Tx(s.clock, Idle, {}, {}, {}, map[], None));
    OneMore(SelectThenInsert, caps, s, s2, Begin(3), s');
  }

  /** Transactions 2 and 3 commit, in this order. */
  lemma BothCommit(caps: Key -> Caps, s: State) returns (s': State)
    requires s.txs.Keys == {2, 3} && s.txs[2].pc.Idle? && s.txs[3].pc.Idle?
    requires s.txs[2].deleted == {} && s.txs[3].deleted == {}
    ensures Reaches(SelectThenInsert, caps, s, s')
    ensures s'.events == s.events + s.txs[2].inserted + s.txs[3].inserted
  {
    var v := SelectThenInsert;
    var s1 := Apply(v, caps, s, Commit(2)).value;
    s' := Apply(v, caps, s1, Commit(3)).value;
    Stay(v, caps, s);
    OneMore(v, caps, s, s, Commit(2), s1);
    OneMore(v, caps, s, s1, Commit(3), s');
  }

  /** The over-admitting run: with the smallest cap r >= 1, transactions 2 (unlocked) and 3 (locked)
      end up with r + 1 committed rows stamped at the same instant, in a window of any width. */
  lemma MissingRowOverAdmits(caps: Key -> Caps, s: State, key: Key, r: nat)
    returns (s': State, at: real, row: Event)
    requires Quiescent(s) && TableInOrder(s) && key !in s.rows
    requires r >= 1 && TightestCap(caps(key), r)
    ensures Reaches(SelectThenInsert, caps, s, s')
    ensures forall width | width >= 0.0 :: |Window(s'.events, key, at, width)| >= r + 1
    ensures row.id >= s.nextId && forall width | width >= 0.0 :: row in Window(s'.events, key, at, width)
  {
    var v := SelectThenInsert;
    var s1 := FirstRowUnlocked(caps, s, key);
    at := s1.clock;
    var s3 := UnlockedAdmits(caps, s1, key);
    ReachesThen(v, caps, s, s1, s3);
    var s4 := FillMany(caps, s3, 3, key, at, 0, r);
    ReachesThen(v, caps, s, s3, s4);
    s' := BothCommit(caps, s4);
    ReachesThen(v, caps, s, s4, s');
    var rows := s4.txs[3].inserted;
    row := Event(s1.nextId, key, at);
    assert row !in rows;
    forall width | width >= 0.0
      ensures |Window(s'.events, key, at, width)| >= r + 1 && row in Window(s'.events, key, at, width)
    {
      SubsetCard(rows + {row}, Window(s'.events, key, at, width));
    }
  }

  // ---------- a cap of zero ----------

  /** No row of the key has been admitted since `first`, and none is about to be. */
  ghost predicate NoneAdmitted(s: State, key: Key, caps: Caps, first: nat) {
    && (forall e | e in s.events && e.key == key :: e.id < first)
    && forall tx | tx in s.txs :: AdmitsNone(s.txs[tx], key, caps)
  }

  ghost predicate AdmitsNone(t: Tx, key: Key, caps: Caps) {
    && t.pc != Insert(key)
    && (caps.rpm.Some? && caps.rpm.value <= 0 ==> t.pc != CountDay(key))
    && forall e | e in t.inserted :: e.key != key
  }

  lemma ClosedStepAdmitsNone(v: Variant, caps: Key -> Caps, s: State, step: Step, s': State, key: Key, first: nat)
    requires NoneAdmitted(s, key, Enforced(v, caps(key)), first) && Closed(Enforced(v, caps(key)))
    requires Apply(v, caps, s, step) == Some(s')
    ensures NoneAdmitted(s', key, Enforced(v, caps(key)), first)
  {
    if step.Continue? {
      ClosedContinueAdmitsNone(v, caps, s, step.tx, s', key);
    }
  }

  lemma ClosedContinueAdmitsNone(v: Variant, caps: Key -> Caps, s: State, tx: nat, s': State, key: Key)
    requires tx in s.txs && AdmitsNone(s.txs[tx], key, Enforced(v, caps(key)))
    requires Closed(Enforced(v, caps(key))) && Apply(v, caps, s, Continue(tx)) == Some(s')
    ensures s'.events == s.events && s'.txs == s.txs[tx := s'.txs[tx]]
    ensures AdmitsNone(s'.txs[tx], key, Enforced(v, caps(key)))
  {
  }

  lemma {:induction false} ClosedAdmitsNone(
    v: Variant, caps: Key -> Caps, s: State, steps: seq<Step>, s': State, key: Key, first: nat)
    requires NoneAdmitted(s, key, Enforced(v, caps(key)), first) && Closed(Enforced(v, caps(key)))
    requires Run(v, caps, s, steps) == Some(s')
    ensures NoneAdmitted(s', key, Enforced(v, caps(key)), first)
    decreases steps
  {
    if steps != [] {
      var mid := Apply(v, caps, s, steps[0]).value;
      ClosedStepAdmitsNone(v, caps, s, steps[0], mid, key, first);
      ClosedAdmitsNone(v, caps, mid, steps[1..], s', key, first);
    }
  }

  // ---------- exactly when 0014 keeps the caps ----------

  lemma ExistingRowKeepsCap(caps: Key -> Caps, s: State, key: Key)
    requires Quiescent(s) && TableInOrder(s) && key in s.rows
    ensures KeepsCap(SelectThenInsert, caps, s, key)
  {
    forall s' | Reaches(SelectThenInsert, caps, s, s')
      ensures BothCapped(s'.events, key, caps(key), s.nextId)
    {
      var steps :| Run(SelectThenInsert, caps, s, steps) == Some(s');
      CapHolds(SelectThenInsert, caps, s, steps, s', key, s.nextId);
    }
  }

  lemma ClosedKeepsCap(v: Variant, caps: Key -> Caps, s: State, key: Key)
    requires Quiescent(s) && TableInOrder(s) && Closed(Enforced(v, caps(key)))
    ensures KeepsCap(v, caps, s, key)
  {
    forall s' | Reaches(v, caps, s, s')
      ensures BothCapped(s'.events, key, Enforced(v, caps(key)), s.nextId)
    {
      var steps :| Run(v, caps, s, steps) == Some(s');
      ClosedAdmitsNone(v, caps, s, steps, s', key, s.nextId);
    }
  }

  lemma MissingRowBreaksCap(caps: Key -> Caps, s: State, key: Key, r: nat)
    requires Quiescent(s) && TableInOrder(s) && key !in s.rows
    requires r >= 1 && TightestCap(caps(key), r)
    ensures !KeepsCap(SelectThenInsert, caps, s, key)
  {
    var s', at, row := MissingRowOverAdmits(caps, s, key, r);
    var width := if caps(key).rpm == Some(r) then MINUTE else DAY;
    assert row in Window(s'.events, key, at, width);
    assert !Capped(s'.events, key, Some(r), width, s.nextId);
  }

  /** Exactly when 0014 keeps a key's caps, whatever they are: the stats row is there, or there is no
      cap to break, or a cap lets nothing through. */
  lemma DeployedCapIffRowExists(caps: Key -> Caps, s: State, key: Key)
    requires Quiescent(s) && TableInOrder(s)
    ensures KeepsCap(SelectThenInsert, caps, s, key) <==>
      key in s.rows || caps(key) == Caps(None, None) || Closed(caps(key))
  {
    var c := caps(key);
    if key in s.rows {
      ExistingRowKeepsCap(caps, s, key);
    } else if c == Caps(None, None) {
    } else if Closed(c) {
      ClosedKeepsCap(SelectThenInsert, caps, s, key);
    } else {
      var r := if c.rpd.None? || (c.rpm.Some? && c.rpm.value <= c.rpd.value) then c.rpm.value else c.rpd.value;
      MissingRowBreaksCap(caps, s, key, r);
    }
  }

  /** 0007 and 0004 meet it from every quiescent state, row or no row. */
  lemma LockedCapAlways(v: Variant, caps: Key -> Caps, s: State, key: Key)
    requires !v.SelectThenInsert? && Quiescent(s) && TableInOrder(s)
    ensures KeepsCap(v, caps, s, key)
  {
    forall s' | Reaches(v, caps, s, s')
      ensures BothCapped(s'.events, key, Enforced(v, caps(key)), s.nextId)
    {
      var steps :| Run(v, caps, s, steps) == Some(s');
      CapHolds(v, caps, s, steps, s', key, s.nextId);
    }
  }
}
