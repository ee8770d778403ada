/** The rolling caps as an invariant of every interleaving of the transition system. */
module RollingCap {
  import opened Common
  import opened Windows
  import opened Admission

  ghost predicate BothCapped(events: set<Event>, key: Key, caps: Caps, first: nat) {
    Capped(events, key, caps.rpm, MINUTE, first) && Capped(events, key, caps.rpd, DAY, first)
  }

  /** The call `t` has reached this point only under the lock, with the counts it has made. */
  ghost predicate PcJustified(s: State, t: Tx, key: Key, caps: Caps) {
    match t.pc
    case Idle => true
    case RowMissing(k) => k != key
    case Gated(k, _) => k == key ==> key in t.locks
    case CountMinute(k) => k == key ==> key in t.locks
    case CountDay(k) => k == key ==> key in t.locks && UnderCap(s, t, key, caps.rpm, MINUTE)
    case Insert(k) =>
      k == key ==>
        key in t.locks && UnderCap(s, t, key, caps.rpm, MINUTE) && UnderCap(s, t, key, caps.rpd, DAY)
  }

  /** What every step keeps, for one key. */
  ghost predicate TxInv(s: State, tx: nat, key: Key, caps: Caps, first: nat)
    requires tx in s.txs
  {
    var t := s.txs[tx];
    && PcJustified(s, t, key, caps)
    && (key in t.locks ==> BothCapped(View(s, t), key, caps, first))
    && (forall e | e in t.inserted && e.key == key :: key in t.locks)
    && (key in t.locks ==> !HeldByOther(s, tx, key))
  }

  ghost predicate Inv(v: Variant, s: State, key: Key, caps: Caps, first: nat) {
    && (v.SelectThenInsert? ==> key in s.rows)
    && BothCapped(s.events, key, caps, first)
    && forall tx | tx in s.txs :: TxInv(s, tx, key, caps, first)
  }

  lemma FewerEventsUnderCap(s: State, s': State, t: Tx, t': Tx, key: Key, cap: Option<int>, width: real)
    requires t.start == t'.start
    requires forall e | e in View(s', t') && e.key == key :: e in View(s, t)
    requires UnderCap(s, t, key, cap, width)
    ensures UnderCap(s', t', key, cap, width)
  {
    SubsetCard(Since(View(s', t'), key, t.start - width), Since(View(s, t), key, t.start - width));
  }

  lemma FewerEventsCapped(small: set<Event>, big: set<Event>, key: Key, caps: Caps, first: nat)
    requires BothCapped(big, key, caps, first)
    requires forall e | e in small && e.key == key :: e in big
    ensures BothCapped(small, key, caps, first)
  {
    FewerRowsKeepCap(small, big, key, caps.rpm, MINUTE, first);
    FewerRowsKeepCap(small, big, key, caps.rpd, DAY, first);
  }

  /** A transaction that is not the one taking the step keeps its part of the invariant, as long
      as the committed rows of the key only shrink while it holds the lock. */
  lemma BystanderKeepsInv(s: State, s': State, u: nat, key: Key, caps: Caps, first: nat)
    requires u in s.txs && u in s'.txs && s'.txs[u] == s.txs[u]
    requires TxInv(s, u, key, caps, first)
    requires key in s.txs[u].locks ==> forall e | e in s'.events && e.key == key :: e in s.events
    requires key in s.txs[u].locks ==> !HeldByOther(s', u, key)
    ensures TxInv(s', u, key, caps, first)
  {
    var t := s.txs[u];
    if key in t.locks {
      FewerEventsCapped(View(s', t), View(s, t), key, caps, first);
      if t.pc.CountDay? && t.pc.key == key {
        FewerEventsUnderCap(s, s', t, t, key, caps.rpm, MINUTE);
      }
      if t.pc.Insert? && t.pc.key == key {
        FewerEventsUnderCap(s, s', t, t, key, caps.rpm, MINUTE);
        FewerEventsUnderCap(s, s', t, t, key, caps.rpd, DAY);
      }
    }
  }

  /** Steps that replace one transaction record and leave the committed tables alone. */
  lemma LocalStepKeepsInv(v: Variant, s: State, s': State, tx: nat, key: Key, caps: Caps, first: nat)
    requires Inv(v, s, key, caps, first)
    requires s'.events == s.events && s'.rows == s.rows
    requires tx in s'.txs && s'.txs == s.txs[tx := s'.txs[tx]]
    requires TxInv(s', tx, key, caps, first)
    requires tx in s.txs ==> s.txs[tx].locks <= s'.txs[tx].locks
    ensures Inv(v, s', key, caps, first)
  {
    forall u | u in s'.txs ensures TxInv(s', u, key, caps, first) {
      if u != tx {
        assert TxInv(s, u, key, caps, first);
        BystanderKeepsInv(s, s', u, key, caps, first);
      }
    }
  }

  lemma SameLocksOutside(s: State, s': State, tx: nat, key: Key)
    requires tx in s'.txs && s'.txs == s.txs[tx := s'.txs[tx]]
    ensures HeldByOther(s', tx, key) == HeldByOther(s, tx, key)
  {
    if HeldByOther(s, tx, key) {
      var u :| u in s.txs && u != tx && key in s.txs[u].locks;
      assert s'.txs[u] == s.txs[u];
    }
    if HeldByOther(s', tx, key) {
      var u :| u in s'.txs && u != tx && key in s'.txs[u].locks;
      assert s.txs[u] == s'.txs[u];
    }
  }

  /** Taking the lock of `key` brings the committed cap into the transaction's own view. */
  lemma LockingKeepsTxInv(v: Variant, s: State, s': State, tx: nat, key: Key, caps: Caps, first: nat)
    requires Inv(v, s, key, caps, first) && tx in s.txs
    requires s'.events == s.events && tx in s'.txs && s'.txs == s.txs[tx := s'.txs[tx]]
    requires var t, t' := s.txs[tx], s'.txs[tx];
      && t'.inserted == t.inserted && t'.deleted == t.deleted
      && (key in t'.locks && key !in t.locks ==> !HeldByOther(s, tx, key))
      && t.locks <= t'.locks
      && PcJustified(s', t', key, caps)
    ensures TxInv(s', tx, key, caps, first)
  {
    var t, t' := s.txs[tx], s'.txs[tx];
    assert TxInv(s, tx, key, caps, first);
    SameLocksOutside(s, s', tx, key);
    if key in t'.locks && key !in t.locks {
      FewerEventsCapped(View(s', t'), s.events, key, caps, first);
    }
  }

  /** The INSERT of the new row: the counts made under the lock still bound the view. */
  lemma InsertKeepsTxInv(v: Variant, caps: Key -> Caps, s: State, tx: nat, s': State, key: Key, first: nat)
    requires Inv(v, s, key, Enforced(v, caps(key)), first)
    requires tx in s.txs && s.txs[tx].pc.Insert?
    requires Apply(v, caps, s, Continue(tx)) == Some(s')
    ensures TxInv(s', tx, key, Enforced(v, caps(key)), first)
  {
    var c, t, t' := Enforced(v, caps(key)), s.txs[tx], s'.txs[tx];
    assert TxInv(s, tx, key, c, first);
    SameLocksOutside(s, s', tx, key);
    var row := Event(s.nextId, t.pc.key, t.start);
    var before, after := View(s, t), View(s', t');
    if row.key != key {
      if key in t.locks {
        FewerEventsCapped(after, before, key, c, first);
      }
    } else {
      if c.rpm.Some? { AdmittedRowKeepsCap(before, row, c.rpm.value, MINUTE, first); }
      if c.rpd.Some? { AdmittedRowKeepsCap(before, row, c.rpd.value, DAY, first); }
      FewerEventsCapped(after, before + {row}, key, c, first);
    }
  }

  lemma ContinueKeepsInv(v: Variant, caps: Key -> Caps, s: State, tx: nat, s': State, key: Key, first: nat)
    requires Inv(v, s, key, Enforced(v, caps(key)), first)
    requires Apply(v, caps, s, Continue(tx)) == Some(s')
    ensures Inv(v, s', key, Enforced(v, caps(key)), first)
  {
    var c := Enforced(v, caps(key));
    if s.txs[tx].pc.Insert? {
      InsertKeepsTxInv(v, caps, s, tx, s', key, first);
    } else {
      LockingKeepsTxInv(v, s, s', tx, key, c, first);
    }
    LocalStepKeepsInv(v, s, s', tx, key, c, first);
  }

  lemma DeleteKeepsInv(v: Variant, s: State, tx: nat, doomed: set<Event>, s': State, key: Key, caps: Caps, first: nat)
    requires Inv(v, s, key, caps, first) && tx in s.txs && s.txs[tx].pc.Idle?
    requires s' == Put(s, tx, Delete(s, s.txs[tx], doomed))
    ensures Inv(v, s', key, caps, first)
  {
    var t, t' := s.txs[tx], s'.txs[tx];
    assert TxInv(s, tx, key, caps, first);
    SameLocksOutside(s, s', tx, key);
    if key in t.locks {
      FewerEventsCapped(View(s', t'), View(s, t), key, caps, first);
    }
    LocalStepKeepsInv(v, s, s', tx, key, caps, first);
  }

  lemma EndKeepsInv(v: Variant, caps: Key -> Caps, s: State, step: Step, s': State, key: Key, first: nat)
    requires Inv(v, s, key, Enforced(v, caps(key)), first)
    requires step.Commit? || step.Abort?
    requires Apply(v, caps, s, step) == Some(s')
    ensures Inv(v, s', key, Enforced(v, caps(key)), first)
  {
    var c, t := Enforced(v, caps(key)), s.txs[step.tx];
    assert TxInv(s, step.tx, key, c, first);
    if step.Commit? && key !in t.locks {
      FewerEventsCapped(s'.events, s.events, key, c, first);
    }
    forall u | u in s'.txs ensures TxInv(s', u, key, c, first) {
      assert TxInv(s, u, key, c, first);
      if key in s.txs[u].locks {
        assert key !in t.locks;
      }
      BystanderKeepsInv(s, s', u, key, c, first);
    }
  }

  /** Every step of every transaction keeps the invariant. */
  lemma StepKeepsInv(v: Variant, caps: Key -> Caps, s: State, step: Step, s': State, key: Key, first: nat)
    requires Inv(v, s, key, Enforced(v, caps(key)), first)
    requires Apply(v, caps, s, step) == Some(s')
    ensures Inv(v, s', key, Enforced(v, caps(key)), first)
  {
    var c := Enforced(v, caps(key));
    match step
    case Tick(now) =>
      forall u | u in s'.txs ensures TxInv(s', u, key, c, first) {
        assert TxInv(s, u, key, c, first);
        BystanderKeepsInv(s, s', u, key, c, first);
      }
    case Begin(tx) =>
      LocalStepKeepsInv(v, s, s', tx, key, c, first);
    case Call(tx, k) =>
      LockingKeepsTxInv(v, s, s', tx, key, c, first);
      LocalStepKeepsInv(v, s, s', tx, key, c, first);
    case Continue(tx) =>
      ContinueKeepsInv(v, caps, s, tx, s', key, first);
    case WriteStats(tx, k, gate) =>
      if RowVisible(s, s.txs[tx], k) {
        LockingKeepsTxInv(v, s, s', tx, key, c, first);
        LocalStepKeepsInv(v, s, s', tx, key, c, first);
      }
    case Rollback(tx, id) =>
      DeleteKeepsInv(v, s, tx, (set e | e in View(s, s.txs[tx]) && e.id == id), s', key, c, first);
    case Purge(tx, cutoff) =>
      DeleteKeepsInv(v, s, tx, (set e | e in View(s, s.txs[tx]) && e.at < cutoff), s', key, c, first);
    case Commit(_) => EndKeepsInv(v, caps, s, step, s', key, first);
    case Abort(_) => EndKeepsInv(v, caps, s, step, s', key, first);
  }

  lemma {:induction false} RunKeepsInv(
    v: Variant, caps: Key -> Caps, s: State, steps: seq<Step>, s': State, key: Key, first: nat)
    requires Inv(v, s, key, Enforced(v, caps(key)), first)
    requires Run(v, caps, s, steps) == Some(s')
    ensures Inv(v, s', key, Enforced(v, caps(key)), first)
    decreases steps
  {
    if steps != [] {
      var mid := Apply(v, caps, s, steps[0]).value;
      StepKeepsInv(v, caps, s, steps[0], mid, key, first);
      RunKeepsInv(v, caps, mid, steps[1..], s', key, first);
    }
  }

  /** The rolling cap, for every interleaving. From any quiescent state, under 0007 and 0004, and
      under 0014 once the stats row exists, no closed 60 s or 86400 s interval that holds a row
      admitted since then holds more rows than its cap; and if the table was within its caps at the
      start (`first == 0`) it always is. */
  lemma CapHolds(v: Variant, caps: Key -> Caps, s: State, steps: seq<Step>, s': State, key: Key, first: nat)
    requires Quiescent(s)
    requires v.SelectThenInsert? ==> key in s.rows
    requires first == s.nextId || BothCapped(s.events, key, Enforced(v, caps(key)), first)
    requires forall e | e in s.events :: e.id < s.nextId
    requires Run(v, caps, s, steps) == Some(s')
    ensures BothCapped(s'.events, key, Enforced(v, caps(key)), first)
  {
    RunKeepsInv(v, caps, s, steps, s', key, first);
  }
}
