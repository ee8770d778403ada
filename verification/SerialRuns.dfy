/** The serial runs of module Breaker, derived: in every run of the deployed transition system from a
    state in which the stats row exists, the committed dispatches of the key form a serial run, because
    the row lock is held from the reservation to the commit. */
module SerialRuns {
  import opened Common
  import opened Windows
  import opened Admission
  import opened RollingCap
  import opened FirstRowRace
  import opened ReserveRefinement
  import opened StatsRow
  import opened Breaker

  // ---------- the transition system with whole rows ----------

  /** A step of the transition system, or the end of a dispatch: the transaction updates the row it has
      reserved on, at the current time. */
  datatype Act = Plain(step: Step) | Finish(tx: nat, outcome: Outcome)

  /** The transition system's state, and what it leaves out of the one key's row: the committed row, the
      transactions' own versions of it, who has an unfinished reservation, and the finished dispatches,
      of the open transactions and committed. */
  datatype World = World(
    s: State, base: Row, own: map<nat, Row>, granted: set<nat>,
    pending: map<nat, seq<Dispatch>>, history: seq<Dispatch>)

  function RowSeen(w: World, tx: nat): Row {
    if tx in w.own then w.own[tx] else w.base
  }

  function PendingOf(w: World, tx: nat): seq<Dispatch> {
    if tx in w.pending then w.pending[tx] else []
  }

  /** The key's row is only written by finishing a dispatch. */
  predicate Disciplined(key: Key, step: Step) {
    step.WriteStats? ==> step.key != key
  }

  function Follow(key: Key, w: World, step: Step, s': State): World {
    match step
    case Commit(tx) =>
      World(s', RowSeen(w, tx), w.own - {tx}, w.granted - {tx}, w.pending - {tx}, w.history + PendingOf(w, tx))
    case Abort(tx) => w.(s := s', own := w.own - {tx}, granted := w.granted - {tx}, pending := w.pending - {tx})
    case Continue(tx) =>
      w.(s := s', granted := w.granted + if tx in w.s.txs && w.s.txs[tx].pc == Insert(key) then {tx} else {})
    case _ => w.(s := s')
  }

  function Finished(w: World, tx: nat, row: Row, outcome: Outcome, s': State): World
    requires tx in w.s.txs
  {
    World(s', w.base, w.own[tx := row], w.granted - {tx},
          w.pending[tx := PendingOf(w, tx) + [Dispatch(w.s.txs[tx].start, w.s.clock, outcome)]], w.history)
  }

  function Do(caps: Key -> Caps, key: Key, tun: Tunables, w: World, act: Act): Option<World> {
    match act
    case Plain(step) =>
      if !Disciplined(key, step) then None
      else
        (match Apply(SelectThenInsert, caps, w.s, step)
         case None => None
         case Some(s') => Some(Follow(key, w, step, s')))
    case Finish(tx, outcome) =>
      if tx !in w.granted || tx !in w.s.txs then None
      else
        var row := CommitRow(RowSeen(w, tx), w.s.clock, outcome, tun);
        (match Apply(SelectThenInsert, caps, w.s, WriteStats(tx, key, GateOf(row)))
         case None => None
         case Some(s') => Some(Finished(w, tx, row, outcome, s')))
  }

  function DoAll(caps: Key -> Caps, key: Key, tun: Tunables, w: World, acts: seq<Act>): Option<World>
    decreases acts
  {
    if acts == [] then Some(w)
    else
      match Do(caps, key, tun, w, acts[0])
      case None => None
      case Some(w') => DoAll(caps, key, tun, w', acts[1..])
  }

  // ---------- serial lists ----------

  function RowAfterAll(row: Row, ds: seq<Dispatch>, tun: Tunables): Row
    decreases ds
  {
    if ds == [] then row else RowAfterAll(CommitRow(row, ds[0].settledAt, ds[0].outcome, tun), ds[1..], tun)
  }

  /** A serial list that leads from one row to another. */
  ghost predicate Leads(from: Row, ds: seq<Dispatch>, to: Row, tun: Tunables) {
    Serial(from, ds, tun) && RowAfterAll(from, ds, tun) == to
  }

  lemma {:induction false} LeadsOn(a: Row, ds: seq<Dispatch>, b: Row, es: seq<Dispatch>, c: Row, tun: Tunables)
    requires Leads(a, ds, b, tun) && Leads(b, es, c, tun)
    ensures Leads(a, ds + es, c, tun)
    decreases |ds|
  {
    hide CommitRow, ReserveGateOpen;
    if ds == [] {
      assert ds + es == es;
    } else {
      assert (ds + es)[0] == ds[0] && (ds + es)[1..] == ds[1..] + es;
      LeadsOn(CommitRow(a, ds[0].settledAt, ds[0].outcome, tun), ds[1..], b, es, c, tun);
    }
  }

  lemma OneDispatchLeads(row: Row, d: Dispatch, tun: Tunables)
    requires ReserveGateOpen(row, d.reservedAt) && d.reservedAt <= d.settledAt
    ensures Leads(row, [d], CommitRow(row, d.settledAt, d.outcome, tun), tun)
  {
    hide CommitRow;
    var after := CommitRow(row, d.settledAt, d.outcome, tun);
    assert [d][1..] == [];
    assert Serial(after, [], tun) && RowAfterAll(after, [], tun) == after;
  }

  lemma NothingLeads(row: Row, tun: Tunables)
    ensures Leads(row, [], row, tun)
  {
  }

  // ---------- what every act keeps ----------

  /** Past the gate of a call. */
  predicate PastGate(pc: Pc, key: Key) {
    pc == CountMinute(key) || pc == CountDay(key) || pc == Insert(key)
  }

  ghost predicate TxFits(w: World, tx: nat, key: Key, tun: Tunables)
    requires tx in w.s.txs
  {
    var t, row := w.s.txs[tx], RowSeen(w, tx);
    && t.start <= w.s.clock
    && (key in t.rows <==> tx in w.own) && (tx in w.own <==> tx in w.pending)
    && (tx in w.own ==> t.rows[key] == GateOf(row) && key in t.locks)
    && Leads(w.base, PendingOf(w, tx), row, tun)
    && (t.pc.Gated? && t.pc.key == key ==> t.pc.gate == GateOf(row))
    && (PastGate(t.pc, key) ==> ReserveGateOpen(row, t.start))
    && (tx in w.granted ==> key in t.locks && ReserveGateOpen(row, t.start))
  }

  ghost predicate Fits(w: World, key: Key, row0: Row, tun: Tunables) {
    && key in w.s.rows && w.s.rows[key] == GateOf(w.base)
    && Leads(row0, w.history, w.base, tun)
    && w.own.Keys <= w.s.txs.Keys && w.granted <= w.s.txs.Keys && w.pending.Keys <= w.s.txs.Keys
    && forall tx | tx in w.s.txs :: TxFits(w, tx, key, tun)
  }

  ghost predicate Sound(caps: Key -> Caps, w: World, key: Key, row0: Row, tun: Tunables, first: nat) {
    Inv(SelectThenInsert, w.s, key, Enforced(SelectThenInsert, caps(key)), first) && Fits(w, key, row0, tun)
  }

  /** Nothing of a transaction's part depends on the others, but for the committed row. */
  lemma UntouchedFits(w: World, w': World, u: nat, key: Key, tun: Tunables)
    requires u in w.s.txs && u in w'.s.txs && w'.s.txs[u] == w.s.txs[u] && w.s.clock <= w'.s.clock
    requires TxFits(w, u, key, tun)
    requires w'.base == w.base && RowSeen(w', u) == RowSeen(w, u)
    requires (u in w.own <==> u in w'.own) && (u in w.pending <==> u in w'.pending)
    requires PendingOf(w', u) == PendingOf(w, u) && (u in w'.granted ==> u in w.granted)
    ensures TxFits(w', u, key, tun)
  {
    hide Leads, ReserveGateOpen;
  }

  lemma OthersFit(w: World, w': World, tx: nat, key: Key, tun: Tunables)
    requires forall u | u in w.s.txs :: TxFits(w, u, key, tun)
    requires forall u | u in w'.s.txs && u != tx :: u in w.s.txs && w'.s.txs[u] == w.s.txs[u]
    requires w.s.clock <= w'.s.clock && w'.base == w.base
    requires forall u | u != tx :: (u in w.own <==> u in w'.own) && (u in w.pending <==> u in w'.pending)
    requires forall u | u != tx :: RowSeen(w', u) == RowSeen(w, u) && PendingOf(w', u) == PendingOf(w, u)
    requires forall u | u != tx && u in w'.granted :: u in w.granted
    ensures forall u | u in w'.s.txs && u != tx :: TxFits(w', u, key, tun)
  {
    hide TxFits, RowSeen, PendingOf;
    forall u | u in w'.s.txs && u != tx ensures TxFits(w', u, key, tun) {
      UntouchedFits(w, w', u, key, tun);
    }
  }

  /** Finishing a dispatch appends it to the transaction's list. */
  lemma FinishFits(caps: Key -> Caps, w: World, tx: nat, outcome: Outcome, w': World,
                   key: Key, row0: Row, tun: Tunables, first: nat)
    requires Sound(caps, w, key, row0, tun, first)
    requires Do(caps, key, tun, w, Finish(tx, outcome)) == Some(w')
    ensures Fits(w', key, row0, tun)
  {
    hide Leads, ReserveGateOpen, CommitRow, Inv;
    assert TxFits(w, tx, key, tun);
    var row := RowSeen(w, tx);
    var d := Dispatch(w.s.txs[tx].start, w.s.clock, outcome);
    OneDispatchLeads(row, d, tun);
    LeadsOn(w.base, PendingOf(w, tx), row, [d], CommitRow(row, w.s.clock, outcome, tun), tun);
    OthersFit(w, w', tx, key, tun);
  }

  /** A transaction that starts has no part in the row yet. */
  lemma NewTxFits(w: World, tx: nat, key: Key, tun: Tunables)
    requires tx in w.s.txs && w.s.txs[tx] == Tx(w.s.clock, Idle, {}, {}, {}, map[], None)
    requires tx !in w.own && tx !in w.pending && tx !in w.granted
    ensures TxFits(w, tx, key, tun)
  {
    NothingLeads(w.base, tun);
  }

  lemma BeginFits(caps: Key -> Caps, w: World, tx: nat, w': World, key: Key, row0: Row, tun: Tunables, first: nat)
    requires Sound(caps, w, key, row0, tun, first)
    requires Do(caps, key, tun, w, Plain(Begin(tx))) == Some(w')
    ensures Fits(w', key, row0, tun)
  {
    hide Leads, Inv, TxFits;
    NewTxFits(w', tx, key, tun);
    OthersFit(w, w', tx, key, tun);
  }

  lemma TickFits(caps: Key -> Caps, w: World, now: real, w': World, key: Key, row0: Row, tun: Tunables, first: nat)
    requires Sound(caps, w, key, row0, tun, first)
    requires Do(caps, key, tun, w, Plain(Tick(now))) == Some(w')
    ensures Fits(w', key, row0, tun)
  {
    hide Leads, ReserveGateOpen, Inv, TxFits;
    forall u | u in w'.s.txs ensures TxFits(w', u, key, tun) {
      UntouchedFits(w, w', u, key, tun);
    }
  }

  /** The steps of one open transaction, but for its end. */
  predicate IsLocal(step: Step) {
    step.Call? || step.Continue? || step.WriteStats? || step.Rollback? || step.Purge?
  }

  lemma LocalTxFits(caps: Key -> Caps, w: World, step: Step, w': World, key: Key, row0: Row, tun: Tunables, first: nat)
    requires Sound(caps, w, key, row0, tun, first) && IsLocal(step) && !step.Continue?
    requires Do(caps, key, tun, w, Plain(step)) == Some(w')
    ensures w'.s.rows == w.s.rows && w'.s.clock == w.s.clock
    ensures w' == w.(s := w'.s)
    ensures step.tx in w.s.txs && w'.s.txs == w.s.txs[step.tx := w'.s.txs[step.tx]]
    ensures TxFits(w', step.tx, key, tun)
  {
    hide Leads, ReserveGateOpen, Inv;
    assert TxFits(w, step.tx, key, tun);
    assert w'.s.txs == w.s.txs[step.tx := w'.s.txs[step.tx]];
  }

  /** A running call on the key holds its lock, and has found the row. */
  lemma CallHoldsLock(caps: Key -> Caps, w: World, tx: nat, key: Key, row0: Row, tun: Tunables, first: nat)
    requires Sound(caps, w, key, row0, tun, first) && tx in w.s.txs
    ensures w.s.txs[tx].pc != RowMissing(key)
    ensures PastGate(w.s.txs[tx].pc, key) || (w.s.txs[tx].pc.Gated? && w.s.txs[tx].pc.key == key)
      ==> key in w.s.txs[tx].locks
  {
    hide Fits, UnderCap, BothCapped, HeldByOther;
    assert TxInv(w.s, tx, key, Enforced(SelectThenInsert, caps(key)), first);
  }

  lemma ContinueTxFits(caps: Key -> Caps, w: World, tx: nat, w': World, key: Key, row0: Row, tun: Tunables, first: nat)
    requires Sound(caps, w, key, row0, tun, first)
    requires Do(caps, key, tun, w, Plain(Continue(tx))) == Some(w')
    ensures w'.s.rows == w.s.rows && w'.s.clock == w.s.clock
    ensures w' == w.(s := w'.s, granted := w'.granted) && w'.granted <= w.granted + {tx}
    ensures tx in w.s.txs && w'.s.txs == w.s.txs[tx := w'.s.txs[tx]]
    ensures TxFits(w', tx, key, tun)
  {
    hide Leads, ReserveGateOpen, Inv, UnderCap, HeldByOther, InsertPendingElsewhere;
    assert TxFits(w, tx, key, tun);
    CallHoldsLock(caps, w, tx, key, row0, tun, first);
    assert w'.s.txs == w.s.txs[tx := w'.s.txs[tx]];
    GateIsReserveGate(w, tx);
  }

  lemma GateIsReserveGate(w: World, tx: nat)
    requires tx in w.s.txs
    ensures ReserveGateOpen(RowSeen(w, tx), w.s.txs[tx].start)
      == GateOpen(SelectThenInsert, GateOf(RowSeen(w, tx)), w.s.txs[tx].start)
  {
  }

  lemma LocalFits(caps: Key -> Caps, w: World, step: Step, w': World, key: Key, row0: Row, tun: Tunables, first: nat)
    requires Sound(caps, w, key, row0, tun, first) && IsLocal(step)
    requires Do(caps, key, tun, w, Plain(step)) == Some(w')
    ensures Fits(w', key, row0, tun)
  {
    hide Leads, ReserveGateOpen, Inv, TxFits, Apply;
    if step.Continue? {
      ContinueTxFits(caps, w, step.tx, w', key, row0, tun, first);
    } else {
      LocalTxFits(caps, w, step, w', key, row0, tun, first);
    }
    OthersFit(w, w', step.tx, key, tun);
  }

  /** The end of a transaction. On commit its dispatches join the history; nobody else has a stake in
      the row, because it held the lock. */
  lemma EndFits(caps: Key -> Caps, w: World, step: Step, w': World, key: Key, row0: Row, tun: Tunables, first: nat)
    requires Sound(caps, w, key, row0, tun, first) && (step.Commit? || step.Abort?)
    requires Do(caps, key, tun, w, Plain(step)) == Some(w')
    ensures Fits(w', key, row0, tun)
  {
    hide Leads, ReserveGateOpen;
    var tx := step.tx;
    assert TxFits(w, tx, key, tun);
    if step.Commit? {
      LeadsOn(row0, w.history, w.base, PendingOf(w, tx), RowSeen(w, tx), tun);
    }
    forall u | u in w'.s.txs ensures TxFits(w', u, key, tun) {
      assert TxFits(w, u, key, tun) && TxInv(w.s, u, key, Enforced(SelectThenInsert, caps(key)), first);
      if step.Commit? && tx in w.own {
        assert HeldByOther(w.s, u, key);
        NothingLeads(w'.base, tun);
      } else {
        UntouchedFits(w, w', u, key, tun);
      }
    }
  }

  lemma PlainFits(caps: Key -> Caps, w: World, step: Step, w': World, key: Key, row0: Row, tun: Tunables, first: nat)
    requires Sound(caps, w, key, row0, tun, first)
    requires Do(caps, key, tun, w, Plain(step)) == Some(w')
    ensures Fits(w', key, row0, tun)
  {
    hide Sound, Do, Fits;
    match step
    case Tick(now) => TickFits(caps, w, now, w', key, row0, tun, first);
    case Begin(tx) => BeginFits(caps, w, tx, w', key, row0, tun, first);
    case Commit(_) => EndFits(caps, w, step, w', key, row0, tun, first);
    case Abort(_) => EndFits(caps, w, step, w', key, row0, tun, first);
    case _ => LocalFits(caps, w, step, w', key, row0, tun, first);
  }

  lemma ActKeepsSound(caps: Key -> Caps, w: World, act: Act, w': World, key: Key, row0: Row, tun: Tunables, first: nat)
    requires Sound(caps, w, key, row0, tun, first) && Do(caps, key, tun, w, act) == Some(w')
    ensures Sound(caps, w', key, row0, tun, first)
  {
    hide Fits, Apply, Inv;
    match act {
      case Plain(step) =>
        PlainFits(caps, w, step, w', key, row0, tun, first);
        StepKeepsInv(SelectThenInsert, caps, w.s, step, w'.s, key, first);
      case Finish(tx, outcome) =>
        FinishFits(caps, w, tx, outcome, w', key, row0, tun, first);
        var gate := GateOf(CommitRow(RowSeen(w, tx), w.s.clock, outcome, tun));
        StepKeepsInv(SelectThenInsert, caps, w.s, WriteStats(tx, key, gate), w'.s, key, first);
    }
  }

  lemma {:induction false} ActsKeepSound(
    caps: Key -> Caps, w: World, acts: seq<Act>, w': World, key: Key, row0: Row, tun: Tunables, first: nat)
    requires Sound(caps, w, key, row0, tun, first) && DoAll(caps, key, tun, w, acts) == Some(w')
    ensures Sound(caps, w', key, row0, tun, first)
    decreases acts
  {
    hide Sound, Do;
    if acts != [] {
      var mid := Do(caps, key, tun, w, acts[0]).value;
      ActKeepsSound(caps, w, acts[0], mid, key, row0, tun, first);
      ActsKeepSound(caps, mid, acts[1..], w', key, row0, tun, first);
    }
  }

  // ---------- runs ----------

  function StartOf(s: State, row0: Row): World {
    World(s, row0, map[], {}, map[], [])
  }

  /** In every run from a quiescent state with the row in place, the committed dispatches of the key, in
      the order of their commits, are a serial run that leads from that row to the committed one. */
  lemma RunsAreSerial(caps: Key -> Caps, s: State, row0: Row, acts: seq<Act>, w: World, key: Key, tun: Tunables)
    requires Quiescent(s) && TableInOrder(s) && key in s.rows && s.rows[key] == GateOf(row0)
    requires DoAll(caps, key, tun, StartOf(s, row0), acts) == Some(w)
    ensures Leads(row0, w.history, w.base, tun) && key in w.s.rows && w.s.rows[key] == GateOf(w.base)
  {
    NothingLeads(row0, tun);
    ActsKeepSound(caps, StartOf(s, row0), acts, w, key, row0, tun, s.nextId);
  }

  /** So the spacing of trips holds of every such run. */
  lemma CommittedTripsSpreadOut(
    caps: Key -> Caps, s: State, row0: Row, acts: seq<Act>, w: World, key: Key, tun: Tunables, k: nat)
    requires Quiescent(s) && TableInOrder(s) && key in s.rows && s.rows[key] == GateOf(row0)
    requires DoAll(caps, key, tun, StartOf(s, row0), acts) == Some(w)
    requires forall i | 0 <= i < |w.history| :: !w.history[i].outcome.Success?
    requires k < |TripTimes(row0, w.history, tun)|
    ensures TripTimes(row0, w.history, tun)[k] - TripTimes(row0, w.history, tun)[0]
      >= CooldownSum(row0.cooldownLevel, k, tun) as real
  {
    RunsAreSerial(caps, s, row0, acts, w, key, tun);
    TripsSpreadOut(row0, w.history, tun, k);
  }
}
