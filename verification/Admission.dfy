/** The reservation functions as concurrent transactions.

    A transaction starts at a fixed instant (`NOW()`), runs one statement at a time, and ends in
    commit or abort. Each statement sees the rows committed when it starts, plus its own
    transaction's writes (READ COMMITTED). Locks are kept until the transaction ends. A step that
    would have to wait for a lock is not enabled. */
module Admission {
  import opened Common
  import opened Windows

  /** Which reservation function is installed.
      `CreateOrLock`: migration 0007, an upsert that creates or locks the stats row.
      `SelectThenInsert`: migration 0014, SELECT FOR UPDATE, then INSERT DO NOTHING.
      `Advisory`: migration 0004, the per-client function under an advisory lock. */
  datatype Variant = CreateOrLock | SelectThenInsert | Advisory

  /** Caps of one key; `None` is SQL NULL, "no limit". */
  datatype Caps = Caps(rpm: Option<int>, rpd: Option<int>)

  /** The two columns of a stats row the functions read. */
  datatype Gate = Gate(healthy: bool, quarantinedUntil: real)

  /** Column defaults of a freshly inserted row. */
  const FRESH_GATE := Gate(true, 0.0)

  /** Where a running call of the function is: the statement it executes next. */
  datatype Pc =
    | Idle
    | RowMissing(key: Key)              // 0014 only: the SELECT found nothing
    | Gated(key: Key, gate: Gate)       // v_quarantined and v_healthy are set
    | CountMinute(key: Key)
    | CountDay(key: Key)
    | Insert(key: Key)

  datatype Tx = Tx(
    start: real,
    pc: Pc,
    locks: set<Key>,            // row locks (or advisory locks) held until the end
    inserted: set<Event>,       // uncommitted rate events
    deleted: set<Event>,        // committed rate events this transaction has deleted
    rows: map<Key, Gate>,       // uncommitted versions of stats rows
    token: Option<nat>          // what the last finished call returned
  )

  datatype State = State(
    events: set<Event>,         // committed rate events
    rows: map<Key, Gate>,       // committed stats rows
    nextId: nat,
    clock: real,
    txs: map<nat, Tx>
  )

  datatype Step =
    | Tick(now: real)
    | Begin(tx: nat)
    | Call(tx: nat, key: Key)               // first statement of the function
    | Continue(tx: nat)                     // its next statement
    | WriteStats(tx: nat, key: Key, gate: Gate) // commit()/reset_health(): UPDATE provider_stats
    | Rollback(tx: nat, id: nat)            // rollback(): DELETE ... WHERE id = ...
    | Purge(tx: nat, cutoff: real)          // purge_old_events(): DELETE ... WHERE occurred_at < ...
    | Commit(tx: nat)
    | Abort(tx: nat)

  // ---------- what a transaction sees ----------

  function View(s: State, t: Tx): set<Event> {
    (s.events - t.deleted) + t.inserted
  }

  predicate HeldByOther(s: State, tx: nat, key: Key) {
    exists u | u in s.txs :: u != tx && key in s.txs[u].locks
  }

  predicate RowVisible(s: State, t: Tx, key: Key) {
    key in t.rows || key in s.rows
  }

  /** The version of a row a locking read returns: its own, else the last committed one. */
  function RowOf(s: State, t: Tx, key: Key): Gate {
    if key in t.rows then t.rows[key] else if key in s.rows then s.rows[key] else FRESH_GATE
  }

  predicate InsertPendingElsewhere(s: State, tx: nat, key: Key) {
    key !in s.rows && exists u | u in s.txs :: u != tx && key in s.txs[u].rows
  }

  // ---------- the statements of the function ----------

  /** True when the health gate lets the call go on. 0007 blocks only inside a quarantine
      window; 0014 also blocks "unhealthy with no quarantine". */
  predicate GateOpen(v: Variant, gate: Gate, now: real) {
    match v
    case CreateOrLock => gate.quarantinedUntil <= now
    case SelectThenInsert =>
      gate.quarantinedUntil <= now && !(!gate.healthy && gate.quarantinedUntil == 0.0)
    case Advisory => true
  }

  /** The caps the function enforces: the client function has no daily cap. */
  function Enforced(v: Variant, caps: Caps): Caps {
    if v.Advisory? then Caps(caps.rpm, None) else caps
  }

  function FirstStatement(v: Variant, s: State, tx: nat, key: Key): Option<Tx>
    requires tx in s.txs
  {
    var t := s.txs[tx];
    match v
    case CreateOrLock =>
      if HeldByOther(s, tx, key) then None
      else
        var g := RowOf(s, t, key);
        Some(t.(locks := t.locks + {key}, rows := t.rows[key := g], pc := Gated(key, g), token := None))
    case SelectThenInsert =>
      if !RowVisible(s, t, key) then Some(t.(pc := RowMissing(key), token := None))
      else if HeldByOther(s, tx, key) then None
      else Some(t.(locks := t.locks + {key}, pc := Gated(key, RowOf(s, t, key)), token := None))
    case Advisory =>
      if HeldByOther(s, tx, key) then None
      else Some(t.(locks := t.locks + {key}, pc := CountMinute(key), token := None))
  }

  function Denied(t: Tx): Tx {
    t.(pc := Idle, token := None)
  }

  /** INSERT ... ON CONFLICT DO NOTHING after the SELECT found no row: it waits for a
      concurrent insert of the same row; if one has committed it does nothing and takes no lock. */
  function InsertRow(s: State, tx: nat, key: Key): Option<Tx>
    requires tx in s.txs
  {
    var t := s.txs[tx];
    if InsertPendingElsewhere(s, tx, key) then None
    else if key in s.rows then Some(t.(pc := Gated(key, FRESH_GATE)))
    else Some(t.(locks := t.locks + {key}, rows := t.rows[key := FRESH_GATE], pc := Gated(key, FRESH_GATE)))
  }

  /** The gate. In 0007 a row that is unhealthy or has an expired quarantine is healed. */
  function PassGate(v: Variant, t: Tx, key: Key, gate: Gate): Tx {
    if !GateOpen(v, gate, t.start) then Denied(t)
    else if v.CreateOrLock? && (!gate.healthy || gate.quarantinedUntil > 0.0) then
      t.(rows := t.rows[key := FRESH_GATE], pc := CountMinute(key))
    else t.(pc := CountMinute(key))
  }

  /** One window check: NULL cap skips it, otherwise the statement's own snapshot is counted. */
  predicate UnderCap(s: State, t: Tx, key: Key, cap: Option<int>, width: real) {
    cap.Some? ==> |Since(View(s, t), key, t.start - width)| < cap.value
  }

  function NextStatement(v: Variant, caps: Key -> Caps, s: State, tx: nat): Option<(Tx, nat)>
    requires tx in s.txs
  {
    var t := s.txs[tx];
    match t.pc
    case Idle => None
    case RowMissing(key) =>
      (match InsertRow(s, tx, key)
       case None => None
       case Some(t') => Some((t', s.nextId)))
    case Gated(key, gate) => Some((PassGate(v, t, key, gate), s.nextId))
    case CountMinute(key) =>
      if UnderCap(s, t, key, Enforced(v, caps(key)).rpm, MINUTE) then Some((t.(pc := CountDay(key)), s.nextId))
      else Some((Denied(t), s.nextId))
    case CountDay(key) =>
      if UnderCap(s, t, key, Enforced(v, caps(key)).rpd, DAY) then Some((t.(pc := Insert(key)), s.nextId))
      else Some((Denied(t), s.nextId))
    case Insert(key) =>
      var row := Event(s.nextId, key, t.start);
      Some((t.(inserted := t.inserted + {row}, pc := Idle, token := Some(s.nextId)), s.nextId + 1))
  }

  // ---------- transitions ----------

  function Put(s: State, tx: nat, t: Tx): State {
    s.(txs := s.txs[tx := t])
  }

  function Delete(s: State, t: Tx, doomed: set<Event>): Tx {
    t.(deleted := t.deleted + (doomed * s.events), inserted := t.inserted - doomed)
  }

  /** The state after `step`, or `None` when the step cannot happen now (the transaction does
      not exist, is in the middle of a call, or would have to wait for a lock). */
  function Apply(v: Variant, caps: Key -> Caps, s: State, step: Step): Option<State> {
    match step
    case Tick(now) => if now >= s.clock then Some(s.(clock := now)) else None
    case Begin(tx) =>
      if tx in s.txs then None else Some(Put(s, tx, Tx(s.clock, Idle, {}, {}, {}, map[], None)))
    case Call(tx, key) =>
      if tx !in s.txs || !s.txs[tx].pc.Idle? then None
      else (match FirstStatement(v, s, tx, key) case None => None case Some(t) => Some(Put(s, tx, t)))
    case Continue(tx) =>
      if tx !in s.txs then None
      else (match NextStatement(v, caps, s, tx)
            case None => None
            case Some((t, id)) => Some(Put(s, tx, t).(nextId := id)))
    case WriteStats(tx, key, gate) =>
      if tx !in s.txs || !s.txs[tx].pc.Idle? then None
      else if !RowVisible(s, s.txs[tx], key) then Some(s)
      else if HeldByOther(s, tx, key) then None
      else
        var t := s.txs[tx];
        Some(Put(s, tx, t.(locks := t.locks + {key}, rows := t.rows[key := gate])))
    case Rollback(tx, id) =>
      if tx !in s.txs || !s.txs[tx].pc.Idle? then None
      else
        var t := s.txs[tx];
        Some(Put(s, tx, Delete(s, t, set e | e in View(s, t) && e.id == id)))
    case Purge(tx, cutoff) =>
      if tx !in s.txs || !s.txs[tx].pc.Idle? then None
      else
        var t := s.txs[tx];
        Some(Put(s, tx, Delete(s, t, set e | e in View(s, t) && e.at < cutoff)))
    case Commit(tx) =>
      if tx !in s.txs || !s.txs[tx].pc.Idle? then None
      else
        var t := s.txs[tx];
        Some(s.(events := View(s, t), rows := s.rows + t.rows, txs := s.txs - {tx}))
    case Abort(tx) =>
      if tx !in s.txs then None else Some(s.(txs := s.txs - {tx}))
  }

  /** A whole run: every step enabled in turn. */
  function Run(v: Variant, caps: Key -> Caps, s: State, steps: seq<Step>): Option<State>
    decreases steps
  {
    if steps == [] then Some(s)
    else
      match Apply(v, caps, s, steps[0])
      case None => None
      case Some(s') => Run(v, caps, s', steps[1..])
  }

  /** Nobody is in the middle of anything. */
  predicate Quiescent(s: State) {
    s.txs == map[]
  }
}
