/** In-progress file bookkeeping as a state machine: owner transactions that record, write, expand
    and keep files, with subtransactions; cleaners that delete what unfinished transactions left
    behind. Fields below the line in `State` are history that nobody reads.

    A record is committed by another session at once, so it outlives a subtransaction that rolls back,
    while the deletion of a record is undone and a lock first taken in it is released.

    Premises of the protocol: a recorded path was never recorded before, a file is written once and
    only under records of its own operation, a transaction does not come back to records it made in
    a subtransaction that was rolled back, a cleaner is not the owner transaction, and remote deletes
    succeed. */
module InProgressRuns {

  type Path = string
  type Op = nat
  type TxId = nat

  datatype Row = Row(op: Op, isPrefix: bool)

  datatype Entry = Entry(path: Path, row: Row)

  /** What a record covers: the file itself, or everything under a prefix. */
  predicate Covers(path: Path, row: Row, f: Path) {
    if row.isPrefix then path <= f else path == f
  }

  /** What a savepoint restores, and whether the operation lock was held when it was set. */
  datatype Saved = Saved(deleted: set<Path>, inserted: map<Path, Row>, own: set<Path>, locked: bool)

  /** `op` is 0 until the transaction needs an operation id; `own` are the records it made outside of
      subtransactions that were rolled back. */
  datatype Owner = Owner(op: Op, deleted: set<Path>, inserted: map<Path, Row>, own: set<Path>, saves: seq<Saved>)

  datatype CleanerPhase =
    | Idle
    | Scanning(rest: seq<Entry>)
    | Locked(e: Entry, rest: seq<Entry>)
    | Confirmed(e: Entry, rest: seq<Entry>)

  /** `removed` are the paths deleted remotely so far, `deleted` the rows deleted but not committed. */
  datatype Cleaner = Cleaner(phase: CleanerPhase, removed: set<Path>, deleted: set<Path>)

  datatype State = State(
    rows: map<Path, Row>,                // committed rows of in_progress_files
    locks: map<Op, TxId>,                // operation id locks
    remote: set<Path>,                   // files in remote storage
    nextOp: Op,
    owners: map<TxId, Owner>,
    cleaners: map<TxId, Cleaner>,
    // -----
    usedTx: set<TxId>,
    recorded: map<Path, Row>,            // every record ever made
    opOwner: map<Op, TxId>,
    written: map<Path, Op>,              // every file ever written
    kept: set<Path>)                     // files whose owner committed after deleting their record

  const INIT := State(map[], map[], {}, 1, map[], map[], {}, map[], map[], map[], {})

  datatype OwnerAct =
    | OBegin | OAssign | OLock
    | ORecord(path: Path, isPrefix: bool)
    | OWrite(f: Path)
    | ODelete(paths: set<Path>)
    | OReplace(prefix: Path, fullPaths: set<Path>)
    | OSave | ORelease | ORollback
    | OCommit | OAbort

  datatype CleanerAct =
    | CBegin | CRead(list: seq<Entry>) | CTryLock | CRecheck | CRemove | CForget | CCommit | CAbort

  datatype Action = ByOwner(t: TxId, ownerAct: OwnerAct) | ByCleaner(c: TxId, cleanerAct: CleanerAct) | CrashRestart

  predicate FreshTx(s: State, t: TxId) {
    t !in s.usedTx
  }

  // ----- owner transactions -----

  function Visible(s: State, o: Owner): map<Path, Row> {
    (s.rows - o.deleted) + o.inserted
  }

  predicate ReplaceFinds(s: State, o: Owner, prefix: Path) {
    prefix in Visible(s, o) && Visible(s, o)[prefix].isPrefix
  }

  predicate OwnerEnabled(s: State, t: TxId, a: OwnerAct) {
    if a.OBegin? then FreshTx(s, t)
    else t in s.owners && OpenOwnerEnabled(s, t, s.owners[t], a)
  }

  predicate OpenOwnerEnabled(s: State, t: TxId, o: Owner, a: OwnerAct)
    requires !a.OBegin?
  {
    match a
    case OAssign => o.op == 0
    case OLock => o.op != 0 && (o.op in s.locks ==> s.locks[o.op] == t)
    case ORecord(path, isPrefix) =>
      && o.op != 0 && o.op in s.locks && s.locks[o.op] == t
      && path !in s.recorded
      && (forall f :: f in s.written ==> !Covers(path, Row(o.op, isPrefix), f))
    case OWrite(f) =>
      && f !in s.written
      && (exists p :: p in s.rows && p in o.own && Covers(p, s.rows[p], f))
      && (forall p :: p in s.recorded && Covers(p, s.recorded[p], f) ==> s.recorded[p].op == o.op)
    case ODelete(paths) => forall p :: p in paths && p in s.rows ==> p in o.own
    case OReplace(prefix, fullPaths) =>
      ReplaceFinds(s, o, prefix) ==>
        && prefix in o.own
        && (forall p :: p in fullPaths ==> prefix <= p && p !in s.recorded)
    case OSave => true
    case ORelease => o.saves != []
    case ORollback => o.saves != []
    case OCommit => true
    case OAbort => true
  }

  predicate HoldsOwn(s: State, t: TxId, op: Op) {
    op != 0 && op in s.locks && s.locks[op] == t
  }

  function Top(o: Owner): Saved
    requires o.saves != []
  {
    o.saves[|o.saves| - 1]
  }

  function Below(o: Owner): seq<Saved>
    requires o.saves != []
  {
    o.saves[..|o.saves| - 1]
  }

  function RolledBack(o: Owner): Owner
    requires o.saves != []
  {
    Owner(o.op, Top(o).deleted, Top(o).inserted, Top(o).own, Below(o))
  }

  function FullRows(op: Op, fullPaths: set<Path>): map<Path, Row> {
    map p | p in fullPaths :: Row(op, false)
  }

  function OwnerAfter(s: State, t: TxId, a: OwnerAct): Owner
    requires OwnerEnabled(s, t, a)
  {
    match a
    case OBegin => Owner(0, {}, map[], {}, [])
    case OAssign => s.owners[t].(op := s.nextOp)
    case ORecord(path, _) => s.owners[t].(own := s.owners[t].own + {path})
    case ODelete(paths) =>
      s.owners[t].(deleted := s.owners[t].deleted + (set p | p in paths && p in s.rows),
                   inserted := s.owners[t].inserted - paths)
    case OReplace(prefix, fullPaths) =>
      if ReplaceFinds(s, s.owners[t], prefix)
      then s.owners[t].(deleted := s.owners[t].deleted + {prefix},
                        inserted := (s.owners[t].inserted - {prefix}) + FullRows(s.owners[t].op, fullPaths),
                        own := s.owners[t].own + fullPaths)
      else s.owners[t]
    case OSave =>
      var o := s.owners[t];
      o.(saves := o.saves + [Saved(o.deleted, o.inserted, o.own, HoldsOwn(s, t, o.op))])
    case ORelease => s.owners[t].(saves := Below(s.owners[t]))
    case ORollback => RolledBack(s.owners[t])
    case _ => s.owners[t]
  }

  /** Rows that the step records for the first time. */
  function NewRecords(s: State, t: TxId, a: OwnerAct): map<Path, Row>
    requires OwnerEnabled(s, t, a)
  {
    match a
    case ORecord(path, isPrefix) => map[path := Row(s.owners[t].op, isPrefix)]
    case OReplace(prefix, fullPaths) =>
      if ReplaceFinds(s, s.owners[t], prefix) then FullRows(s.owners[t].op, fullPaths) else map[]
    case _ => map[]
  }

  predicate Covered(rows: map<Path, Row>, f: Path) {
    exists p :: p in rows && Covers(p, rows[p], f)
  }

  /** A record the transaction has not rolled back covers the file. */
  predicate Backed(own: set<Path>, recorded: map<Path, Row>, f: Path) {
    exists p :: p in own && p in recorded && Covers(p, recorded[p], f)
  }

  function ReleaseLocks(locks: map<Op, TxId>, t: TxId): map<Op, TxId> {
    map op | op in locks && locks[op] != t :: locks[op]
  }

  function LocksAfter(s: State, t: TxId, a: OwnerAct): map<Op, TxId>
    requires OwnerEnabled(s, t, a)
  {
    match a
    case OLock => s.locks[s.owners[t].op := t]
    case ORollback => if Top(s.owners[t]).locked then s.locks else ReleaseLocks(s.locks, t)
    case _ => s.locks
  }

  function OpenOwnerStep(s: State, t: TxId, a: OwnerAct): State
    requires OwnerEnabled(s, t, a) && !a.OCommit? && !a.OAbort?
  {
    s.(owners := s.owners[t := OwnerAfter(s, t, a)],
       rows := if a.ORecord? then s.rows + NewRecords(s, t, a) else s.rows,
       locks := LocksAfter(s, t, a),
       remote := if a.OWrite? then s.remote + {a.f} else s.remote,
       nextOp := if a.OAssign? then s.nextOp + 1 else s.nextOp,
       usedTx := s.usedTx + {t},
       recorded := s.recorded + NewRecords(s, t, a),
       opOwner := if a.OAssign? then s.opOwner[s.nextOp := t] else s.opOwner,
       written := if a.OWrite? then s.written[a.f := s.owners[t].op] else s.written)
  }

  function DoOwnerCommit(s: State, t: TxId): State
    requires t in s.owners
  {
    var rows' := Visible(s, s.owners[t]);
    s.(rows := rows',
       locks := ReleaseLocks(s.locks, t),
       owners := s.owners - {t},
       kept := s.kept + (set f | f in s.written && Backed(s.owners[t].own, s.recorded, f) && !Covered(rows', f)))
  }

  function DoOwnerAbort(s: State, t: TxId): State {
    s.(locks := ReleaseLocks(s.locks, t), owners := s.owners - {t})
  }

  function OwnerStep(s: State, t: TxId, a: OwnerAct): State
    requires OwnerEnabled(s, t, a)
  {
    match a
    case OCommit => DoOwnerCommit(s, t)
    case OAbort => DoOwnerAbort(s, t)
    case _ => OpenOwnerStep(s, t, a)
  }

  // ----- cleaners -----

  predicate CleanerEnabled(s: State, c: TxId, a: CleanerAct) {
    if a.CBegin? then FreshTx(s, c)
    else c in s.cleaners && OpenCleanerEnabled(s, s.cleaners[c], a)
  }

  predicate OpenCleanerEnabled(s: State, x: Cleaner, a: CleanerAct)
    requires !a.CBegin?
  {
    match a
    case CRead(list) =>
      x.phase.Idle? && forall i :: 0 <= i < |list| ==> list[i].path in s.rows && s.rows[list[i].path] == list[i].row
    case CTryLock => x.phase.Scanning? && x.phase.rest != []
    case CRecheck => x.phase.Locked?
    case CRemove => x.phase.Confirmed?
    case CForget => x.phase.Scanning? && x.phase.rest == []
    case CCommit => true
    case CAbort => true
  }

  predicate LockFree(s: State, c: TxId, op: Op) {
    op in s.locks ==> s.locks[op] == c
  }

  function CleanerPhaseAfter(s: State, c: TxId, a: CleanerAct): CleanerPhase
    requires CleanerEnabled(s, c, a)
  {
    if a.CBegin? then Idle
    else
      var ph := s.cleaners[c].phase;
      match a
      case CRead(list) => Scanning(list)
      case CTryLock =>
        if LockFree(s, c, ph.rest[0].row.op) then Locked(ph.rest[0], ph.rest[1..]) else Scanning(ph.rest[1..])
      case CRecheck =>
        if ph.e.path in s.rows && ph.e.path !in s.cleaners[c].deleted then Confirmed(ph.e, ph.rest)
        else Scanning(ph.rest)
      case CRemove => Scanning(ph.rest)
      case CForget => Idle
      case _ => ph
  }

  function CleanerAfter(s: State, c: TxId, a: CleanerAct): Cleaner
    requires CleanerEnabled(s, c, a)
  {
    if a.CBegin? then Cleaner(Idle, {}, {})
    else
      var x := s.cleaners[c];
      x.(phase := CleanerPhaseAfter(s, c, a),
         removed := if a.CRemove? then x.removed + {x.phase.e.path} else x.removed,
         deleted := if a.CForget? then x.deleted + (set p | p in x.removed && p in s.rows) else x.deleted)
  }

  predicate TakesLock(s: State, c: TxId, a: CleanerAct) {
    a.CTryLock? && c in s.cleaners && s.cleaners[c].phase.Scanning? && s.cleaners[c].phase.rest != [] &&
    LockFree(s, c, s.cleaners[c].phase.rest[0].row.op)
  }

  function RemoteAfter(s: State, e: Entry): set<Path> {
    set f | f in s.remote && !Covers(e.path, e.row, f)
  }

  function OpenCleanerStep(s: State, c: TxId, a: CleanerAct): State
    requires CleanerEnabled(s, c, a) && !a.CCommit? && !a.CAbort?
  {
    s.(cleaners := s.cleaners[c := CleanerAfter(s, c, a)],
       usedTx := s.usedTx + {c},
       locks := if TakesLock(s, c, a) then s.locks[s.cleaners[c].phase.rest[0].row.op := c] else s.locks,
       remote := if a.CRemove? then RemoteAfter(s, s.cleaners[c].phase.e) else s.remote)
  }

  function DoCleanerEnd(s: State, c: TxId, commit: bool): State
    requires c in s.cleaners
  {
    s.(rows := if commit then s.rows - s.cleaners[c].deleted else s.rows,
       locks := ReleaseLocks(s.locks, c),
       cleaners := s.cleaners - {c})
  }

  function CleanerStep(s: State, c: TxId, a: CleanerAct): State
    requires CleanerEnabled(s, c, a)
  {
    match a
    case CCommit => DoCleanerEnd(s, c, true)
    case CAbort => DoCleanerEnd(s, c, false)
    case _ => OpenCleanerStep(s, c, a)
  }

  // ----- runs -----

  /** Every open transaction aborts; no lock survives. */
  function DoCrash(s: State): State {
    s.(locks := map[], owners := map[], cleaners := map[])
  }

  predicate Enabled(s: State, a: Action) {
    match a
    case ByOwner(t, act) => OwnerEnabled(s, t, act)
    case ByCleaner(c, act) => CleanerEnabled(s, c, act)
    case CrashRestart => true
  }

  function Apply(s: State, a: Action): State
    requires Enabled(s, a)
  {
    match a
    case ByOwner(t, act) => OwnerStep(s, t, act)
    case ByCleaner(c, act) => CleanerStep(s, c, act)
    case CrashRestart => DoCrash(s)
  }

  datatype Outcome = Stuck | At(state: State)

  function Run(s: State, acts: seq<Action>): Outcome
    decreases |acts|
  {
    if acts == [] then At(s)
    else if Enabled(s, acts[0]) then Run(Apply(s, acts[0]), acts[1..])
    else Stuck
  }

  ghost predicate Reaches(s: State, s': State) {
    exists acts: seq<Action> :: Run(s, acts) == At(s')
  }

  ghost predicate Reachable(s: State) {
    Reaches(INIT, s)
  }
}
