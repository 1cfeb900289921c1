/** Every process of the base worker launcher as a state machine: the server starter, the database
    starters, the base workers and the DDL transactions, interleaved one lock-protected block at a
    time. Fields below the line in `State` are history that no process reads. */
module LauncherRuns {
  import opened LauncherShm

  type Pid = nat
  type TxId = nat

  // ----- processes -----

  /** The server starter between iterations, or working through a list of databases. */
  datatype ServerPhase = Idle | Listing(dbs: set<Oid>, cleaned: bool)

  datatype StarterPhase =
    | SSpawned                                     // registered with the postmaster
    | SAnnounced                                   // has written its pid
    | SConnected                                   // connected, waiting for the advisory lock
    | SLocked                                      // holds RowExclusiveLock
    | SReady                                       // released it; about to read its first list
    | SNoExtension                                 // found no pg_extension_base
    | SListed(list: map<Key, Oid>)                 // has read the registrations
    | SStarting(rest: map<Key, Oid>, blocked: bool)// still has `rest` to start
    | SSleeping                                    // some worker was not started
    | SExiting(code: nat, announced: bool)         // the exit handler has not run yet

  datatype StarterProc = StarterProc(db: Oid, phase: StarterPhase)

  datatype WorkerPhase =
    | WSpawned
    | WRunning                                     // has written its pid
    | WWorking                                     // has seen its registration
    | WDropped                                     // saw none and removed its own entry; exits with 0
    | WExiting(code: nat, announced: bool)

  datatype WorkerProc = WorkerProc(key: Key, phase: WorkerPhase)

  // ----- transactions -----

  datatype LockMode = NoLock | ShareLock | ExclusiveLock

  datatype Tx = Tx(
    db: Oid,
    lock: LockMode,                                // on the database starter of `db`
    inserted: map<Key, Oid>,
    deleted: set<Key>,
    createsBase: bool,
    dropsBase: bool,
    dropsDatabase: bool,
    pending: bool,                                 // inside register/deregister, request not yet made
    requested: bool)                               // has asked for a database starter

  datatype State = State(
    starters: StarterHash,
    workers: WorkerHash,
    clock: nat,                                    // microseconds
    databases: map<Oid, bool>,                     // existing databases; true means template
    extension: set<Oid>,                           // databases where pg_extension_base is installed
    registered: map<Key, Oid>,                     // committed registrations and their extension
    server: ServerPhase,
    sprocs: map<Pid, StarterProc>,
    wprocs: map<Pid, WorkerProc>,
    txs: map<TxId, Tx>,
    // -----
    usedDbs: set<Oid>,
    usedKeys: set<Key>,
    gone: set<Key>,                                // registrations that were committed and deleted
    seen: set<Key>,                                // registrations some starter has read
    lastFail: map<Key, nat>)                       // time of the last unrequested error exit

  const INIT := State(map[], map[], 0, map[], {}, map[], Idle, map[], map[], map[], {}, {}, {}, {}, map[])

  // ----- actions -----

  datatype ServerAct = List | Clean | Start(db: Oid, pid: Pid, slot: bool) | Rest

  datatype StarterAct =
    | Announce | Connect | Lock | Unlock | Forget | Read | CleanUp
    | StartOne(key: Key, pid: Pid, slot: bool)
    | Finish | Terminate | Fail | Exit

  datatype WorkerAct = Appear | Check | Return(delayMs: int) | Crashed | Leave

  datatype TxAct =
    | Begin(db: Oid) | CreateBase
    | Register(key: Key, ext: Oid) | Deregister(key: Key) | Mark(key: Key)
    | TakeShare | TakeExclusive | Request
    | Drop(target: DropTarget, database: bool)
    | Commit | Abort

  datatype WorldAct = CreateDatabase(db: Oid, template: Oid, isTemplate: bool) | Tick(dt: nat) | CrashRestart

  datatype Action =
    | ByServer(serverAct: ServerAct)
    | ByStarter(p: Pid, starterAct: StarterAct)
    | ByWorker(q: Pid, workerAct: WorkerAct)
    | ByTx(t: TxId, txAct: TxAct)
    | ByWorld(worldAct: WorldAct)

  predicate IsConnected(ph: StarterPhase) {
    ph.SConnected? || ph.SLocked? || ph.SReady? || ph.SNoExtension? || ph.SListed? || ph.SStarting? || ph.SSleeping?
  }

  function ListOf(ph: StarterPhase): map<Key, Oid> {
    match ph
    case SListed(list) => list
    case SStarting(rest, _) => rest
    case _ => map[]
  }

  predicate FreshPid(s: State, pid: Pid) {
    pid > 0 && pid !in s.sprocs && pid !in s.wprocs
  }

  predicate IsTemplate(s: State, db: Oid) {
    db in s.databases && s.databases[db]
  }

  /** RowExclusiveLock waits for every ShareLock and ExclusiveLock on the same database. */
  predicate StarterLockFree(s: State, db: Oid) {
    forall t :: t in s.txs && s.txs[t].db == db ==> s.txs[t].lock.NoLock?
  }

  predicate NoStarterHolds(s: State, db: Oid) {
    forall p :: p in s.sprocs && s.sprocs[p].db == db ==> !s.sprocs[p].phase.SLocked?
  }

  predicate TxLockFree(s: State, t: TxId, mode: LockMode)
    requires t in s.txs
  {
    && NoStarterHolds(s, s.txs[t].db)
    && forall u :: u in s.txs && u != t && s.txs[u].db == s.txs[t].db ==>
         s.txs[u].lock.NoLock? || (mode.ShareLock? && s.txs[u].lock.ShareLock?)
  }

  /** What must hold for a transaction to commit: dropping the extension or the database waits
      for everyone who still uses it. */
  predicate MayCommit(s: State, t: TxId)
    requires t in s.txs
  {
    var x := s.txs[t];
    && !x.pending
    && (x.dropsBase ==>
          forall u :: u in s.txs && u != t && s.txs[u].db == x.db ==>
            s.txs[u].inserted == map[] && !s.txs[u].createsBase)
    && (x.dropsDatabase ==>
          && (forall u :: u in s.txs && u != t ==> s.txs[u].db != x.db)
          && (forall p :: p in s.sprocs && s.sprocs[p].db == x.db ==> !IsConnected(s.sprocs[p].phase)))
  }

  predicate ServerEnabled(s: State, a: ServerAct) {
    match a
    case List => s.server.Idle?
    case Clean => s.server.Listing? && !s.server.cleaned
    case Start(db, pid, slot) =>
      s.server.Listing? && s.server.cleaned && db in s.server.dbs && !IsTemplate(s, db) && FreshPid(s, pid)
    case Rest => true
  }

  predicate StarterEnabled(s: State, p: Pid, a: StarterAct) {
    p in s.sprocs &&
    var ph := s.sprocs[p].phase;
    match a
    case Announce => ph.SSpawned?
    case Connect => ph.SAnnounced? && s.sprocs[p].db in s.databases
    case Lock => ph.SConnected? && StarterLockFree(s, s.sprocs[p].db)
    case Unlock => ph.SLocked?
    case Forget => ph.SNoExtension?
    case Read => ph.SReady? || ph.SSleeping?
    case CleanUp => ph.SListed?
    case StartOne(key, pid, slot) => ph.SStarting? && key in ph.rest && FreshPid(s, pid)
    case Finish => ph.SStarting? && ph.rest == map[]
    case Terminate => ph.SReady? || ph.SStarting? || ph.SSleeping?
    case Fail => !ph.SExiting?
    case Exit => ph.SExiting?
  }

  predicate WorkerEnabled(s: State, q: Pid, a: WorkerAct) {
    q in s.wprocs &&
    var ph := s.wprocs[q].phase;
    match a
    case Appear => ph.WSpawned?
    case Check => ph.WRunning? && s.wprocs[q].key.db in s.databases
    case Return(delayMs) => ph.WWorking?
    case Crashed => ph.WSpawned? || ph.WRunning? || ph.WWorking?
    case Leave => ph.WExiting? || ph.WDropped?
  }

  predicate OpenTxEnabled(s: State, t: TxId, a: TxAct)
    requires t in s.txs && !a.Begin?
  {
    var x := s.txs[t];
    match a
    case CreateBase => x.db !in s.extension && !x.dropsBase && !x.dropsDatabase
    case Register(key, ext) =>
      && key.db == x.db && key !in s.usedKeys && Packable(key)
      && (key.db in s.extension || x.createsBase)
      && !x.dropsBase && !x.dropsDatabase && !x.pending
    case Deregister(key) => key.db == x.db && !x.pending
    case Mark(key) => key in x.deleted
    case TakeShare => x.lock.NoLock? && TxLockFree(s, t, ShareLock)
    case TakeExclusive => TxLockFree(s, t, ExclusiveLock)
    case Request => x.pending && (!x.lock.NoLock? || IsTemplate(s, x.db))
    case Drop(target, database) =>
      && x.lock.ExclusiveLock? && !x.pending
      && (target.AllExtensions? && !database ==> x.db in s.extension && !x.createsBase)
      && (database ==> target.AllExtensions?)
    case Commit => MayCommit(s, t)
    case Abort => true
  }

  predicate TxEnabled(s: State, t: TxId, a: TxAct) {
    match a
    case Begin(db) => t !in s.txs && db in s.databases
    case _ => t in s.txs && OpenTxEnabled(s, t, a)
  }

  predicate WorldEnabled(s: State, a: WorldAct) {
    match a
    case CreateDatabase(db, template, isTemplate) =>
      db !in s.usedDbs && db < 0x1_0000_0000 && (template in s.databases || s.databases == map[])
    case Tick(dt) => true
    case CrashRestart => true
  }

  predicate Enabled(s: State, a: Action) {
    match a
    case ByServer(act) => ServerEnabled(s, act)
    case ByStarter(p, act) => StarterEnabled(s, p, act)
    case ByWorker(q, act) => WorkerEnabled(s, q, act)
    case ByTx(t, act) => TxEnabled(s, t, act)
    case ByWorld(act) => WorldEnabled(s, act)
  }

  // ----- effects -----

  function KeysOf(regs: map<Key, Oid>, db: Oid): map<Key, Oid> {
    map k | k in regs && k.db == db :: regs[k]
  }

  function IsAnnounced(ph: StarterPhase): bool {
    !ph.SSpawned? && (ph.SExiting? ==> ph.announced)
  }

  function IsWorkerAnnounced(ph: WorkerPhase): bool {
    !ph.WSpawned? && (ph.WExiting? ==> ph.announced)
  }

  /** Keys that fit the process argument: what registrations hand out. */
  predicate Packable(k: Key) {
    k.db < 0x1_0000_0000 && 0 < k.id <= MAX_WORKER_ID
  }

  /** The process that StartBaseWorker spawns reads its identity from the packed argument. */
  function ArgKey(k: Key): Key
    ensures Packable(k) ==> ArgKey(k) == k
  {
    PackedKeySurvivesIfPackable(k);
    if k.db < 0x1_0000_0000 && -0x8000_0000 <= k.id < 0x8000_0000 then UnpackKey(PackKey(k)) else k
  }

  lemma PackedKeySurvivesIfPackable(k: Key)
    ensures Packable(k) ==> UnpackKey(PackKey(k)) == k
  {
    if Packable(k) {
      PackedKeySurvives(k);
    }
  }

  // A transaction's step, component by component.

  /** The registrations a drop deletes. */
  function DropHits(s: State, db: Oid, target: DropTarget): set<Key> {
    set k | k in s.registered && k.db == db && (target.AllExtensions? || s.registered[k] == target.ext)
  }

  function TxAfter(s: State, t: TxId, a: TxAct): Tx
    requires TxEnabled(s, t, a) && !a.Commit? && !a.Abort?
  {
    if a.Begin? then Tx(a.db, NoLock, map[], {}, false, false, false, false, false)
    else
      var x := s.txs[t];
      match a
      case CreateBase => x.(createsBase := true)
      case Register(key, ext) => x.(inserted := x.inserted[key := ext], pending := true)
      case Deregister(key) => x.(inserted := x.inserted - {key}, deleted := x.deleted + {key}, pending := true)
      case Mark(key) => x
      case TakeShare => x.(lock := ShareLock)
      case TakeExclusive => x.(lock := ExclusiveLock)
      case Request => x.(pending := false, requested := true)
      case Drop(target, database) =>
        x.(deleted := x.deleted + DropHits(s, x.db, target),
           inserted := map k | k in x.inserted && target.OneExtension? && x.inserted[k] != target.ext :: x.inserted[k],
           dropsBase := x.dropsBase || target.AllExtensions?,
           dropsDatabase := x.dropsDatabase || database)
  }

  predicate AsksStarter(s: State, t: TxId, a: TxAct) {
    t in s.txs && (a.Drop? || (a.Request? && !IsTemplate(s, s.txs[t].db)))
  }

  function MarksAfter(s: State, t: TxId, a: TxAct): WorkerHash
    requires TxEnabled(s, t, a)
  {
    match a
    case Mark(key) => MarkWorker(s.workers, key)
    case Drop(target, database) => DropWorkers(s.workers, s.txs[t].db, target)
    case _ => s.workers
  }

  /** The keys whose registration a commit removes. */
  function Removed(s: State, t: TxId): set<Key>
    requires t in s.txs
  {
    var x := s.txs[t];
    set k | k in s.registered && (k in x.deleted || (k.db == x.db && (x.dropsBase || x.dropsDatabase)))
  }

  function DoCommit(s: State, t: TxId): State
    requires t in s.txs
  {
    var x := s.txs[t];
    var drops := x.dropsBase || x.dropsDatabase;
    s.(registered := (s.registered - Removed(s, t)) + (if drops then map[] else x.inserted),
       gone := s.gone + Removed(s, t),
       extension := if drops then s.extension - {x.db}
                    else if x.createsBase then s.extension + {x.db} else s.extension,
       databases := if x.dropsDatabase then s.databases - {x.db} else s.databases,
       txs := s.txs - {t})
  }

  function OpenTxStep(s: State, t: TxId, a: TxAct): State
    requires TxEnabled(s, t, a) && !a.Commit? && !a.Abort?
  {
    s.(starters := if AsksStarter(s, t, a) then RequestStarter(s.starters, s.txs[t].db) else s.starters,
       workers := MarksAfter(s, t, a),
       txs := s.txs[t := TxAfter(s, t, a)],
       usedKeys := if a.Register? then s.usedKeys + {a.key} else s.usedKeys)
  }

  function TxStep(s: State, t: TxId, a: TxAct): State
    requires TxEnabled(s, t, a)
  {
    match a
    case Commit => DoCommit(s, t)
    case Abort => s.(txs := s.txs - {t})
    case _ => OpenTxStep(s, t, a)
  }

  /** CREATE DATABASE .. TEMPLATE copies the registrations of the template. */
  function DoCreateDatabase(s: State, db: Oid, template: Oid, isTemplate: bool): State {
    var ids := set k | k in s.registered && k.db == template :: k.id;
    var moved := map k | k in (set i | i in ids :: Key(db, i)) :: s.registered[Key(template, k.id)];
    s.(databases := s.databases[db := isTemplate],
       usedDbs := s.usedDbs + {db},
       registered := s.registered + moved,
       usedKeys := s.usedKeys + moved.Keys,
       extension := if template in s.extension then s.extension + {db} else s.extension)
  }

  /** A postmaster crash restart: shared memory is reinitialised, open transactions abort. */
  function DoCrash(s: State): State {
    s.(starters := map[], workers := map[], server := Idle, sprocs := map[], wprocs := map[], txs := map[],
       lastFail := map[])
  }

  predicate SpawnsStarter(s: State, a: ServerAct) {
    a.Start? && StartStarterResult(s.starters, a.db, a.db in s.databases, a.slot).Started?
  }

  function ServerStep(s: State, a: ServerAct): State
    requires ServerEnabled(s, a)
  {
    s.(starters := match a
                   case Clean => KeepListedStarters(s.starters, s.server.dbs)
                   case Start(db, pid, slot) => StartStarter(s.starters, db, db in s.databases, slot)
                   case _ => s.starters,
       workers := if a.Clean? then KeepListedDatabases(s.workers, s.server.dbs) else s.workers,
       sprocs := if SpawnsStarter(s, a) then s.sprocs[a.pid := StarterProc(a.db, SSpawned)] else s.sprocs,
       server := match a
                 case List => Listing(s.databases.Keys, false)
                 case Clean => s.server.(cleaned := true)
                 case Start(_, _, _) => s.server
                 case Rest => Idle)
  }

  // A database starter's step, component by component.

  function StarterHashAfter(s: State, p: Pid, a: StarterAct): StarterHash
    requires StarterEnabled(s, p, a)
  {
    var db := s.sprocs[p].db;
    match a
    case Announce => AnnounceStarter(s.starters, db, p)
    case Terminate => RequestStarter(s.starters, db)
    case Exit => ExitStarter(s.starters, db, s.sprocs[p].phase.code)
    case _ => s.starters
  }

  function WorkerHashAfter(s: State, p: Pid, a: StarterAct): WorkerHash
    requires StarterEnabled(s, p, a)
  {
    var db := s.sprocs[p].db;
    match a
    case Forget => RemoveDatabaseWorkers(s.workers, db)
    case CleanUp => KeepRegistered(s.workers, db, s.sprocs[p].phase.list.Keys)
    case StartOne(key, pid, slot) => StartWorker(s.workers, key, s.sprocs[p].phase.rest[key], s.clock, slot)
    case _ => s.workers
  }

  function PhaseAfter(s: State, p: Pid, a: StarterAct): StarterPhase
    requires StarterEnabled(s, p, a)
  {
    var db := s.sprocs[p].db;
    var ph := s.sprocs[p].phase;
    match a
    case Announce => if AnnounceStarterResult(s.starters, db).Announced? then SAnnounced else SExiting(0, false)
    case Connect => SConnected
    case Lock => SLocked
    case Unlock => if db in s.extension then SReady else SNoExtension
    case Forget => SExiting(0, true)
    case Read => if db in s.extension then SListed(KeysOf(s.registered, db)) else SExiting(1, true)
    case CleanUp => SStarting(ph.list, false)
    case StartOne(key, pid, slot) =>
      var r := StartWorkerResult(s.workers, key, s.clock, slot);
      if r.Failed? then SSleeping else SStarting(ph.rest - {key}, ph.blocked || r.Blocked?)
    case Finish => if ph.blocked then SSleeping else SExiting(0, true)
    case Terminate => SExiting(0, true)
    case Fail => SExiting(1, IsAnnounced(ph))
    case Exit => ph
  }

  function WorkersSpawned(s: State, p: Pid, a: StarterAct): map<Pid, WorkerProc> {
    if a.StartOne? && StartWorkerResult(s.workers, a.key, s.clock, a.slot).Started?
    then s.wprocs[a.pid := WorkerProc(ArgKey(a.key), WSpawned)]
    else s.wprocs
  }

  function StarterStep(s: State, p: Pid, a: StarterAct): State
    requires StarterEnabled(s, p, a)
  {
    var db := s.sprocs[p].db;
    s.(starters := StarterHashAfter(s, p, a),
       workers := WorkerHashAfter(s, p, a),
       sprocs := if a.Exit? then s.sprocs - {p} else s.sprocs[p := StarterProc(db, PhaseAfter(s, p, a))],
       wprocs := WorkersSpawned(s, p, a),
       seen := if a.Read? && db in s.extension then s.seen + KeysOf(s.registered, db).Keys else s.seen)
  }

  // A base worker's step, component by component.

  function ExitCode(ph: WorkerPhase): nat {
    if ph.WExiting? then ph.code else 0
  }

  predicate Fails(s: State, q: Pid, a: WorkerAct)
    requires q in s.wprocs
  {
    a.Leave? && UnrequestedFailure(s.workers, s.wprocs[q].key, ExitCode(s.wprocs[q].phase))
  }

  predicate AsksRestart(s: State, q: Pid, a: WorkerAct)
    requires q in s.wprocs
  {
    a.Return? && s.wprocs[q].key in s.workers && (a.delayMs == -1 || a.delayMs > 0)
  }

  function OwnEntryAfter(s: State, q: Pid, a: WorkerAct): WorkerHash
    requires WorkerEnabled(s, q, a)
  {
    var k := s.wprocs[q].key;
    match a
    case Appear => AnnounceWorker(s.workers, k, q)
    case Check => if k in s.registered then s.workers else RemoveWorker(s.workers, k)
    case Return(delayMs) => RequestWorkerRestart(s.workers, k, s.clock, delayMs)
    case Crashed => s.workers
    case Leave => ExitWorker(s.workers, k, ExitCode(s.wprocs[q].phase), s.clock)
  }

  function WorkerPhaseAfter(s: State, q: Pid, a: WorkerAct): WorkerPhase
    requires WorkerEnabled(s, q, a)
  {
    var k := s.wprocs[q].key;
    match a
    case Appear => if AnnounceWorkerResult(s.workers, k).Announced? then WRunning else WExiting(0, false)
    case Check => if k in s.registered then WWorking else WDropped
    case Return(delayMs) => WExiting(0, true)
    case Crashed => WExiting(1, IsWorkerAnnounced(s.wprocs[q].phase))
    case Leave => s.wprocs[q].phase
  }

  function WorkerStep(s: State, q: Pid, a: WorkerAct): State
    requires WorkerEnabled(s, q, a)
  {
    var k := s.wprocs[q].key;
    s.(workers := OwnEntryAfter(s, q, a),
       starters := if Fails(s, q, a) || AsksRestart(s, q, a) then RequestStarter(s.starters, k.db) else s.starters,
       wprocs := if a.Leave? then s.wprocs - {q} else s.wprocs[q := WorkerProc(k, WorkerPhaseAfter(s, q, a))],
       lastFail := if Fails(s, q, a) then s.lastFail[k := s.clock] else s.lastFail)
  }

  function WorldStep(s: State, a: WorldAct): State
    requires WorldEnabled(s, a)
  {
    match a
    case CreateDatabase(db, template, isTemplate) => DoCreateDatabase(s, db, template, isTemplate)
    case Tick(dt) => s.(clock := s.clock + dt)
    case CrashRestart => DoCrash(s)
  }

  function Apply(s: State, a: Action): State
    requires Enabled(s, a)
  {
    match a
    case ByServer(act) => ServerStep(s, act)
    case ByStarter(p, act) => StarterStep(s, p, act)
    case ByWorker(q, act) => WorkerStep(s, q, act)
    case ByTx(t, act) => TxStep(s, t, act)
    case ByWorld(act) => WorldStep(s, act)
  }

  // ----- runs -----

  /** The state a sequence of actions leads to, if every one of them is enabled in turn. */
  datatype Outcome = Stuck | At(state: State)

  function Run(s: State, acts: seq<Action>): Outcome
    decreases |acts|
  {
    if acts == [] then At(s)
    else if Enabled(s, acts[0]) then Run(Apply(s, acts[0]), acts[1..])
    else Stuck
  }

  ghost predicate Reachable(s: State) {
    exists acts: seq<Action> :: Run(INIT, acts) == At(s)
  }
}
