/** The shared memory of the base worker launcher: the database starter hash, the base worker
    hash and every block of code that changes them while holding the control lock.

    Each block is a function from the old hashes to the new ones; the class at the end carries
    the same blocks as the in-place updates (with their hash scans) that the launcher performs. */
module LauncherShm {

  type Oid = nat

  /** Milliseconds a base worker stays down after an error. */
  const NAP_TIME_AFTER_FAILURE: nat := 5000

  /** The largest worker id that survives being packed into the process argument. */
  const MAX_WORKER_ID: nat := 0xFFFF

  datatype WorkerState = NotStarted | Starting | Running | Stopped | Restarting

  datatype StarterEntry = StarterEntry(pid: nat, state: WorkerState, needsRestart: bool)

  datatype Key = Key(db: Oid, id: int)

  /** `restartAfter` is in microseconds; 0 means no delay. */
  datatype WorkerEntry = WorkerEntry(ext: Oid, pid: nat, state: WorkerState, needsRestart: bool, restartAfter: nat)

  type StarterHash = map<Oid, StarterEntry>
  type WorkerHash = map<Key, WorkerEntry>

  datatype StartResult = Started | Exists | Done | Failed | Blocked

  datatype AnnounceResult = Announced | NotFound | AnotherRunning | RestartRequested

  // ----- the process argument -----

  /** The 64-bit argument of a base worker: the database in the high half, the sign-extended
      worker id or-ed into it. */
  function PackKey(k: Key): nat
    requires k.db < 0x1_0000_0000 && -0x8000_0000 <= k.id < 0x8000_0000
  {
    if k.id >= 0 then k.db * 0x1_0000_0000 + k.id else 0x1_0000_0000_0000_0000 + k.id
  }

  function UnpackKey(arg: nat): Key {
    Key(arg / 0x1_0000_0000, arg % 0x1_0000)
  }

  /** A base worker knows its own identity exactly when its id fits in 16 bits. */
  lemma PackedKeySurvives(k: Key)
    requires k.db < 0x1_0000_0000 && -0x8000_0000 <= k.id < 0x8000_0000
    ensures UnpackKey(PackKey(k)) == k <==> 0 <= k.id <= MAX_WORKER_ID
  {
    if k.id >= 0 {
      assert PackKey(k) == k.db * 0x1_0000_0000 + k.id;
      assert PackKey(k) / 0x1_0000_0000 == k.db;
      assert PackKey(k) % 0x1_0000 == k.id % 0x1_0000 by {
        assert PackKey(k) == (k.db * 0x1_0000) * 0x1_0000 + k.id;
      }
    }
  }

  // ----- database starter blocks -----

  predicate StarterBusy(h: StarterHash, db: Oid) {
    db in h && (h[db].pid > 0 || h[db].state.Starting?)
  }

  function StarterOrNew(h: StarterHash, db: Oid): StarterEntry {
    if db in h then h[db] else StarterEntry(0, NotStarted, true)
  }

  function StartStarterResult(h: StarterHash, db: Oid, dbExists: bool, slot: bool): StartResult {
    if StarterBusy(h, db) then Exists
    else if db in h && (!h[db].needsRestart || !dbExists) then Done
    else if slot then Started
    else Failed
  }

  /** StartDatabaseStarter: `slot` says whether a background worker slot is free. */
  function StartStarter(h: StarterHash, db: Oid, dbExists: bool, slot: bool): StarterHash {
    match StartStarterResult(h, db, dbExists, slot)
    case Started => h[db := StarterOrNew(h, db).(needsRestart := false, state := Starting)]
    case Failed => h[db := StarterOrNew(h, db)]
    case _ => h
  }

  function AnnounceStarterResult(h: StarterHash, db: Oid): AnnounceResult {
    if db !in h then NotFound
    else if h[db].pid != 0 then AnotherRunning
    else if h[db].needsRestart then RestartRequested
    else Announced
  }

  function AnnounceStarter(h: StarterHash, db: Oid, pid: nat): StarterHash {
    if AnnounceStarterResult(h, db).Announced? then h[db := h[db].(pid := pid, state := Running)] else h
  }

  /** The exit handler of a database starter. */
  function ExitStarter(h: StarterHash, db: Oid, code: nat): StarterHash {
    if db !in h then h
    else h[db := StarterEntry(0, Stopped, h[db].needsRestart || code != 0)]
  }

  /** DatabaseStarterNeedsRestart. */
  function RequestStarter(h: StarterHash, db: Oid): StarterHash {
    if db in h then h[db := h[db].(needsRestart := true)] else h
  }

  function KeepListedStarters(h: StarterHash, dbs: set<Oid>): StarterHash {
    map d | d in h && d in dbs :: h[d]
  }

  // ----- base worker blocks -----

  predicate WorkerBusy(w: WorkerHash, k: Key) {
    k in w && (w[k].pid > 0 || w[k].state.Starting?)
  }

  function WorkerOrNew(w: WorkerHash, k: Key): WorkerEntry {
    if k in w then w[k] else WorkerEntry(0, 0, NotStarted, true, 0)
  }

  /** A delayed restart is blocked up to and including its due time. */
  function StartWorkerResult(w: WorkerHash, k: Key, now: nat, slot: bool): StartResult {
    if WorkerBusy(w, k) then Exists
    else if k in w && !w[k].needsRestart then Done
    else if k in w && w[k].restartAfter != 0 && now <= w[k].restartAfter then Blocked
    else if slot then Started
    else Failed
  }

  /** StartBaseWorker. */
  function StartWorker(w: WorkerHash, k: Key, ext: Oid, now: nat, slot: bool): WorkerHash {
    match StartWorkerResult(w, k, now, slot)
    case Started => w[k := WorkerOrNew(w, k).(ext := ext, needsRestart := false, state := Starting, restartAfter := 0)]
    case Failed => w[k := WorkerOrNew(w, k).(ext := ext)]
    case _ => w
  }

  function AnnounceWorkerResult(w: WorkerHash, k: Key): AnnounceResult {
    if k !in w then NotFound
    else if w[k].pid != 0 then AnotherRunning
    else if w[k].needsRestart then RestartRequested
    else Announced
  }

  function AnnounceWorker(w: WorkerHash, k: Key, pid: nat): WorkerHash {
    if AnnounceWorkerResult(w, k).Announced? then w[k := w[k].(pid := pid, state := Running)] else w
  }

  /** The restart a worker asks for with its return value, in milliseconds; -1 is immediate. */
  function RequestWorkerRestart(w: WorkerHash, k: Key, now: nat, delayMs: int): WorkerHash {
    if k in w && (delayMs == -1 || delayMs > 0) then
      w[k := w[k].(needsRestart := true, state := Restarting,
                   restartAfter := if delayMs <= 0 then 0 else now + 1000 * delayMs)]
    else w
  }

  /** Whether an exit is an error nobody asked for. */
  predicate UnrequestedFailure(w: WorkerHash, k: Key, code: nat) {
    k in w && code != 0 && !w[k].needsRestart
  }

  /** The exit handler of a base worker. */
  function ExitWorker(w: WorkerHash, k: Key, code: nat, now: nat): WorkerHash {
    if k !in w then w
    else if code == 0 then
      w[k := w[k].(pid := 0, state := if w[k].needsRestart then w[k].state else Stopped)]
    else if w[k].needsRestart then
      w[k := w[k].(pid := 0, state := Restarting)]
    else
      w[k := w[k].(pid := 0, needsRestart := true, state := Restarting,
                   restartAfter := now + 1000 * NAP_TIME_AFTER_FAILURE)]
  }

  function RemoveWorker(w: WorkerHash, k: Key): WorkerHash {
    w - {k}
  }

  function KeepListedDatabases(w: WorkerHash, dbs: set<Oid>): WorkerHash {
    map k | k in w && k.db in dbs :: w[k]
  }

  function RemoveDatabaseWorkers(w: WorkerHash, db: Oid): WorkerHash {
    map k | k in w && k.db != db :: w[k]
  }

  function KeepRegistered(w: WorkerHash, db: Oid, listed: set<Key>): WorkerHash {
    map k | k in w && (k.db != db || k in listed) :: w[k]
  }

  /** The part of DeregisterBaseWorker_internal that marks one worker. */
  function MarkWorker(w: WorkerHash, k: Key): WorkerHash {
    if WorkerBusy(w, k) then w[k := w[k].(needsRestart := true)] else w
  }

  datatype DropTarget = AllExtensions | OneExtension(ext: Oid)

  predicate DropsEntry(w: WorkerHash, k: Key, db: Oid, target: DropTarget) {
    k in w && k.db == db && (target.AllExtensions? || w[k].ext == target.ext) && WorkerBusy(w, k)
  }

  function AfterDrop(w: WorkerHash, k: Key, db: Oid, target: DropTarget): WorkerEntry
    requires k in w
  {
    if DropsEntry(w, k, db, target) then w[k].(needsRestart := true) else w[k]
  }

  /** PrepareForDrop on the base worker hash; on the starter hash it is RequestStarter. */
  function DropWorkers(w: WorkerHash, db: Oid, target: DropTarget): WorkerHash {
    map k | k in w :: AfterDrop(w, k, db, target)
  }

  /** The processes PrepareForDrop terminates: the starter, and the workers among `keys`. */
  function KilledStarter(h: StarterHash, db: Oid): set<nat> {
    if db in h && h[db].pid > 0 then {h[db].pid} else {}
  }

  function KilledWorkers(w: WorkerHash, keys: set<Key>, db: Oid, target: DropTarget): set<nat> {
    set k | k in keys && DropsEntry(w, k, db, target) && w[k].pid > 0 :: w[k].pid
  }

  lemma KilledWorkersAdd(w: WorkerHash, keys: set<Key>, k: Key, db: Oid, target: DropTarget)
    ensures KilledWorkers(w, keys + {k}, db, target) ==
            KilledWorkers(w, keys, db, target) +
            (if DropsEntry(w, k, db, target) && w[k].pid > 0 then {w[k].pid} else {})
  {
  }

  // ----- what a block leaves alone, and what the next attempt to start finds -----

  ghost predicate OnlyStarter(h: StarterHash, h': StarterHash, db: Oid) {
    forall d :: d != db ==> (d in h <==> d in h') && (d in h ==> h'[d] == h[d])
  }

  ghost predicate OnlyWorker(w: WorkerHash, w': WorkerHash, k: Key) {
    forall j :: j != k ==> (j in w <==> j in w') && (j in w ==> w'[j] == w[j])
  }

  /** The result of the next attempt to start the starter of an existing database, given a slot. */
  function NextStarter(h: StarterHash, db: Oid): StartResult {
    StartStarterResult(h, db, true, true)
  }

  /** The result of the next attempt to start the worker, made at time `t` with a slot. */
  function NextWorker(w: WorkerHash, k: Key, t: nat): StartResult {
    StartWorkerResult(w, k, t, true)
  }

  /** The control structure, updated in place under its lock. */
  class BaseWorkerControl {
    var starters: StarterHash
    var workers: WorkerHash

    constructor ()
      ensures starters == map[] && workers == map[] && Valid()
    {
      starters, workers := map[], map[];
    }

    /** An entry that says STARTING names no process yet. */
    ghost predicate Valid()
      reads this
    {
      && (forall d :: d in starters && starters[d].state.Starting? ==> starters[d].pid == 0)
      && (forall k :: k in workers && workers[k].state.Starting? ==> workers[k].pid == 0)
    }

    method RemoveWorkerEntriesNotInDatabaseList(databaseList: set<Oid>)
      requires Valid()
      modifies this
      ensures Valid()
      ensures starters == KeepListedStarters(old(starters), databaseList)
      ensures workers == KeepListedDatabases(old(workers), databaseList)
    {
      var scan := starters.Keys;
      while scan != {}
        invariant scan <= starters.Keys <= old(starters).Keys
        invariant workers == old(workers)
        invariant forall d :: d in old(starters) ==> d in scan || (d in starters <==> d in databaseList)
        invariant forall d :: d in starters ==> starters[d] == old(starters)[d]
        invariant forall d :: d in databaseList && d in old(starters) ==> d in starters
        decreases scan
      {
        var d :| d in scan;
        if d !in databaseList {
          starters := starters - {d};
        }
        scan := scan - {d};
      }
      var scanKeys := workers.Keys;
      while scanKeys != {}
        invariant scanKeys <= workers.Keys <= old(workers).Keys
        invariant starters == KeepListedStarters(old(starters), databaseList)
        invariant forall k :: k in old(workers) ==> k in scanKeys || (k in workers <==> k.db in databaseList)
        invariant forall k :: k in workers ==> workers[k] == old(workers)[k]
        invariant forall k :: k in old(workers) && k.db in databaseList ==> k in workers
        decreases scanKeys
      {
        var k :| k in scanKeys;
        if k.db !in databaseList {
          workers := workers - {k};
        }
        scanKeys := scanKeys - {k};
      }
    }

    method StartDatabaseStarter(db: Oid, dbExists: bool, slot: bool) returns (r: StartResult)
      requires Valid()
      modifies this`starters
      ensures Valid() && OnlyStarter(old(starters), starters, db)
      // a spawn claims an entry nobody held and answers its request; a second one is refused
      ensures r.Started? ==>
        && !StarterBusy(old(starters), db) && db in starters && !starters[db].needsRestart
        && NextStarter(starters, db).Exists?
      ensures r.Started? <==>
        slot && !StarterBusy(old(starters), db) && (db in old(starters) ==> old(starters)[db].needsRestart && dbExists)
      // only a spawn answers a request, and a failed one leaves it open
      ensures !r.Started? && db in old(starters) ==> db in starters && starters[db] == old(starters)[db]
      ensures r.Failed? ==> NextStarter(starters, db).Started?
      ensures r.Exists? || r.Done? ==> starters == old(starters)
      ensures r == StartStarterResult(old(starters), db, dbExists, slot)
      ensures starters == StartStarter(old(starters), db, dbExists, slot)
    {
      var found := db in starters;
      var entry := if found then starters[db] else StarterEntry(0, NotStarted, true);
      if found {
        if entry.pid > 0 || entry.state.Starting? {
          return Exists;
        } else if !entry.needsRestart {
          return Done;
        } else if !dbExists {
          return Done;
        }
      }
      starters := starters[db := entry];
      if !slot {
        return Failed;
      }
      starters := starters[db := entry.(needsRestart := false, state := Starting)];
      return Started;
    }

    method StartBaseWorker(k: Key, ext: Oid, now: nat, slot: bool) returns (r: StartResult)
      requires Valid()
      modifies this`workers
      ensures Valid() && OnlyWorker(old(workers), workers, k)
      // a spawn claims an entry nobody held, answers its request and ends its delay
      ensures r.Started? ==>
        && !WorkerBusy(old(workers), k) && k in workers && !workers[k].needsRestart
        && forall t: nat :: NextWorker(workers, k, t).Exists?
      ensures r.Started? && k in old(workers) ==>
        old(workers)[k].needsRestart && (old(workers)[k].restartAfter == 0 || now > old(workers)[k].restartAfter)
      // every other result leaves request and delay as they were
      ensures !r.Started? && k in old(workers) ==>
        forall t: nat :: NextWorker(workers, k, t) == NextWorker(old(workers), k, t)
      ensures r.Failed? ==> NextWorker(workers, k, now).Started?
      ensures r.Exists? || r.Done? || r.Blocked? ==> workers == old(workers)
      ensures r == StartWorkerResult(old(workers), k, now, slot)
      ensures workers == StartWorker(old(workers), k, ext, now, slot)
    {
      var found := k in workers;
      var entry := if found then workers[k] else WorkerEntry(0, 0, NotStarted, true, 0);
      if found {
        if entry.pid > 0 || entry.state.Starting? {
          return Exists;
        } else if !entry.needsRestart {
          return Done;
        } else if entry.restartAfter != 0 {
          if entry.restartAfter - now >= 0 {
            return Blocked;
          }
        }
      }
      entry := entry.(ext := ext);
      workers := workers[k := entry];
      if !slot {
        return Failed;
      }
      workers := workers[k := entry.(needsRestart := false, state := Starting, restartAfter := 0)];
      return Started;
    }

    method RemoveBaseWorkerEntriesNotInRegistrationList(db: Oid, listed: set<Key>)
      requires Valid()
      modifies this`workers
      ensures Valid()
      ensures workers == KeepRegistered(old(workers), db, listed)
    {
      var scan := workers.Keys;
      while scan != {}
        invariant scan <= workers.Keys <= old(workers).Keys
        invariant forall k :: k in old(workers) ==> k in scan || (k in workers <==> (k.db != db || k in listed))
        invariant forall k :: k in workers ==> workers[k] == old(workers)[k]
        invariant forall k :: k in old(workers) && (k.db != db || k in listed) ==> k in workers
        decreases scan
      {
        var k :| k in scan;
        if k.db == db && k !in listed {
          workers := workers - {k};
        }
        scan := scan - {k};
      }
    }

    method PrepareForDrop(db: Oid, target: DropTarget) returns (killed: set<nat>)
      requires Valid()
      modifies this
      ensures Valid()
      ensures starters == RequestStarter(old(starters), db)
      ensures workers == DropWorkers(old(workers), db, target)
      ensures killed == KilledStarter(old(starters), db) + KilledWorkers(old(workers), old(workers).Keys, db, target)
    {
      var killedStarter := {};
      if db in starters {
        starters := starters[db := starters[db].(needsRestart := true)];
        if starters[db].pid > 0 {
          killedStarter := {starters[db].pid};
        }
      }
      var killedWorkers := StopWorkers(db, target);
      killed := killedStarter + killedWorkers;
    }

    /** The hash scan of PrepareForDrop. */
    method StopWorkers(db: Oid, target: DropTarget) returns (killed: set<nat>)
      modifies this`workers
      ensures workers == DropWorkers(old(workers), db, target)
      ensures killed == KilledWorkers(old(workers), old(workers).Keys, db, target)
    {
      ghost var w := workers;
      killed := {};
      var scan := workers.Keys;
      assert w.Keys - scan == {};
      while scan != {}
        invariant scan <= workers.Keys == w.Keys
        invariant forall k :: k in w ==> workers[k] == if k in scan then w[k] else AfterDrop(w, k, db, target)
        invariant killed == KilledWorkers(w, w.Keys - scan, db, target)
        decreases scan
      {
        var k :| k in scan;
        if k.db == db && (target.AllExtensions? || workers[k].ext == target.ext) &&
           (workers[k].pid > 0 || workers[k].state.Starting?) {
          workers := workers[k := workers[k].(needsRestart := true)];
          if workers[k].pid > 0 {
            killed := killed + {workers[k].pid};
          }
        }
        KilledWorkersAdd(w, w.Keys - scan, k, db, target);
        assert w.Keys - (scan - {k}) == w.Keys - scan + {k};
        scan := scan - {k};
      }
      assert w.Keys - scan == w.Keys;
    }

    method AnnounceDatabaseStarter(db: Oid, pid: nat) returns (r: AnnounceResult)
      requires Valid() && pid > 0
      modifies this`starters
      ensures Valid() && OnlyStarter(old(starters), starters, db)
      // whoever announces itself took an entry that named nobody, and keeps others out
      ensures r.Announced? ==> db in old(starters) && old(starters)[db].pid == 0 && !old(starters)[db].needsRestart
      ensures r.Announced? ==> db in starters && starters[db].pid == pid
      ensures r.Announced? ==> AnnounceStarterResult(starters, db).AnotherRunning? && NextStarter(starters, db).Exists?
      ensures !r.Announced? ==> starters == old(starters)
      ensures r == AnnounceStarterResult(old(starters), db)
      ensures starters == AnnounceStarter(old(starters), db, pid)
    {
      if db !in starters {
        return NotFound;
      }
      if starters[db].pid != 0 {
        return AnotherRunning;
      }
      if starters[db].needsRestart {
        return RestartRequested;
      }
      starters := starters[db := starters[db].(pid := pid, state := Running)];
      r := Announced;
    }

    method DatabaseStarterExit(db: Oid, code: nat)
      requires Valid()
      modifies this`starters
      ensures Valid() && OnlyStarter(old(starters), starters, db)
      // the entry is free again; it is started next if and only if that was asked for or it failed
      ensures db in old(starters) ==>
        NextStarter(starters, db) == if old(starters)[db].needsRestart || code != 0 then Started else Done
      ensures starters == ExitStarter(old(starters), db, code)
    {
      if db in starters {
        starters := starters[db := starters[db].(pid := 0, state := Stopped)];
        if code != 0 {
          starters := starters[db := starters[db].(needsRestart := true)];
        }
      }
    }

    method DatabaseStarterNeedsRestart(db: Oid)
      requires Valid()
      modifies this`starters
      ensures Valid() && OnlyStarter(old(starters), starters, db) && starters.Keys == old(starters).Keys
      // a running or starting starter stays, and is started again after its exit, whatever its code
      ensures db in old(starters) ==>
        NextStarter(starters, db) == if StarterBusy(old(starters), db) then Exists else Started
      ensures db in old(starters) ==> forall code: nat :: NextStarter(ExitStarter(starters, db, code), db).Started?
      ensures starters == RequestStarter(old(starters), db)
    {
      if db in starters {
        starters := starters[db := starters[db].(needsRestart := true)];
      }
    }

    method AnnounceBaseWorker(k: Key, pid: nat) returns (r: AnnounceResult)
      requires Valid() && pid > 0
      modifies this`workers
      ensures Valid() && OnlyWorker(old(workers), workers, k)
      // whoever announces itself took an entry that named nobody, and keeps others out
      ensures r.Announced? ==> k in old(workers) && old(workers)[k].pid == 0 && !old(workers)[k].needsRestart
      ensures r.Announced? ==> k in workers && workers[k].pid == pid
      ensures r.Announced? ==>
        AnnounceWorkerResult(workers, k).AnotherRunning? && forall t: nat :: NextWorker(workers, k, t).Exists?
      ensures !r.Announced? ==> workers == old(workers)
      ensures r == AnnounceWorkerResult(old(workers), k)
      ensures workers == AnnounceWorker(old(workers), k, pid)
    {
      if k !in workers {
        return NotFound;
      }
      if workers[k].pid != 0 {
        return AnotherRunning;
      }
      if workers[k].needsRestart {
        return RestartRequested;
      }
      workers := workers[k := workers[k].(state := Running, pid := pid)];
      r := Announced;
    }

    /** After the entry point returned `delayMs`. */
    method RequestBaseWorkerRestart(k: Key, now: nat, delayMs: int)
      requires Valid()
      modifies this
      ensures Valid() && OnlyWorker(old(workers), workers, k) && OnlyStarter(old(starters), starters, k.db)
      // after its clean exit the worker is due once the delay it asked for has passed, and a starter is asked for
      ensures k in old(workers) && (delayMs == -1 || delayMs > 0) ==>
        forall t: nat, u: nat :: NextWorker(ExitWorker(workers, k, 0, u), k, t) ==
                       if delayMs > 0 && t <= now + 1000 * delayMs then Blocked else Started
      ensures k in old(workers) && (delayMs == -1 || delayMs > 0) ==> starters == RequestStarter(old(starters), k.db)
      // any other value asks for nothing
      ensures k !in old(workers) || !(delayMs == -1 || delayMs > 0) ==>
        workers == old(workers) && starters == old(starters)
      ensures workers == RequestWorkerRestart(old(workers), k, now, delayMs)
    {
      if delayMs == -1 || delayMs > 0 {
        if k in workers {
          workers := workers[k := workers[k].(needsRestart := true, state := Restarting)];
          workers := workers[k := workers[k].(restartAfter := if delayMs <= 0 then 0 else now + 1000 * delayMs)];
          if k.db in starters {
            starters := starters[k.db := starters[k.db].(needsRestart := true)];
          }
        }
      }
    }

    /** The exit handler of a base worker; a failure nobody asked for also brings back its starter. */
    method BaseWorkerExit(k: Key, code: nat, now: nat)
      requires Valid()
      modifies this
      ensures Valid() && OnlyWorker(old(workers), workers, k) && OnlyStarter(old(starters), starters, k.db)
      // a failure nobody asked for: due after the delay, and a starter is asked for
      ensures UnrequestedFailure(old(workers), k, code) ==>
        && starters == RequestStarter(old(starters), k.db)
        && forall t: nat ::
             NextWorker(workers, k, t) == if t <= now + 1000 * NAP_TIME_AFTER_FAILURE then Blocked else Started
      // an exit nobody asked for and without error: not started again
      ensures k in old(workers) && code == 0 && !old(workers)[k].needsRestart ==>
        forall t: nat :: NextWorker(workers, k, t).Done?
      // an exit that was asked for: startable unless it is left STARTING, but no starter is asked for
      ensures k in old(workers) && old(workers)[k].needsRestart ==>
        forall t: nat :: NextWorker(workers, k, t).Exists? <==> code == 0 && old(workers)[k].state.Starting?
      ensures !UnrequestedFailure(old(workers), k, code) ==> starters == old(starters)
      ensures workers == ExitWorker(old(workers), k, code, now)
    {
      if k in workers {
        workers := workers[k := workers[k].(pid := 0)];
        if code == 0 {
          if !workers[k].needsRestart {
            workers := workers[k := workers[k].(state := Stopped)];
          }
        } else if workers[k].needsRestart {
          workers := workers[k := workers[k].(state := Restarting)];
        } else {
          if k.db in starters {
            starters := starters[k.db := starters[k.db].(needsRestart := true)];
          }
          workers := workers[k := workers[k].(needsRestart := true, state := Restarting,
                                              restartAfter := now + 1000 * NAP_TIME_AFTER_FAILURE)];
        }
      }
    }

    method RemoveBaseWorkerEntriesForDatabase(db: Oid)
      requires Valid()
      modifies this`workers
      ensures Valid()
      ensures workers == RemoveDatabaseWorkers(old(workers), db)
    {
      var scan := workers.Keys;
      while scan != {}
        invariant scan <= workers.Keys <= old(workers).Keys
        invariant forall k :: k in old(workers) ==> k in scan || (k in workers <==> k.db != db)
        invariant forall k :: k in workers ==> workers[k] == old(workers)[k]
        invariant forall k :: k in old(workers) && k.db != db ==> k in workers
        decreases scan
      {
        var k :| k in scan;
        if k.db == db {
          workers := workers - {k};
        }
        scan := scan - {k};
      }
    }

    /** Deregistration marks a started worker for restart, in case the transaction fails. */
    method DeregisterBaseWorker(k: Key) returns (killed: set<nat>)
      requires Valid()
      modifies this`workers
      ensures Valid() && OnlyWorker(old(workers), workers, k) && workers.Keys == old(workers).Keys
      // a worker that is only starting gives up by itself, a running one is killed and can then be started
      ensures k in old(workers) && old(workers)[k].state.Starting? ==>
        killed == {} && AnnounceWorkerResult(workers, k).RestartRequested?
      ensures k in old(workers) && old(workers)[k].pid > 0 ==>
        && killed == {old(workers)[k].pid}
        && forall t: nat, now: nat :: !NextWorker(ExitWorker(workers, k, 1, now), k, t).Exists?
      ensures !WorkerBusy(old(workers), k) ==> killed == {} && workers == old(workers)
      ensures workers == MarkWorker(old(workers), k)
    {
      killed := {};
      if k in workers && (workers[k].pid > 0 || workers[k].state.Starting?) {
        workers := workers[k := workers[k].(needsRestart := true)];
        if workers[k].pid > 0 {
          killed := {workers[k].pid};
        }
      }
    }
  }
}
