/** The invariants of the launcher's runs. Each predicate takes only the components it speaks
    about, so an action that leaves them alone keeps it for free. */
module LauncherInvariants {
  import opened LauncherShm
  import opened LauncherRuns

  const NAP_MICROS: nat := 1000 * NAP_TIME_AFTER_FAILURE

  // ----- registrations and transactions -----

  ghost predicate Known(reg: map<Key, Oid>, gone: set<Key>, k: Key) {
    k in reg || k in gone
  }

  ghost predicate RegInv(databases: map<Oid, bool>, extension: set<Oid>, reg: map<Key, Oid>,
                         usedDbs: set<Oid>, usedKeys: set<Key>, gone: set<Key>)
  {
    && databases.Keys <= usedDbs
    && (forall k :: k in usedKeys ==> k.db in usedDbs && Packable(k))
    && (forall k :: k in reg ==> k in usedKeys && k !in gone && k.db in databases && k.db in extension)
    && gone <= usedKeys
  }

  ghost predicate InsertedOk(x: Tx, extension: set<Oid>, reg: map<Key, Oid>, usedKeys: set<Key>, gone: set<Key>) {
    forall k :: k in x.inserted ==>
      k.db == x.db && k in usedKeys && k !in reg && k !in gone && (k.db in extension || x.createsBase)
  }

  ghost predicate TxInv(txs: map<TxId, Tx>, databases: map<Oid, bool>, extension: set<Oid>,
                        reg: map<Key, Oid>, usedKeys: set<Key>, gone: set<Key>)
  {
    && (forall t :: t in txs ==> txs[t].db in databases && InsertedOk(txs[t], extension, reg, usedKeys, gone))
    && (forall t, u :: t in txs && u in txs && t != u ==> txs[t].inserted.Keys !! txs[u].inserted.Keys)
  }

  // ----- database starters -----

  ghost predicate OwnsStarter(h: StarterHash, p: Pid, proc: StarterProc) {
    proc.db in h ==>
      if IsAnnounced(proc.phase) then h[proc.db].pid == p else h[proc.db].state.Starting? && h[proc.db].pid == 0
  }

  /** A starter process owns the entry of its database, and no database has two. */
  ghost predicate StarterInv(h: StarterHash, sprocs: map<Pid, StarterProc>) {
    && (forall p :: p in sprocs ==> p > 0 && OwnsStarter(h, p, sprocs[p]))
    && (forall p, q :: p in sprocs && q in sprocs && sprocs[p].db == sprocs[q].db ==> p == q)
  }

  /** Nothing in shared memory refers to a database the server starter's list has missed. */
  ghost predicate Listed(server: ServerPhase, databases: map<Oid, bool>, db: Oid) {
    server.Listing? ==> db in server.dbs || db !in databases
  }

  ghost predicate StarterHashInv(h: StarterHash, server: ServerPhase, databases: map<Oid, bool>, usedDbs: set<Oid>) {
    && (forall db :: db in h ==> db in usedDbs && Listed(server, databases, db))
    && (server.Listing? ==> server.dbs <= usedDbs)
  }

  ghost predicate WorkerHashInv(w: WorkerHash, server: ServerPhase, databases: map<Oid, bool>,
                                reg: map<Key, Oid>, gone: set<Key>)
  {
    forall k :: k in w ==> Known(reg, gone, k) && Listed(server, databases, k.db)
  }

  /** A starter without an entry belongs to a database that is gone for good. */
  ghost predicate Placed(h: StarterHash, server: ServerPhase, databases: map<Oid, bool>, usedDbs: set<Oid>,
    proc: StarterProc)
  {
    && proc.db in usedDbs
    && Listed(server, databases, proc.db)
    && (IsConnected(proc.phase) ==> proc.db in databases)
    && (proc.db in h || (proc.db !in databases && !(server.Listing? && proc.db in server.dbs)))
  }

  ghost predicate PlacedInv(h: StarterHash, sprocs: map<Pid, StarterProc>, server: ServerPhase,
                            databases: map<Oid, bool>, usedDbs: set<Oid>)
  {
    forall p :: p in sprocs ==> Placed(h, server, databases, usedDbs, sprocs[p])
  }

  // ----- lists held by starters -----

  ghost predicate ListKnown(reg: map<Key, Oid>, gone: set<Key>, proc: StarterProc) {
    forall k :: k in ListOf(proc.phase) ==> k.db == proc.db && Known(reg, gone, k)
  }

  /** A key a starter may remove from the hash: one its list lacks, or any once the extension is gone. */
  ghost predicate MayForget(proc: StarterProc, k: Key) {
    k.db == proc.db && ((proc.phase.SListed? && k !in proc.phase.list) || proc.phase.SNoExtension?)
  }

  ghost predicate ListInv(sprocs: map<Pid, StarterProc>, reg: map<Key, Oid>, gone: set<Key>) {
    forall p :: p in sprocs ==> ListKnown(reg, gone, sprocs[p])
  }

  ghost predicate ForgetInv(sprocs: map<Pid, StarterProc>, w: WorkerHash, wprocs: map<Pid, WorkerProc>,
    gone: set<Key>)
  {
    && (forall p, k :: p in sprocs && k in w && MayForget(sprocs[p], k) ==> k in gone)
    && (forall p, q :: p in sprocs && q in wprocs && MayForget(sprocs[p], wprocs[q].key) ==> wprocs[q].key in gone)
  }

  // ----- base workers -----

  /** No starter will ever start this key again. */
  ghost predicate Retired(gone: set<Key>, sprocs: map<Pid, StarterProc>, k: Key) {
    k in gone && forall p :: p in sprocs ==> k !in ListOf(sprocs[p].phase)
  }

  ghost predicate OwnsWorker(w: WorkerHash, q: Pid, proc: WorkerProc) {
    && proc.key in w
    && if IsWorkerAnnounced(proc.phase) then w[proc.key].pid == q
       else w[proc.key].state.Starting? && w[proc.key].pid == 0
  }

  /** Every worker that has not removed its own entry owns it, or its key is retired; there is at
      most one such worker per key. */
  ghost predicate WorkerInv(w: WorkerHash, wprocs: map<Pid, WorkerProc>, sprocs: map<Pid, StarterProc>,
                            reg: map<Key, Oid>, gone: set<Key>)
  {
    && (forall q :: q in wprocs ==> q > 0 && Known(reg, gone, wprocs[q].key))
    && (forall q :: q in wprocs && !wprocs[q].phase.WDropped? ==>
          OwnsWorker(w, q, wprocs[q]) || Retired(gone, sprocs, wprocs[q].key))
    && (forall q :: q in wprocs && wprocs[q].phase.WDropped? ==> wprocs[q].key in gone)
    && (forall q, r :: q in wprocs && r in wprocs && q != r && wprocs[q].key == wprocs[r].key ==>
          wprocs[q].phase.WDropped? || wprocs[r].phase.WDropped?)
    && (forall q, r :: q in wprocs && r in wprocs && wprocs[q].key == wprocs[r].key &&
                       wprocs[q].phase.WDropped? && !wprocs[r].phase.WDropped? ==>
          Retired(gone, sprocs, wprocs[q].key))
  }

  // ----- requests and registrations -----

  /** Before the advisory lock, or failed so that the exit handler will ask for a new starter. */
  predicate BeforeLock(ph: StarterPhase) {
    ph.SSpawned? || ph.SAnnounced? || ph.SConnected? || (ph.SExiting? && ph.code != 0)
  }

  predicate BeforeRead(ph: StarterPhase) {
    BeforeLock(ph) || ph.SLocked? || ph.SReady?
  }

  ghost predicate StarterBeforeLock(sprocs: map<Pid, StarterProc>, db: Oid) {
    exists p :: p in sprocs && sprocs[p].db == db && BeforeLock(sprocs[p].phase)
  }

  ghost predicate StarterBeforeRead(sprocs: map<Pid, StarterProc>, db: Oid) {
    exists p :: p in sprocs && sprocs[p].db == db && BeforeRead(sprocs[p].phase)
  }

  ghost predicate Asked(h: StarterHash, db: Oid) {
    db !in h || h[db].needsRestart
  }

  /** A starter that will wait for the advisory lock is asked for, or on its way. */
  ghost predicate Waiting(h: StarterHash, sprocs: map<Pid, StarterProc>, db: Oid) {
    Asked(h, db) || StarterBeforeLock(sprocs, db)
  }

  /** A starter that will read the registrations is asked for, or on its way. */
  ghost predicate Unread(h: StarterHash, sprocs: map<Pid, StarterProc>, db: Oid) {
    Asked(h, db) || StarterBeforeRead(sprocs, db)
  }

  ghost predicate RequestInv(h: StarterHash, sprocs: map<Pid, StarterProc>, txs: map<TxId, Tx>,
    databases: map<Oid, bool>)
  {
    forall t :: t in txs && txs[t].db in databases && !databases[txs[t].db] ==>
      && (txs[t].inserted != map[] && !txs[t].pending ==> txs[t].requested)
      && (txs[t].requested ==> !txs[t].lock.NoLock? && Waiting(h, sprocs, txs[t].db))
  }

  ghost predicate SeenInv(h: StarterHash, sprocs: map<Pid, StarterProc>, reg: map<Key, Oid>,
                          seen: set<Key>, databases: map<Oid, bool>)
  {
    forall k :: k in reg && k.db in databases && !databases[k.db] ==> k in seen || Unread(h, sprocs, k.db)
  }

  ghost predicate AboutToStart(sprocs: map<Pid, StarterProc>, k: Key) {
    exists p :: p in sprocs && sprocs[p].db == k.db && (k in ListOf(sprocs[p].phase) || sprocs[p].phase.SSleeping?)
  }

  ghost predicate EntryInv(h: StarterHash, w: WorkerHash, sprocs: map<Pid, StarterProc>, reg: map<Key, Oid>,
                           databases: map<Oid, bool>)
  {
    forall k :: k in reg && k.db in databases && !databases[k.db] ==>
      k in w || Unread(h, sprocs, k.db) || AboutToStart(sprocs, k)
  }

  // ----- backoff -----

  ghost predicate Cooling(w: WorkerHash, wprocs: map<Pid, WorkerProc>, k: Key, failed: nat) {
    && k in w && w[k].pid == 0 && w[k].state.Restarting? && w[k].needsRestart
    && w[k].restartAfter >= failed + NAP_MICROS
    && (forall q :: q in wprocs && wprocs[q].key == k ==> wprocs[q].phase.WDropped?)
  }

  ghost predicate BackoffInv(lastFail: map<Key, nat>, clock: nat, gone: set<Key>, sprocs: map<Pid, StarterProc>,
                             w: WorkerHash, wprocs: map<Pid, WorkerProc>)
  {
    forall k :: k in lastFail ==>
      clock > lastFail[k] + NAP_MICROS || Retired(gone, sprocs, k) || Cooling(w, wprocs, k, lastFail[k])
  }

  // ----- the invariant -----

  ghost predicate Inv(s: State) {
    && RegInv(s.databases, s.extension, s.registered, s.usedDbs, s.usedKeys, s.gone)
    && TxInv(s.txs, s.databases, s.extension, s.registered, s.usedKeys, s.gone)
    && StarterInv(s.starters, s.sprocs)
    && StarterHashInv(s.starters, s.server, s.databases, s.usedDbs)
    && WorkerHashInv(s.workers, s.server, s.databases, s.registered, s.gone)
    && PlacedInv(s.starters, s.sprocs, s.server, s.databases, s.usedDbs)
    && ListInv(s.sprocs, s.registered, s.gone)
    && ForgetInv(s.sprocs, s.workers, s.wprocs, s.gone)
    && WorkerInv(s.workers, s.wprocs, s.sprocs, s.registered, s.gone)
    && RequestInv(s.starters, s.sprocs, s.txs, s.databases)
    && SeenInv(s.starters, s.sprocs, s.registered, s.seen, s.databases)
    && EntryInv(s.starters, s.workers, s.sprocs, s.registered, s.databases)
    && BackoffInv(s.lastFail, s.clock, s.gone, s.sprocs, s.workers, s.wprocs)
  }

  // ----- steps that only shorten the lists starters hold -----

  ghost predicate ListsShrink(sprocs: map<Pid, StarterProc>, sprocs': map<Pid, StarterProc>) {
    forall p, k :: p in sprocs' && k in ListOf(sprocs'[p].phase) ==> p in sprocs && k in ListOf(sprocs[p].phase)
  }

  lemma ShrinkKeepsRetired(gone: set<Key>, sprocs: map<Pid, StarterProc>, sprocs': map<Pid, StarterProc>, k: Key)
    requires ListsShrink(sprocs, sprocs') && Retired(gone, sprocs, k)
    ensures Retired(gone, sprocs', k)
  {
  }

  lemma ShrinkKeepsWorkers(s: State, s': State)
    requires ListsShrink(s.sprocs, s'.sprocs)
    requires s'.workers == s.workers && s'.wprocs == s.wprocs && s'.registered == s.registered && s'.gone == s.gone
    requires s'.lastFail == s.lastFail && s'.clock == s.clock
    requires WorkerInv(s.workers, s.wprocs, s.sprocs, s.registered, s.gone)
    requires BackoffInv(s.lastFail, s.clock, s.gone, s.sprocs, s.workers, s.wprocs)
    ensures WorkerInv(s'.workers, s'.wprocs, s'.sprocs, s'.registered, s'.gone)
    ensures BackoffInv(s'.lastFail, s'.clock, s'.gone, s'.sprocs, s'.workers, s'.wprocs)
  {
    forall k | Retired(s.gone, s.sprocs, k)
      ensures Retired(s'.gone, s'.sprocs, k)
    {
      ShrinkKeepsRetired(s.gone, s.sprocs, s'.sprocs, k);
    }
  }

  // ----- steps that only raise requests -----

  /** If nobody stops asking, nothing about requests is lost. */
  lemma AskedKeepsRequests(s: State, s': State)
    requires s' == s.(starters := s'.starters)
    requires forall d :: Asked(s.starters, d) ==> Asked(s'.starters, d)
    requires RequestInv(s.starters, s.sprocs, s.txs, s.databases)
    requires SeenInv(s.starters, s.sprocs, s.registered, s.seen, s.databases)
    requires EntryInv(s.starters, s.workers, s.sprocs, s.registered, s.databases)
    ensures RequestInv(s'.starters, s'.sprocs, s'.txs, s'.databases)
    ensures SeenInv(s'.starters, s'.sprocs, s'.registered, s'.seen, s'.databases)
    ensures EntryInv(s'.starters, s'.workers, s'.sprocs, s'.registered, s'.databases)
  {
  }

  ghost predicate Raised(h: StarterHash, h': StarterHash) {
    && h'.Keys == h.Keys
    && forall db :: db in h ==>
         h'[db].pid == h[db].pid && h'[db].state == h[db].state && (h[db].needsRestart ==> h'[db].needsRestart)
  }

  lemma RaiseKeepsInv(s: State, s': State)
    requires s' == s.(starters := s'.starters) && Raised(s.starters, s'.starters) && Inv(s)
    ensures Inv(s')
  {
    AskedKeepsRequests(s, s');
    forall p | p in s.sprocs
      ensures OwnsStarter(s'.starters, p, s.sprocs[p])
      ensures Placed(s'.starters, s'.server, s'.databases, s'.usedDbs, s.sprocs[p])
    {
      assert OwnsStarter(s.starters, p, s.sprocs[p]);
      assert Placed(s.starters, s.server, s.databases, s.usedDbs, s.sprocs[p]);
    }
  }
}
