/** Transactions and the surroundings keep the launcher's invariants. */
module LauncherTxProofs {
  import opened LauncherShm
  import opened LauncherRuns
  import opened LauncherInvariants

  // ----- marking busy workers -----

  ghost predicate MarkedOnly(w: WorkerHash, w': WorkerHash) {
    && w'.Keys == w.Keys
    && forall k :: k in w ==> w'[k] == w[k] || (WorkerBusy(w, k) && w'[k] == w[k].(needsRestart := true))
  }

  lemma MarkKeepsWorkers(s: State, s': State)
    requires s' == s.(workers := s'.workers) && MarkedOnly(s.workers, s'.workers)
    requires WorkerInv(s.workers, s.wprocs, s.sprocs, s.registered, s.gone)
    ensures WorkerInv(s'.workers, s'.wprocs, s'.sprocs, s'.registered, s'.gone)
  {
    forall q | q in s.wprocs && !s.wprocs[q].phase.WDropped?
      ensures OwnsWorker(s'.workers, q, s.wprocs[q]) || Retired(s.gone, s.sprocs, s.wprocs[q].key)
    {
      assert OwnsWorker(s.workers, q, s.wprocs[q]) || Retired(s.gone, s.sprocs, s.wprocs[q].key);
    }
  }

  lemma MarkKeepsBackoff(s: State, s': State)
    requires s' == s.(workers := s'.workers) && MarkedOnly(s.workers, s'.workers)
    requires BackoffInv(s.lastFail, s.clock, s.gone, s.sprocs, s.workers, s.wprocs)
    ensures BackoffInv(s'.lastFail, s'.clock, s'.gone, s'.sprocs, s'.workers, s'.wprocs)
  {
    forall k | k in s.lastFail && Cooling(s.workers, s.wprocs, k, s.lastFail[k])
      ensures Cooling(s'.workers, s'.wprocs, k, s'.lastFail[k])
    {
    }
  }

  lemma MarkKeepsInv(s: State, s': State)
    requires Inv(s) && s' == s.(workers := s'.workers) && MarkedOnly(s.workers, s'.workers)
    ensures Inv(s')
  {
    MarkKeepsWorkers(s, s');
    MarkKeepsBackoff(s, s');
  }

  lemma MarkStepKeepsInv(s: State, s': State, t: TxId, key: Key)
    requires Inv(s) && TxEnabled(s, t, Mark(key)) && s' == TxStep(s, t, Mark(key))
    ensures Inv(s')
  {
    assert s.txs[t := s.txs[t]] == s.txs;
    MarkKeepsInv(s, s');
  }

  // ----- changing one open transaction -----

  ghost predicate TxChanged(s: State, s': State, t: TxId, x: Tx) {
    s' == s.(txs := s.txs[t := x], usedKeys := s'.usedKeys) && s.usedKeys <= s'.usedKeys
  }

  lemma TxChangeKeepsTx(s: State, s': State, t: TxId, x: Tx)
    requires TxChanged(s, s', t, x) && x.db in s.databases
    requires InsertedOk(x, s.extension, s.registered, s'.usedKeys, s.gone)
    requires forall u :: u in s.txs && u != t ==> x.inserted.Keys !! s.txs[u].inserted.Keys
    requires TxInv(s.txs, s.databases, s.extension, s.registered, s.usedKeys, s.gone)
    ensures TxInv(s'.txs, s'.databases, s'.extension, s'.registered, s'.usedKeys, s'.gone)
  {
    forall u | u in s.txs
      ensures InsertedOk(s.txs[u], s.extension, s.registered, s'.usedKeys, s.gone)
    {
      assert InsertedOk(s.txs[u], s.extension, s.registered, s.usedKeys, s.gone);
    }
  }

  ghost predicate TxAsks(s: State, x: Tx)
    requires x.db in s.databases
  {
    s.databases[x.db] || (
      && (x.inserted != map[] && !x.pending ==> x.requested)
      && (x.requested ==> !x.lock.NoLock? && Waiting(s.starters, s.sprocs, x.db)))
  }

  lemma TxChangeKeepsRequests(s: State, s': State, t: TxId, x: Tx)
    requires TxChanged(s, s', t, x) && x.db in s.databases && TxAsks(s, x)
    requires RequestInv(s.starters, s.sprocs, s.txs, s.databases)
    ensures RequestInv(s'.starters, s'.sprocs, s'.txs, s'.databases)
  {
  }

  lemma TxChangeKeepsInv(s: State, s': State, t: TxId, x: Tx)
    requires Inv(s) && TxChanged(s, s', t, x) && x.db in s.databases && TxAsks(s, x)
    requires forall k :: k in s'.usedKeys && k !in s.usedKeys ==> k.db in s.usedDbs && Packable(k)
    requires InsertedOk(x, s.extension, s.registered, s'.usedKeys, s.gone)
    requires forall u :: u in s.txs && u != t ==> x.inserted.Keys !! s.txs[u].inserted.Keys
    ensures Inv(s')
  {
    TxChangeKeepsTx(s, s', t, x);
    TxChangeKeepsRequests(s, s', t, x);
  }

  lemma OpenTxFacts(s: State, t: TxId)
    requires t in s.txs
    requires TxInv(s.txs, s.databases, s.extension, s.registered, s.usedKeys, s.gone)
    requires RequestInv(s.starters, s.sprocs, s.txs, s.databases)
    ensures s.txs[t].db in s.databases
    ensures InsertedOk(s.txs[t], s.extension, s.registered, s.usedKeys, s.gone)
    ensures forall u :: u in s.txs && u != t ==> s.txs[t].inserted.Keys !! s.txs[u].inserted.Keys
    ensures TxAsks(s, s.txs[t])
  {
  }

  lemma BeginKeepsInv(s: State, s': State, t: TxId, db: Oid)
    requires Inv(s) && TxEnabled(s, t, Begin(db)) && s' == TxStep(s, t, Begin(db))
    ensures Inv(s')
  {
    TxChangeKeepsInv(s, s', t, s'.txs[t]);
  }

  lemma RegisterKeepsInv(s: State, s': State, t: TxId, key: Key, ext: Oid)
    requires Inv(s) && TxEnabled(s, t, Register(key, ext)) && s' == TxStep(s, t, Register(key, ext))
    ensures Inv(s')
  {
    OpenTxFacts(s, t);
    forall u | u in s.txs && u != t
      ensures s'.txs[t].inserted.Keys !! s.txs[u].inserted.Keys
    {
      assert InsertedOk(s.txs[u], s.extension, s.registered, s.usedKeys, s.gone);
    }
    TxChangeKeepsInv(s, s', t, s'.txs[t]);
  }

  lemma SimpleTxKeepsInv(s: State, s': State, t: TxId, a: TxAct)
    requires Inv(s) && TxEnabled(s, t, a) && s' == TxStep(s, t, a)
    requires a.CreateBase? || a.Deregister? || a.TakeShare? || a.TakeExclusive?
    ensures Inv(s')
  {
    OpenTxFacts(s, t);
    TxChangeKeepsInv(s, s', t, s'.txs[t]);
  }

  lemma RequestKeepsInv(s: State, s': State, t: TxId)
    requires Inv(s) && TxEnabled(s, t, Request) && s' == TxStep(s, t, Request)
    ensures Inv(s')
  {
    var m := s.(starters := s'.starters);
    RequestEffect(s, m, s', t);
    RaiseKeepsInv(s, m);
    RequestedKeepsInv(m, s', t);
  }

  lemma RequestEffect(s: State, m: State, s': State, t: TxId)
    requires TxEnabled(s, t, Request) && s' == TxStep(s, t, Request) && m == s.(starters := s'.starters)
    ensures Raised(s.starters, m.starters)
    ensures s' == m.(txs := m.txs[t := m.txs[t].(pending := false, requested := true)])
    ensures !IsTemplate(m, m.txs[t].db) && m.txs[t].db in m.starters ==> Asked(m.starters, m.txs[t].db)
    ensures TxEnabled(m, t, Request)
  {
  }

  lemma RequestedKeepsInv(s: State, s': State, t: TxId)
    requires Inv(s) && TxEnabled(s, t, Request)
    requires s' == s.(txs := s.txs[t := s.txs[t].(pending := false, requested := true)])
    requires !IsTemplate(s, s.txs[t].db) && s.txs[t].db in s.starters ==> Asked(s.starters, s.txs[t].db)
    ensures Inv(s')
  {
    OpenTxFacts(s, t);
    TxChangeKeepsInv(s, s', t, s'.txs[t]);
  }

  lemma DropEffect(s: State, t: TxId, target: DropTarget, database: bool)
    requires TxEnabled(s, t, Drop(target, database))
    ensures var s' := TxStep(s, t, Drop(target, database));
            && t in s'.txs
            && s' == s.(starters := s'.starters, workers := s'.workers, txs := s.txs[t := s'.txs[t]])
            && Raised(s.starters, s'.starters) && MarkedOnly(s.workers, s'.workers)
            && s'.txs[t] == s.txs[t].(inserted := s'.txs[t].inserted, deleted := s'.txs[t].deleted,
                                      dropsBase := s'.txs[t].dropsBase, dropsDatabase := s'.txs[t].dropsDatabase)
            && s'.txs[t].inserted.Keys <= s.txs[t].inserted.Keys
  {
  }

  lemma DropKeepsInv(s: State, s': State, t: TxId, target: DropTarget, database: bool)
    requires Inv(s) && TxEnabled(s, t, Drop(target, database)) && s' == TxStep(s, t, Drop(target, database))
    ensures Inv(s')
  {
    DropEffect(s, t, target, database);
    var m := s.(starters := s'.starters);
    RaiseKeepsInv(s, m);
    var n := m.(workers := s'.workers);
    MarkKeepsInv(m, n);
    ShrinkTxKeepsInv(n, s', t);
  }

  lemma ShrinkTxKeepsInv(s: State, s': State, t: TxId)
    requires Inv(s) && t in s.txs && t in s'.txs && TxChanged(s, s', t, s'.txs[t]) && s'.usedKeys == s.usedKeys
    requires s'.txs[t].inserted.Keys <= s.txs[t].inserted.Keys
    requires s'.txs[t] == s.txs[t].(inserted := s'.txs[t].inserted, deleted := s'.txs[t].deleted,
                                    dropsBase := s'.txs[t].dropsBase, dropsDatabase := s'.txs[t].dropsDatabase)
    ensures Inv(s')
  {
    OpenTxFacts(s, t);
    TxChangeKeepsInv(s, s', t, s'.txs[t]);
  }

  lemma AbortKeepsInv(s: State, s': State, t: TxId)
    requires Inv(s) && TxEnabled(s, t, Abort) && s' == TxStep(s, t, Abort)
    ensures Inv(s')
  {
  }

  // ----- committing -----

  lemma CommitKeepsReg(s: State, t: TxId)
    requires TxEnabled(s, t, Commit)
    requires RegInv(s.databases, s.extension, s.registered, s.usedDbs, s.usedKeys, s.gone)
    requires TxInv(s.txs, s.databases, s.extension, s.registered, s.usedKeys, s.gone)
    ensures var s' := TxStep(s, t, Commit);
            RegInv(s'.databases, s'.extension, s'.registered, s'.usedDbs, s'.usedKeys, s'.gone)
  {
    assert InsertedOk(s.txs[t], s.extension, s.registered, s.usedKeys, s.gone);
  }

  lemma CommitKeepsTx(s: State, t: TxId)
    requires TxEnabled(s, t, Commit)
    requires TxInv(s.txs, s.databases, s.extension, s.registered, s.usedKeys, s.gone)
    ensures var s' := TxStep(s, t, Commit);
            TxInv(s'.txs, s'.databases, s'.extension, s'.registered, s'.usedKeys, s'.gone)
  {
    var s' := TxStep(s, t, Commit);
    forall u | u in s'.txs
      ensures s'.txs[u].db in s'.databases
      ensures InsertedOk(s'.txs[u], s'.extension, s'.registered, s'.usedKeys, s'.gone)
    {
      assert InsertedOk(s.txs[u], s.extension, s.registered, s.usedKeys, s.gone);
      assert s.txs[t].inserted.Keys !! s.txs[u].inserted.Keys;
    }
  }

  lemma CommitKnows(s: State, t: TxId, k: Key)
    requires TxEnabled(s, t, Commit) && Known(s.registered, s.gone, k)
    ensures var s' := TxStep(s, t, Commit); Known(s'.registered, s'.gone, k)
  {
    assert k in s.registered && k !in Removed(s, t) ==> k in s.registered - Removed(s, t);
  }

  lemma CommitKeepsHash(s: State, t: TxId)
    requires TxEnabled(s, t, Commit)
    requires StarterHashInv(s.starters, s.server, s.databases, s.usedDbs)
    requires WorkerHashInv(s.workers, s.server, s.databases, s.registered, s.gone)
    requires PlacedInv(s.starters, s.sprocs, s.server, s.databases, s.usedDbs)
    ensures var s' := TxStep(s, t, Commit);
            && StarterHashInv(s'.starters, s'.server, s'.databases, s'.usedDbs)
            && WorkerHashInv(s'.workers, s'.server, s'.databases, s'.registered, s'.gone)
            && PlacedInv(s'.starters, s'.sprocs, s'.server, s'.databases, s'.usedDbs)
  {
    var s' := TxStep(s, t, Commit);
    forall k | k in s.workers
      ensures Known(s'.registered, s'.gone, k)
    {
      CommitKnows(s, t, k);
    }
    forall p | p in s.sprocs
      ensures Placed(s'.starters, s'.server, s'.databases, s'.usedDbs, s'.sprocs[p])
    {
      assert Placed(s.starters, s.server, s.databases, s.usedDbs, s.sprocs[p]);
    }
  }

  lemma CommitKeepsWorkers(s: State, t: TxId)
    requires TxEnabled(s, t, Commit)
    requires ListInv(s.sprocs, s.registered, s.gone)
    requires ForgetInv(s.sprocs, s.workers, s.wprocs, s.gone)
    requires WorkerInv(s.workers, s.wprocs, s.sprocs, s.registered, s.gone)
    requires BackoffInv(s.lastFail, s.clock, s.gone, s.sprocs, s.workers, s.wprocs)
    ensures var s' := TxStep(s, t, Commit);
            && ListInv(s'.sprocs, s'.registered, s'.gone)
            && ForgetInv(s'.sprocs, s'.workers, s'.wprocs, s'.gone)
            && WorkerInv(s'.workers, s'.wprocs, s'.sprocs, s'.registered, s'.gone)
            && BackoffInv(s'.lastFail, s'.clock, s'.gone, s'.sprocs, s'.workers, s'.wprocs)
  {
    var s' := TxStep(s, t, Commit);
    forall k | Known(s.registered, s.gone, k)
      ensures Known(s'.registered, s'.gone, k)
    {
      CommitKnows(s, t, k);
    }
    forall p | p in s.sprocs
      ensures ListKnown(s'.registered, s'.gone, s'.sprocs[p])
    {
      assert ListKnown(s.registered, s.gone, s.sprocs[p]);
    }
    assert s.gone <= s'.gone;
    GoneKeepsWorkers(s, s');
  }

  lemma GoneKeepsWorkers(s: State, s': State)
    requires s.gone <= s'.gone
    requires s'.workers == s.workers && s'.wprocs == s.wprocs && s'.sprocs == s.sprocs
    requires s'.lastFail == s.lastFail && s'.clock == s.clock
    requires forall k :: Known(s.registered, s.gone, k) ==> Known(s'.registered, s'.gone, k)
    requires ForgetInv(s.sprocs, s.workers, s.wprocs, s.gone)
    requires WorkerInv(s.workers, s.wprocs, s.sprocs, s.registered, s.gone)
    requires BackoffInv(s.lastFail, s.clock, s.gone, s.sprocs, s.workers, s.wprocs)
    ensures ForgetInv(s'.sprocs, s'.workers, s'.wprocs, s'.gone)
    ensures WorkerInv(s'.workers, s'.wprocs, s'.sprocs, s'.registered, s'.gone)
    ensures BackoffInv(s'.lastFail, s'.clock, s'.gone, s'.sprocs, s'.workers, s'.wprocs)
  {
    forall k | Retired(s.gone, s.sprocs, k)
      ensures Retired(s'.gone, s'.sprocs, k)
    {
    }
  }

  /** The moment a registration becomes visible: the starter it asked for is still to come. */
  lemma CommitKeepsRegistrations(s: State, t: TxId)
    requires TxEnabled(s, t, Commit)
    requires TxInv(s.txs, s.databases, s.extension, s.registered, s.usedKeys, s.gone)
    requires RequestInv(s.starters, s.sprocs, s.txs, s.databases)
    requires SeenInv(s.starters, s.sprocs, s.registered, s.seen, s.databases)
    requires EntryInv(s.starters, s.workers, s.sprocs, s.registered, s.databases)
    ensures var s' := TxStep(s, t, Commit);
            && RequestInv(s'.starters, s'.sprocs, s'.txs, s'.databases)
            && SeenInv(s'.starters, s'.sprocs, s'.registered, s'.seen, s'.databases)
            && EntryInv(s'.starters, s'.workers, s'.sprocs, s'.registered, s'.databases)
  {
    var s' := TxStep(s, t, Commit);
    OpenTxFacts(s, t);
    forall k | k in s'.registered && k.db in s'.databases && !s'.databases[k.db] && k !in s.registered
      ensures Unread(s'.starters, s'.sprocs, k.db)
    {
      assert k in s.txs[t].inserted;
      WaitingIsUnread(s.starters, s.sprocs, k.db);
    }
  }

  lemma WaitingIsUnread(h: StarterHash, sprocs: map<Pid, StarterProc>, db: Oid)
    requires Waiting(h, sprocs, db)
    ensures Unread(h, sprocs, db)
  {
    if StarterBeforeLock(sprocs, db) {
      var p :| p in sprocs && sprocs[p].db == db && BeforeLock(sprocs[p].phase);
      assert BeforeRead(sprocs[p].phase);
    }
  }

  lemma CommitKeepsInv(s: State, s': State, t: TxId)
    requires Inv(s) && TxEnabled(s, t, Commit) && s' == TxStep(s, t, Commit)
    ensures Inv(s')
  {
    CommitKeepsReg(s, t);
    CommitKeepsTx(s, t);
    CommitKeepsHash(s, t);
    CommitKeepsWorkers(s, t);
    CommitKeepsRegistrations(s, t);
  }

  lemma AskKeepsInv(s: State, s': State, t: TxId, a: TxAct)
    requires Inv(s) && TxEnabled(s, t, a) && s' == TxStep(s, t, a) && (a.Mark? || a.Request? || a.Drop?)
    ensures Inv(s')
  {
    match a
    case Mark(key) => MarkStepKeepsInv(s, s', t, key);
    case Request => RequestKeepsInv(s, s', t);
    case Drop(target, database) => DropKeepsInv(s, s', t, target, database);
  }

  lemma EndKeepsInv(s: State, s': State, t: TxId, a: TxAct)
    requires Inv(s) && TxEnabled(s, t, a) && s' == TxStep(s, t, a) && (a.Commit? || a.Abort?)
    ensures Inv(s')
  {
    match a
    case Commit => CommitKeepsInv(s, s', t);
    case Abort => AbortKeepsInv(s, s', t);
  }

  lemma NewKeepsInv(s: State, s': State, t: TxId, a: TxAct)
    requires Inv(s) && TxEnabled(s, t, a) && s' == TxStep(s, t, a) && (a.Begin? || a.Register?)
    ensures Inv(s')
  {
    match a
    case Begin(db) => BeginKeepsInv(s, s', t, db);
    case Register(key, ext) => RegisterKeepsInv(s, s', t, key, ext);
  }

  lemma TxKeepsInv(s: State, t: TxId, a: TxAct)
    requires Inv(s) && TxEnabled(s, t, a)
    ensures Inv(TxStep(s, t, a))
  {
    if a.Mark? || a.Request? || a.Drop? {
      AskKeepsInv(s, TxStep(s, t, a), t, a);
    } else if a.Commit? || a.Abort? {
      EndKeepsInv(s, TxStep(s, t, a), t, a);
    } else if a.Begin? || a.Register? {
      NewKeepsInv(s, TxStep(s, t, a), t, a);
    } else {
      SimpleTxKeepsInv(s, TxStep(s, t, a), t, a);
    }
  }

  // ----- the surroundings -----

  lemma CreateKeepsReg(s: State, a: WorldAct)
    requires WorldEnabled(s, a) && a.CreateDatabase?
    requires RegInv(s.databases, s.extension, s.registered, s.usedDbs, s.usedKeys, s.gone)
    ensures var s' := WorldStep(s, a);
            && RegInv(s'.databases, s'.extension, s'.registered, s'.usedDbs, s'.usedKeys, s'.gone)
            && (forall k :: k in s.registered ==> k in s'.registered)
            && (forall k :: k in s'.registered ==> k in s.registered || k.db == a.db)
  {
    var s' := WorldStep(s, a);
    forall k | k in s'.registered && k !in s.registered
      ensures k.db == a.db && Key(a.template, k.id) in s.registered
    {
    }
  }

  lemma CreateKeepsTx(s: State, a: WorldAct)
    requires WorldEnabled(s, a) && a.CreateDatabase?
    requires RegInv(s.databases, s.extension, s.registered, s.usedDbs, s.usedKeys, s.gone)
    requires TxInv(s.txs, s.databases, s.extension, s.registered, s.usedKeys, s.gone)
    requires RequestInv(s.starters, s.sprocs, s.txs, s.databases)
    ensures var s' := WorldStep(s, a);
            && TxInv(s'.txs, s'.databases, s'.extension, s'.registered, s'.usedKeys, s'.gone)
            && RequestInv(s'.starters, s'.sprocs, s'.txs, s'.databases)
  {
    var s' := WorldStep(s, a);
    CreateKeepsReg(s, a);
    forall u | u in s'.txs
      ensures InsertedOk(s'.txs[u], s'.extension, s'.registered, s'.usedKeys, s'.gone)
    {
      assert InsertedOk(s.txs[u], s.extension, s.registered, s.usedKeys, s.gone);
    }
  }

  lemma CreateKeepsHash(s: State, a: WorldAct)
    requires WorldEnabled(s, a) && a.CreateDatabase?
    requires RegInv(s.databases, s.extension, s.registered, s.usedDbs, s.usedKeys, s.gone)
    requires StarterHashInv(s.starters, s.server, s.databases, s.usedDbs)
    requires WorkerHashInv(s.workers, s.server, s.databases, s.registered, s.gone)
    requires PlacedInv(s.starters, s.sprocs, s.server, s.databases, s.usedDbs)
    requires ListInv(s.sprocs, s.registered, s.gone)
    ensures var s' := WorldStep(s, a);
            && StarterHashInv(s'.starters, s'.server, s'.databases, s'.usedDbs)
            && WorkerHashInv(s'.workers, s'.server, s'.databases, s'.registered, s'.gone)
            && PlacedInv(s'.starters, s'.sprocs, s'.server, s'.databases, s'.usedDbs)
            && ListInv(s'.sprocs, s'.registered, s'.gone)
  {
    var s' := WorldStep(s, a);
    CreateKeepsReg(s, a);
    forall p | p in s.sprocs
      ensures Placed(s'.starters, s'.server, s'.databases, s'.usedDbs, s'.sprocs[p])
      ensures ListKnown(s'.registered, s'.gone, s'.sprocs[p])
    {
      assert Placed(s.starters, s.server, s.databases, s.usedDbs, s.sprocs[p]);
      assert ListKnown(s.registered, s.gone, s.sprocs[p]);
    }
  }

  lemma CreateKeepsRegistrations(s: State, a: WorldAct)
    requires WorldEnabled(s, a) && a.CreateDatabase?
    requires RegInv(s.databases, s.extension, s.registered, s.usedDbs, s.usedKeys, s.gone)
    requires StarterHashInv(s.starters, s.server, s.databases, s.usedDbs)
    requires SeenInv(s.starters, s.sprocs, s.registered, s.seen, s.databases)
    requires EntryInv(s.starters, s.workers, s.sprocs, s.registered, s.databases)
    ensures var s' := WorldStep(s, a);
            && SeenInv(s'.starters, s'.sprocs, s'.registered, s'.seen, s'.databases)
            && EntryInv(s'.starters, s'.workers, s'.sprocs, s'.registered, s'.databases)
  {
    var s' := WorldStep(s, a);
    CreateKeepsReg(s, a);
    assert Asked(s'.starters, a.db);
    assert forall d :: d in s.databases ==> d != a.db && s'.databases[d] == s.databases[d];
  }

  lemma CreateKeepsInv(s: State, a: WorldAct)
    requires Inv(s) && WorldEnabled(s, a) && a.CreateDatabase?
    ensures Inv(WorldStep(s, a))
  {
    var s' := WorldStep(s, a);
    CreateKeepsReg(s, a);
    CreateKeepsTx(s, a);
    CreateKeepsHash(s, a);
    CreateKeepsRegistrations(s, a);
    GoneKeepsWorkers(s, s');
  }

  lemma WorldKeepsInv(s: State, a: WorldAct)
    requires Inv(s) && WorldEnabled(s, a)
    ensures Inv(WorldStep(s, a))
  {
    match a
    case CreateDatabase(_, _, _) => CreateKeepsInv(s, a);
    case Tick(dt) =>
    case CrashRestart => CrashKeepsInv(s);
  }

  lemma CrashKeepsInv(s: State)
    requires Inv(s)
    ensures Inv(DoCrash(s))
  {
    var s' := DoCrash(s);
    assert forall db :: Asked(s'.starters, db);
  }
}
