/** The server starter's steps keep the launcher's invariants. */
module LauncherServerProofs {
  import opened LauncherShm
  import opened LauncherRuns
  import opened LauncherInvariants

  lemma CleanKeepsStarters(s: State)
    requires ServerEnabled(s, Clean)
    requires StarterInv(s.starters, s.sprocs)
    requires StarterHashInv(s.starters, s.server, s.databases, s.usedDbs)
    requires PlacedInv(s.starters, s.sprocs, s.server, s.databases, s.usedDbs)
    ensures var s' := ServerStep(s, Clean);
            && StarterInv(s'.starters, s'.sprocs)
            && StarterHashInv(s'.starters, s'.server, s'.databases, s'.usedDbs)
            && PlacedInv(s'.starters, s'.sprocs, s'.server, s'.databases, s'.usedDbs)
  {
    var s' := ServerStep(s, Clean);
    forall p | p in s'.sprocs
      ensures OwnsStarter(s'.starters, p, s'.sprocs[p])
      ensures Placed(s'.starters, s'.server, s'.databases, s'.usedDbs, s'.sprocs[p])
    {
      assert OwnsStarter(s.starters, p, s.sprocs[p]);
      assert Placed(s.starters, s.server, s.databases, s.usedDbs, s.sprocs[p]);
    }
  }

  lemma CleanRetires(s: State, k: Key)
    requires ServerEnabled(s, Clean)
    requires k in s.workers && k.db !in s.server.dbs
    requires RegInv(s.databases, s.extension, s.registered, s.usedDbs, s.usedKeys, s.gone)
    requires WorkerHashInv(s.workers, s.server, s.databases, s.registered, s.gone)
    requires PlacedInv(s.starters, s.sprocs, s.server, s.databases, s.usedDbs)
    requires ListInv(s.sprocs, s.registered, s.gone)
    ensures k.db !in s.databases && k !in s.registered && Retired(s.gone, s.sprocs, k)
  {
    forall p | p in s.sprocs
      ensures k !in ListOf(s.sprocs[p].phase)
    {
      assert Placed(s.starters, s.server, s.databases, s.usedDbs, s.sprocs[p]);
      assert ListKnown(s.registered, s.gone, s.sprocs[p]);
    }
  }

  lemma CleanKeepsWorkers(s: State)
    requires ServerEnabled(s, Clean) && Inv(s)
    ensures var s' := ServerStep(s, Clean);
            WorkerInv(s'.workers, s'.wprocs, s'.sprocs, s'.registered, s'.gone)
  {
    var s' := ServerStep(s, Clean);
    forall q | q in s.wprocs && !s.wprocs[q].phase.WDropped?
      ensures OwnsWorker(s'.workers, q, s'.wprocs[q]) || Retired(s'.gone, s'.sprocs, s'.wprocs[q].key)
    {
      var k := s.wprocs[q].key;
      assert OwnsWorker(s.workers, q, s.wprocs[q]) || Retired(s.gone, s.sprocs, k);
      if k in s.workers && k.db !in s.server.dbs {
        CleanRetires(s, k);
      }
    }
  }

  lemma CleanKeepsEntries(s: State)
    requires ServerEnabled(s, Clean) && Inv(s)
    ensures var s' := ServerStep(s, Clean);
            && RequestInv(s'.starters, s'.sprocs, s'.txs, s'.databases)
            && SeenInv(s'.starters, s'.sprocs, s'.registered, s'.seen, s'.databases)
            && EntryInv(s'.starters, s'.workers, s'.sprocs, s'.registered, s'.databases)
  {
    var s' := ServerStep(s, Clean);
    forall db | Asked(s.starters, db)
      ensures Asked(s'.starters, db)
    {
    }
    forall k | k in s.registered && k in s.workers
      ensures k in s'.workers
    {
      if k.db !in s.server.dbs {
        CleanRetires(s, k);
      }
    }
  }

  lemma CleanKeepsBackoff(s: State)
    requires ServerEnabled(s, Clean) && Inv(s)
    ensures var s' := ServerStep(s, Clean);
            && ForgetInv(s'.sprocs, s'.workers, s'.wprocs, s'.gone)
            && WorkerHashInv(s'.workers, s'.server, s'.databases, s'.registered, s'.gone)
            && BackoffInv(s'.lastFail, s'.clock, s'.gone, s'.sprocs, s'.workers, s'.wprocs)
  {
    var s' := ServerStep(s, Clean);
    forall k | k in s.lastFail && Cooling(s.workers, s.wprocs, k, s.lastFail[k])
      ensures Retired(s'.gone, s'.sprocs, k) || Cooling(s'.workers, s'.wprocs, k, s'.lastFail[k])
    {
      if k.db !in s.server.dbs {
        CleanRetires(s, k);
      }
    }
  }

  lemma CleanKeepsInv(s: State)
    requires ServerEnabled(s, Clean) && Inv(s)
    ensures Inv(ServerStep(s, Clean))
  {
    CleanKeepsStarters(s);
    CleanKeepsWorkers(s);
    CleanKeepsEntries(s);
    CleanKeepsBackoff(s);
  }

  lemma NoStarterWhenStartable(s: State, db: Oid, p: Pid)
    requires s.server.Listing? && db in s.server.dbs && !StarterBusy(s.starters, db)
    requires StarterInv(s.starters, s.sprocs)
    requires PlacedInv(s.starters, s.sprocs, s.server, s.databases, s.usedDbs)
    requires p in s.sprocs
    ensures s.sprocs[p].db != db
  {
    assert Placed(s.starters, s.server, s.databases, s.usedDbs, s.sprocs[p]);
    assert OwnsStarter(s.starters, p, s.sprocs[p]);
  }

  /** The entry of a database without a live starter is rewritten. */
  lemma RewriteKeepsPlaces(s: State, s': State, db: Oid, e: StarterEntry)
    requires s.server.Listing? && db in s.server.dbs
    requires s' == s.(starters := s.starters[db := e])
    requires forall p :: p in s.sprocs ==> s.sprocs[p].db != db
    requires Inv(s)
    ensures StarterInv(s'.starters, s'.sprocs)
    ensures StarterHashInv(s'.starters, s'.server, s'.databases, s'.usedDbs)
    ensures PlacedInv(s'.starters, s'.sprocs, s'.server, s'.databases, s'.usedDbs)
  {
    forall p | p in s.sprocs
      ensures OwnsStarter(s'.starters, p, s'.sprocs[p])
      ensures Placed(s'.starters, s'.server, s'.databases, s'.usedDbs, s.sprocs[p])
    {
      assert OwnsStarter(s.starters, p, s.sprocs[p]);
      assert Placed(s.starters, s.server, s.databases, s.usedDbs, s.sprocs[p]);
    }
  }

  /** No slot: a missing entry is created, asking for a starter. */
  lemma FailedKeepsInv(s: State, s': State, db: Oid)
    requires s.server.Listing? && db in s.server.dbs && !StarterBusy(s.starters, db)
    requires s' == s.(starters := s.starters[db := StarterOrNew(s.starters, db)])
    requires Inv(s)
    ensures Inv(s')
  {
    forall p | p in s.sprocs ensures s.sprocs[p].db != db { NoStarterWhenStartable(s, db, p); }
    RewriteKeepsPlaces(s, s', db, StarterOrNew(s.starters, db));
    AskedKeepsRequests(s, s');
  }

  lemma SpawnKeepsInv(s: State, s': State, db: Oid, pid: Pid, e: StarterEntry)
    requires s.server.Listing? && db in s.server.dbs && !StarterBusy(s.starters, db) && FreshPid(s, pid)
    requires e.pid == 0 && e.state.Starting?
    requires s' == s.(starters := s.starters[db := e], sprocs := s.sprocs[pid := StarterProc(db, SSpawned)])
    requires Inv(s)
    ensures Inv(s')
  {
    forall p | p in s.sprocs ensures s.sprocs[p].db != db { NoStarterWhenStartable(s, db, p); }
    var m := s.(starters := s.starters[db := e]);
    RewriteKeepsPlaces(s, m, db, e);
    SpawnKeepsPlaces(m, s', db, pid);
    SpawnKeepsLists(s, s', db, pid);
    SpawnKeepsRequests(s, s', db, pid);
    assert ListsShrink(s.sprocs, s'.sprocs);
    ShrinkKeepsWorkers(s, s');
  }

  lemma SpawnKeepsPlaces(m: State, s': State, db: Oid, pid: Pid)
    requires m.server.Listing? && db in m.server.dbs && FreshPid(m, pid)
    requires db in m.starters && m.starters[db].pid == 0 && m.starters[db].state.Starting?
    requires s' == m.(sprocs := m.sprocs[pid := StarterProc(db, SSpawned)])
    requires forall p :: p in m.sprocs ==> m.sprocs[p].db != db
    requires StarterInv(m.starters, m.sprocs)
    requires StarterHashInv(m.starters, m.server, m.databases, m.usedDbs)
    requires PlacedInv(m.starters, m.sprocs, m.server, m.databases, m.usedDbs)
    ensures StarterInv(s'.starters, s'.sprocs)
    ensures PlacedInv(s'.starters, s'.sprocs, s'.server, s'.databases, s'.usedDbs)
  {
  }

  lemma SpawnKeepsLists(s: State, s': State, db: Oid, pid: Pid)
    requires FreshPid(s, pid)
    requires s'.sprocs == s.sprocs[pid := StarterProc(db, SSpawned)]
    requires ListInv(s.sprocs, s.registered, s.gone)
    requires ForgetInv(s.sprocs, s.workers, s.wprocs, s.gone)
    ensures ListInv(s'.sprocs, s.registered, s.gone)
    ensures ForgetInv(s'.sprocs, s.workers, s.wprocs, s.gone)
  {
  }

  lemma SpawnKeepsRequests(s: State, s': State, db: Oid, pid: Pid)
    requires FreshPid(s, pid)
    requires s' == s.(starters := s'.starters, sprocs := s.sprocs[pid := StarterProc(db, SSpawned)])
    requires forall d :: d != db && Asked(s.starters, d) ==> Asked(s'.starters, d)
    requires RequestInv(s.starters, s.sprocs, s.txs, s.databases)
    requires SeenInv(s.starters, s.sprocs, s.registered, s.seen, s.databases)
    requires EntryInv(s.starters, s.workers, s.sprocs, s.registered, s.databases)
    ensures RequestInv(s'.starters, s'.sprocs, s'.txs, s'.databases)
    ensures SeenInv(s'.starters, s'.sprocs, s'.registered, s'.seen, s'.databases)
    ensures EntryInv(s'.starters, s'.workers, s'.sprocs, s'.registered, s'.databases)
  {
    assert s'.sprocs[pid].db == db && BeforeLock(s'.sprocs[pid].phase) && BeforeRead(s'.sprocs[pid].phase);
    assert forall p :: p in s.sprocs ==> p in s'.sprocs && s'.sprocs[p] == s.sprocs[p];
    forall d
      ensures Waiting(s.starters, s.sprocs, d) ==> Waiting(s'.starters, s'.sprocs, d)
      ensures Unread(s.starters, s.sprocs, d) ==> Unread(s'.starters, s'.sprocs, d)
    {
    }
    forall k | AboutToStart(s.sprocs, k)
      ensures AboutToStart(s'.sprocs, k)
    {
    }
  }

  lemma StartEffect(s: State, db: Oid, pid: Pid, slot: bool)
    requires ServerEnabled(s, Start(db, pid, slot))
    ensures var s' := ServerStep(s, Start(db, pid, slot));
            var e := StarterOrNew(s.starters, db).(needsRestart := false, state := Starting);
            match StartStarterResult(s.starters, db, db in s.databases, slot)
            case Started =>
              s' == s.(starters := s.starters[db := e], sprocs := s.sprocs[pid := StarterProc(db, SSpawned)])
            case Failed => s' == s.(starters := s.starters[db := StarterOrNew(s.starters, db)])
            case _ => s' == s
  {
  }

  lemma StartKeepsInv(s: State, s': State, db: Oid, pid: Pid, slot: bool)
    requires ServerEnabled(s, Start(db, pid, slot)) && Inv(s) && s' == ServerStep(s, Start(db, pid, slot))
    ensures Inv(s')
  {
    StartEffect(s, db, pid, slot);
    var r := StartStarterResult(s.starters, db, db in s.databases, slot);
    if r.Started? {
      SpawnKeepsInv(s, s', db, pid, StarterOrNew(s.starters, db).(needsRestart := false, state := Starting));
    } else if r.Failed? {
      FailedKeepsInv(s, s', db);
    }
  }

  lemma ServerKeepsInv(s: State, a: ServerAct)
    requires ServerEnabled(s, a) && Inv(s)
    ensures Inv(ServerStep(s, a))
  {
    match a
    case List => ListKeepsPlaces(s);
    case Clean => CleanKeepsInv(s);
    case Start(db, pid, slot) => StartKeepsInv(s, ServerStep(s, a), db, pid, slot);
    case Rest => RestKeepsPlaces(s);
  }

  lemma ListKeepsPlaces(s: State)
    requires ServerEnabled(s, List) && Inv(s)
    ensures Inv(ServerStep(s, List))
  {
    var s' := ServerStep(s, List);
    forall p | p in s.sprocs
      ensures Placed(s'.starters, s'.server, s'.databases, s'.usedDbs, s.sprocs[p])
    {
      assert Placed(s.starters, s.server, s.databases, s.usedDbs, s.sprocs[p]);
    }
  }

  lemma RestKeepsPlaces(s: State)
    requires Inv(s)
    ensures Inv(ServerStep(s, Rest))
  {
    var s' := ServerStep(s, Rest);
    forall p | p in s.sprocs
      ensures Placed(s'.starters, s'.server, s'.databases, s'.usedDbs, s.sprocs[p])
    {
      assert Placed(s.starters, s.server, s.databases, s.usedDbs, s.sprocs[p]);
    }
  }
}
