/** The database starters' steps keep the launcher's invariants. */
module LauncherStarterProofs {
  import opened LauncherShm
  import opened LauncherRuns
  import opened LauncherInvariants

  // ----- a starter changes its phase and nothing else -----

  ghost predicate Moved(s: State, s': State, p: Pid, ph: StarterPhase) {
    p in s.sprocs && s' == s.(sprocs := s.sprocs[p := StarterProc(s.sprocs[p].db, ph)])
  }

  lemma MoveKeepsStarters(s: State, s': State, p: Pid, ph: StarterPhase)
    requires Moved(s, s', p, ph)
    requires IsAnnounced(ph) == IsAnnounced(s.sprocs[p].phase)
    requires IsConnected(ph) ==> s.sprocs[p].db in s.databases
    requires StarterInv(s.starters, s.sprocs)
    requires PlacedInv(s.starters, s.sprocs, s.server, s.databases, s.usedDbs)
    ensures StarterInv(s'.starters, s'.sprocs)
    ensures PlacedInv(s'.starters, s'.sprocs, s'.server, s'.databases, s'.usedDbs)
  {
    assert OwnsStarter(s.starters, p, s.sprocs[p]);
    assert Placed(s.starters, s.server, s.databases, s.usedDbs, s.sprocs[p]);
  }

  lemma MoveKeepsLists(s: State, s': State, p: Pid, ph: StarterPhase)
    requires Moved(s, s', p, ph)
    requires ListOf(ph).Keys <= ListOf(s.sprocs[p].phase).Keys
    requires (ph.SListed? || ph.SNoExtension?) ==> ForgetInv(s'.sprocs, s'.workers, s'.wprocs, s'.gone)
    requires ListInv(s.sprocs, s.registered, s.gone)
    requires ForgetInv(s.sprocs, s.workers, s.wprocs, s.gone)
    ensures ListInv(s'.sprocs, s'.registered, s'.gone)
    ensures ForgetInv(s'.sprocs, s'.workers, s'.wprocs, s'.gone)
    ensures ListsShrink(s.sprocs, s'.sprocs)
  {
    assert ListKnown(s.registered, s.gone, s.sprocs[p]);
  }

  /** What the move takes from requests, registrations and entries must be given elsewhere. */
  ghost predicate LockAllowed(s: State, p: Pid, ph: StarterPhase)
    requires p in s.sprocs
  {
    BeforeLock(s.sprocs[p].phase) ==>
      BeforeLock(ph) || Asked(s.starters, s.sprocs[p].db) || StarterLockFree(s, s.sprocs[p].db)
  }

  ghost predicate ReadAllowed(s: State, p: Pid, ph: StarterPhase)
    requires p in s.sprocs
  {
    BeforeRead(s.sprocs[p].phase) ==>
      BeforeRead(ph) || Asked(s.starters, s.sprocs[p].db) || forall k :: k in s.registered ==> k.db != s.sprocs[p].db
  }

  ghost predicate StartAllowed(s: State, p: Pid, ph: StarterPhase)
    requires p in s.sprocs
  {
    var db := s.sprocs[p].db;
    var was := s.sprocs[p].phase;
    forall k :: k in s.registered && k.db == db && (k in ListOf(was) || was.SSleeping?) ==>
      k in ListOf(ph) || ph.SSleeping? || k in s.workers || Asked(s.starters, db) || BeforeRead(ph)
  }

  lemma MoveKeepsOthers(s: State, s': State, p: Pid, ph: StarterPhase, d: Oid)
    requires Moved(s, s', p, ph)
    requires d != s.sprocs[p].db
    ensures Waiting(s.starters, s.sprocs, d) ==> Waiting(s'.starters, s'.sprocs, d)
    ensures Unread(s.starters, s.sprocs, d) ==> Unread(s'.starters, s'.sprocs, d)
    ensures forall k: Key :: k.db == d && AboutToStart(s.sprocs, k) ==> AboutToStart(s'.sprocs, k)
  {
    assert forall r :: r in s.sprocs && s.sprocs[r].db == d ==> r in s'.sprocs && s'.sprocs[r] == s.sprocs[r];
  }

  lemma OnlyStarter(sprocs: map<Pid, StarterProc>, h: StarterHash, p: Pid)
    requires p in sprocs && StarterInv(h, sprocs)
    ensures StarterBeforeLock(sprocs, sprocs[p].db) <==> BeforeLock(sprocs[p].phase)
    ensures StarterBeforeRead(sprocs, sprocs[p].db) <==> BeforeRead(sprocs[p].phase)
    ensures forall k: Key :: k.db == sprocs[p].db ==>
              (AboutToStart(sprocs, k) <==> k in ListOf(sprocs[p].phase) || sprocs[p].phase.SSleeping?)
  {
  }

  lemma MoveKeepsRequests(s: State, s': State, p: Pid, ph: StarterPhase)
    requires Moved(s, s', p, ph) && LockAllowed(s, p, ph)
    requires StarterInv(s.starters, s.sprocs) && StarterInv(s'.starters, s'.sprocs)
    requires RequestInv(s.starters, s.sprocs, s.txs, s.databases)
    ensures RequestInv(s'.starters, s'.sprocs, s'.txs, s'.databases)
  {
    OnlyStarter(s.sprocs, s.starters, p);
    OnlyStarter(s'.sprocs, s'.starters, p);
    forall t | t in s.txs && s.txs[t].requested && !s.txs[t].lock.NoLock? && Waiting(s.starters, s.sprocs, s.txs[t].db)
      ensures Waiting(s'.starters, s'.sprocs, s.txs[t].db)
    {
      if s.txs[t].db != s.sprocs[p].db {
        MoveKeepsOthers(s, s', p, ph, s.txs[t].db);
      }
    }
  }

  lemma MoveKeepsSeen(s: State, s': State, p: Pid, ph: StarterPhase)
    requires Moved(s, s', p, ph) && ReadAllowed(s, p, ph)
    requires StarterInv(s.starters, s.sprocs) && StarterInv(s'.starters, s'.sprocs)
    requires SeenInv(s.starters, s.sprocs, s.registered, s.seen, s.databases)
    ensures SeenInv(s'.starters, s'.sprocs, s'.registered, s'.seen, s'.databases)
  {
    OnlyStarter(s.sprocs, s.starters, p);
    OnlyStarter(s'.sprocs, s'.starters, p);
    forall k | k in s.registered && Unread(s.starters, s.sprocs, k.db)
      ensures Unread(s'.starters, s'.sprocs, k.db)
    {
      if k.db != s.sprocs[p].db {
        MoveKeepsOthers(s, s', p, ph, k.db);
      }
    }
  }

  lemma MoveKeepsEntries(s: State, s': State, p: Pid, ph: StarterPhase)
    requires Moved(s, s', p, ph) && ReadAllowed(s, p, ph) && StartAllowed(s, p, ph)
    requires StarterInv(s.starters, s.sprocs) && StarterInv(s'.starters, s'.sprocs)
    requires EntryInv(s.starters, s.workers, s.sprocs, s.registered, s.databases)
    ensures EntryInv(s'.starters, s'.workers, s'.sprocs, s'.registered, s'.databases)
  {
    OnlyStarter(s.sprocs, s.starters, p);
    OnlyStarter(s'.sprocs, s'.starters, p);
    forall k | k in s.registered && k !in s.workers && (Unread(s.starters, s.sprocs, k.db) || AboutToStart(s.sprocs, k))
      ensures Unread(s'.starters, s'.sprocs, k.db) || AboutToStart(s'.sprocs, k)
    {
      if k.db != s.sprocs[p].db {
        MoveKeepsOthers(s, s', p, ph, k.db);
      }
    }
  }

  lemma MoveKeepsInv(s: State, s': State, p: Pid, ph: StarterPhase)
    requires Inv(s) && Moved(s, s', p, ph)
    requires LockAllowed(s, p, ph) && ReadAllowed(s, p, ph) && StartAllowed(s, p, ph)
    requires IsAnnounced(ph) == IsAnnounced(s.sprocs[p].phase)
    requires IsConnected(ph) ==> s.sprocs[p].db in s.databases
    requires ListOf(ph).Keys <= ListOf(s.sprocs[p].phase).Keys
    requires (ph.SListed? || ph.SNoExtension?) ==> ForgetInv(s'.sprocs, s'.workers, s'.wprocs, s'.gone)
    ensures Inv(s')
  {
    MoveKeepsStarters(s, s', p, ph);
    MoveKeepsLists(s, s', p, ph);
    MoveKeepsRequests(s, s', p, ph);
    MoveKeepsSeen(s, s', p, ph);
    MoveKeepsEntries(s, s', p, ph);
    ShrinkKeepsWorkers(s, s');
  }

  // ----- announcing and leaving -----

  lemma AnnounceEffect(s: State, p: Pid)
    requires StarterEnabled(s, p, Announce)
    ensures var s', db := StarterStep(s, p, Announce), s.sprocs[p].db;
            if AnnounceStarterResult(s.starters, db).Announced?
            then db in s.starters && s' == s.(
                   starters := s.starters[db := s.starters[db].(pid := p, state := Running)],
                   sprocs := s.sprocs[p := StarterProc(db, SAnnounced)])
            else Moved(s, s', p, SExiting(0, false))
  {
  }

  lemma AnnouncedKeepsInv(s: State, s': State, p: Pid, db: Oid)
    requires Inv(s) && p in s.sprocs && s.sprocs[p] == StarterProc(db, SSpawned) && db in s.starters
    requires s' == s.(starters := s.starters[db := s.starters[db].(pid := p, state := Running)],
                      sprocs := s.sprocs[p := StarterProc(db, SAnnounced)])
    ensures Inv(s')
  {
    AnnouncedKeepsStarters(s, s', p);
    AnnouncedKeepsRequests(s, s.(starters := s'.starters), s', p, db);
    ShrinkKeepsWorkers(s, s');
  }

  lemma AnnouncedKeepsRequests(s: State, m: State, s': State, p: Pid, db: Oid)
    requires p in s.sprocs && s.sprocs[p] == StarterProc(db, SSpawned) && db in s.starters
    requires m == s.(starters := s.starters[db := s.starters[db].(pid := p, state := Running)])
    requires Moved(m, s', p, SAnnounced)
    requires ListInv(s.sprocs, s.registered, s.gone) && ForgetInv(s.sprocs, s.workers, s.wprocs, s.gone)
    requires RequestInv(s.starters, s.sprocs, s.txs, s.databases)
    requires SeenInv(s.starters, s.sprocs, s.registered, s.seen, s.databases)
    requires EntryInv(s.starters, s.workers, s.sprocs, s.registered, s.databases)
    ensures ListInv(s'.sprocs, s'.registered, s'.gone) && ForgetInv(s'.sprocs, s'.workers, s'.wprocs, s'.gone)
    ensures ListsShrink(s.sprocs, s'.sprocs)
    ensures RequestInv(s'.starters, s'.sprocs, s'.txs, s'.databases)
    ensures SeenInv(s'.starters, s'.sprocs, s'.registered, s'.seen, s'.databases)
    ensures EntryInv(s'.starters, s'.workers, s'.sprocs, s'.registered, s'.databases)
  {
    assert forall d :: Asked(s.starters, d) ==> Asked(m.starters, d);
    AskedKeepsRequests(s, m);
    MoveKeepsLists(m, s', p, SAnnounced);
    WitnessKeepsRequests(m, s', p, SAnnounced);
  }

  lemma AnnounceKeepsInv(s: State, p: Pid)
    requires Inv(s) && StarterEnabled(s, p, Announce)
    ensures Inv(StarterStep(s, p, Announce))
  {
    var s', db := StarterStep(s, p, Announce), s.sprocs[p].db;
    AnnounceEffect(s, p);
    if AnnounceStarterResult(s.starters, db).Announced? {
      AnnouncedKeepsInv(s, s', p, db);
    } else {
      MoveKeepsInv(s, s', p, SExiting(0, false));
    }
  }

  lemma AnnouncedKeepsStarters(s: State, s': State, p: Pid)
    requires p in s.sprocs && s.sprocs[p].phase.SSpawned? && s.sprocs[p].db in s.starters
    requires s'.sprocs == s.sprocs[p := StarterProc(s.sprocs[p].db, SAnnounced)]
    requires s'.starters == s.starters[s.sprocs[p].db := s.starters[s.sprocs[p].db].(pid := p, state := Running)]
    requires s'.server == s.server && s'.databases == s.databases && s'.usedDbs == s.usedDbs
    requires StarterInv(s.starters, s.sprocs)
    requires StarterHashInv(s.starters, s.server, s.databases, s.usedDbs)
    requires PlacedInv(s.starters, s.sprocs, s.server, s.databases, s.usedDbs)
    ensures StarterInv(s'.starters, s'.sprocs)
    ensures StarterHashInv(s'.starters, s'.server, s'.databases, s'.usedDbs)
    ensures PlacedInv(s'.starters, s'.sprocs, s'.server, s'.databases, s'.usedDbs)
  {
    forall r | r in s'.sprocs
      ensures OwnsStarter(s'.starters, r, s'.sprocs[r])
      ensures Placed(s'.starters, s'.server, s'.databases, s'.usedDbs, s'.sprocs[r])
    {
      assert OwnsStarter(s.starters, r, s.sprocs[r]);
      assert Placed(s.starters, s.server, s.databases, s.usedDbs, s.sprocs[r]);
    }
  }

  /** A starter that was and stays before its lock. */
  lemma WitnessKeepsRequests(s: State, s': State, p: Pid, ph: StarterPhase)
    requires Moved(s, s', p, ph) && BeforeLock(ph) && ListOf(s.sprocs[p].phase) == map[] &&
      !s.sprocs[p].phase.SSleeping?
    requires RequestInv(s.starters, s.sprocs, s.txs, s.databases)
    requires SeenInv(s.starters, s.sprocs, s.registered, s.seen, s.databases)
    requires EntryInv(s.starters, s.workers, s.sprocs, s.registered, s.databases)
    ensures RequestInv(s'.starters, s'.sprocs, s'.txs, s'.databases)
    ensures SeenInv(s'.starters, s'.sprocs, s'.registered, s'.seen, s'.databases)
    ensures EntryInv(s'.starters, s'.workers, s'.sprocs, s'.registered, s'.databases)
  {
    assert s'.sprocs[p].db == s.sprocs[p].db && BeforeRead(s'.sprocs[p].phase);
    forall d
      ensures Waiting(s.starters, s.sprocs, d) ==> Waiting(s'.starters, s'.sprocs, d)
      ensures Unread(s.starters, s.sprocs, d) ==> Unread(s'.starters, s'.sprocs, d)
    {
      if d != s.sprocs[p].db {
        MoveKeepsOthers(s, s', p, ph, d);
      }
    }
    forall k | AboutToStart(s.sprocs, k)
      ensures AboutToStart(s'.sprocs, k)
    {
      var r :| r in s.sprocs && s.sprocs[r].db == k.db &&
        (k in ListOf(s.sprocs[r].phase) || s.sprocs[r].phase.SSleeping?);
      assert r in s'.sprocs && s'.sprocs[r] == s.sprocs[r];
    }
  }

  lemma ExitKeepsStarters(s: State, p: Pid)
    requires StarterEnabled(s, p, Exit)
    requires StarterInv(s.starters, s.sprocs)
    requires StarterHashInv(s.starters, s.server, s.databases, s.usedDbs)
    requires PlacedInv(s.starters, s.sprocs, s.server, s.databases, s.usedDbs)
    ensures var s' := StarterStep(s, p, Exit);
            && StarterInv(s'.starters, s'.sprocs)
            && StarterHashInv(s'.starters, s'.server, s'.databases, s'.usedDbs)
            && PlacedInv(s'.starters, s'.sprocs, s'.server, s'.databases, s'.usedDbs)
  {
    var s' := StarterStep(s, p, Exit);
    forall r | r in s'.sprocs
      ensures OwnsStarter(s'.starters, r, s'.sprocs[r])
      ensures Placed(s'.starters, s'.server, s'.databases, s'.usedDbs, s'.sprocs[r])
    {
      assert s.sprocs[r].db != s.sprocs[p].db;
      assert OwnsStarter(s.starters, r, s.sprocs[r]);
      assert Placed(s.starters, s.server, s.databases, s.usedDbs, s.sprocs[r]);
    }
  }

  lemma ExitKeepsWitnesses(s: State, p: Pid, d: Oid)
    requires StarterEnabled(s, p, Exit) && StarterInv(s.starters, s.sprocs)
    ensures var s' := StarterStep(s, p, Exit);
            && (Waiting(s.starters, s.sprocs, d) ==> Waiting(s'.starters, s'.sprocs, d))
            && (Unread(s.starters, s.sprocs, d) ==> Unread(s'.starters, s'.sprocs, d))
  {
    var s' := StarterStep(s, p, Exit);
    assert forall r :: r in s.sprocs && r != p ==> r in s'.sprocs && s'.sprocs[r] == s.sprocs[r];
    if d == s.sprocs[p].db {
      OnlyStarter(s.sprocs, s.starters, p);
    }
  }

  lemma ExitKeepsInv(s: State, p: Pid)
    requires Inv(s) && StarterEnabled(s, p, Exit)
    ensures Inv(StarterStep(s, p, Exit))
  {
    var s' := StarterStep(s, p, Exit);
    ExitKeepsStarters(s, p);
    ExitKeepsRequests(s, s', p);
    ExitKeepsLists(s, s', p);
    ShrinkKeepsWorkers(s, s');
  }

  lemma ExitKeepsAhead(s: State, p: Pid, k: Key)
    requires p in s.sprocs && s.sprocs[p].phase.SExiting? && AboutToStart(s.sprocs, k)
    ensures AboutToStart(s.sprocs - {p}, k)
  {
    var r :| r in s.sprocs && s.sprocs[r].db == k.db &&
      (k in ListOf(s.sprocs[r].phase) || s.sprocs[r].phase.SSleeping?);
    assert r in s.sprocs - {p};
  }

  lemma ExitKeepsRequests(s: State, s': State, p: Pid)
    requires StarterEnabled(s, p, Exit) && s' == StarterStep(s, p, Exit) && StarterInv(s.starters, s.sprocs)
    requires RequestInv(s.starters, s.sprocs, s.txs, s.databases)
    requires SeenInv(s.starters, s.sprocs, s.registered, s.seen, s.databases)
    requires EntryInv(s.starters, s.workers, s.sprocs, s.registered, s.databases)
    ensures RequestInv(s'.starters, s'.sprocs, s'.txs, s'.databases)
    ensures SeenInv(s'.starters, s'.sprocs, s'.registered, s'.seen, s'.databases)
    ensures EntryInv(s'.starters, s'.workers, s'.sprocs, s'.registered, s'.databases)
  {
    forall d
      ensures Waiting(s.starters, s.sprocs, d) ==> Waiting(s'.starters, s'.sprocs, d)
      ensures Unread(s.starters, s.sprocs, d) ==> Unread(s'.starters, s'.sprocs, d)
    {
      ExitKeepsWitnesses(s, p, d);
    }
    forall k | AboutToStart(s.sprocs, k)
      ensures AboutToStart(s'.sprocs, k)
    {
      ExitKeepsAhead(s, p, k);
    }
  }

  lemma ExitKeepsLists(s: State, s': State, p: Pid)
    requires p in s.sprocs && s'.sprocs == s.sprocs - {p}
    requires ListInv(s.sprocs, s.registered, s.gone)
    requires ForgetInv(s.sprocs, s.workers, s.wprocs, s.gone)
    ensures ListInv(s'.sprocs, s.registered, s.gone)
    ensures ForgetInv(s'.sprocs, s.workers, s.wprocs, s.gone)
    ensures ListsShrink(s.sprocs, s'.sprocs)
  {
  }

  // ----- removing entries -----

  /** A starter removes entries its list (or the missing extension) lets it forget. */
  ghost predicate Forgot(s: State, s': State, p: Pid) {
    && p in s.sprocs
    && s' == s.(workers := s'.workers)
    && s'.workers.Keys <= s.workers.Keys
    && (forall k :: k in s'.workers ==> s'.workers[k] == s.workers[k])
    && (forall k :: k in s.workers && k !in s'.workers ==> k.db == s.sprocs[p].db && k !in ListOf(s.sprocs[p].phase))
  }

  lemma ForgottenIsRetired(s: State, s': State, p: Pid, k: Key)
    requires Forgot(s, s', p) && k in s.workers && k !in s'.workers && k in s.gone
    requires StarterInv(s.starters, s.sprocs) && ListInv(s.sprocs, s.registered, s.gone)
    ensures Retired(s.gone, s.sprocs, k)
  {
    forall r | r in s.sprocs
      ensures k !in ListOf(s.sprocs[r].phase)
    {
      assert ListKnown(s.registered, s.gone, s.sprocs[r]);
    }
  }

  lemma ForgetKeepsWorkers(s: State, s': State, p: Pid)
    requires Forgot(s, s', p) && forall k :: k in s.workers && k !in s'.workers ==> k in s.gone
    requires StarterInv(s.starters, s.sprocs) && ListInv(s.sprocs, s.registered, s.gone)
    requires WorkerInv(s.workers, s.wprocs, s.sprocs, s.registered, s.gone)
    ensures WorkerInv(s'.workers, s'.wprocs, s'.sprocs, s'.registered, s'.gone)
  {
    forall q | q in s.wprocs && !s.wprocs[q].phase.WDropped?
      ensures OwnsWorker(s'.workers, q, s'.wprocs[q]) || Retired(s'.gone, s'.sprocs, s'.wprocs[q].key)
    {
      var k := s.wprocs[q].key;
      assert OwnsWorker(s.workers, q, s.wprocs[q]) || Retired(s.gone, s.sprocs, k);
      if k in s.workers && k !in s'.workers {
        ForgottenIsRetired(s, s', p, k);
      }
    }
  }

  lemma ForgetKeepsBackoff(s: State, s': State, p: Pid)
    requires Forgot(s, s', p) && forall k :: k in s.workers && k !in s'.workers ==> k in s.gone
    requires StarterInv(s.starters, s.sprocs) && ListInv(s.sprocs, s.registered, s.gone)
    requires BackoffInv(s.lastFail, s.clock, s.gone, s.sprocs, s.workers, s.wprocs)
    ensures BackoffInv(s'.lastFail, s'.clock, s'.gone, s'.sprocs, s'.workers, s'.wprocs)
  {
    forall k | k in s.lastFail && Cooling(s.workers, s.wprocs, k, s.lastFail[k])
      ensures Retired(s'.gone, s'.sprocs, k) || Cooling(s'.workers, s'.wprocs, k, s'.lastFail[k])
    {
      if k !in s'.workers {
        ForgottenIsRetired(s, s', p, k);
      }
    }
  }

  lemma ForgetKeepsInv(s: State, s': State, p: Pid)
    requires Inv(s) && Forgot(s, s', p)
    requires s.sprocs[p].phase.SListed? || s.sprocs[p].phase.SNoExtension?
    ensures Inv(s')
  {
    forall k | k in s.workers && k !in s'.workers
      ensures k in s.gone
    {
      assert MayForget(s.sprocs[p], k);
    }
    ForgetKeepsWorkers(s, s', p);
    ForgetKeepsBackoff(s, s', p);
    assert forall k :: k in s.registered && k in s.workers ==> k in s'.workers;
  }

  lemma NoExtensionForgets(s: State, s': State, p: Pid)
    requires Moved(s, s', p, SNoExtension) && s.sprocs[p].db !in s.extension
    requires RegInv(s.databases, s.extension, s.registered, s.usedDbs, s.usedKeys, s.gone)
    requires WorkerHashInv(s.workers, s.server, s.databases, s.registered, s.gone)
    requires WorkerInv(s.workers, s.wprocs, s.sprocs, s.registered, s.gone)
    requires ForgetInv(s.sprocs, s.workers, s.wprocs, s.gone)
    ensures ForgetInv(s'.sprocs, s'.workers, s'.wprocs, s'.gone)
  {
    assert forall k :: Known(s.registered, s.gone, k) && k.db == s.sprocs[p].db ==> k in s.gone;
  }

  // ----- reading the registrations -----

  lemma ReadKeepsLists(s: State, s': State, p: Pid, list: map<Key, Oid>)
    requires Moved(s, s', p, SListed(list)) && list == KeysOf(s.registered, s.sprocs[p].db)
    requires RegInv(s.databases, s.extension, s.registered, s.usedDbs, s.usedKeys, s.gone)
    requires WorkerHashInv(s.workers, s.server, s.databases, s.registered, s.gone)
    requires WorkerInv(s.workers, s.wprocs, s.sprocs, s.registered, s.gone)
    requires ListInv(s.sprocs, s.registered, s.gone)
    requires ForgetInv(s.sprocs, s.workers, s.wprocs, s.gone)
    ensures ListInv(s'.sprocs, s'.registered, s'.gone)
    ensures ForgetInv(s'.sprocs, s'.workers, s'.wprocs, s'.gone)
  {
    assert forall k :: Known(s.registered, s.gone, k) && k.db == s.sprocs[p].db && k !in list ==> k in s.gone;
  }

  lemma ReadKeepsWorkers(s: State, s': State, p: Pid, list: map<Key, Oid>)
    requires Moved(s, s', p, SListed(list)) && list == KeysOf(s.registered, s.sprocs[p].db)
    requires RegInv(s.databases, s.extension, s.registered, s.usedDbs, s.usedKeys, s.gone)
    requires WorkerInv(s.workers, s.wprocs, s.sprocs, s.registered, s.gone)
    requires BackoffInv(s.lastFail, s.clock, s.gone, s.sprocs, s.workers, s.wprocs)
    ensures WorkerInv(s'.workers, s'.wprocs, s'.sprocs, s'.registered, s'.gone)
    ensures BackoffInv(s'.lastFail, s'.clock, s'.gone, s'.sprocs, s'.workers, s'.wprocs)
  {
    forall k | Retired(s.gone, s.sprocs, k)
      ensures Retired(s'.gone, s'.sprocs, k)
    {
    }
  }

  lemma ReadKeepsRegistrations(s: State, m: State, p: Pid, list: map<Key, Oid>)
    requires Moved(s, m, p, SListed(list)) && list == KeysOf(s.registered, s.sprocs[p].db)
    requires SeenInv(s.starters, s.sprocs, s.registered, s.seen, s.databases)
    requires EntryInv(s.starters, s.workers, s.sprocs, s.registered, s.databases)
    ensures SeenInv(m.starters, m.sprocs, m.registered, s.seen + list.Keys, m.databases)
    ensures EntryInv(m.starters, m.workers, m.sprocs, m.registered, m.databases)
  {
    forall k | k in s.registered && k.db != s.sprocs[p].db
      ensures Unread(s.starters, s.sprocs, k.db) ==> Unread(m.starters, m.sprocs, k.db)
      ensures AboutToStart(s.sprocs, k) ==> AboutToStart(m.sprocs, k)
    {
      MoveKeepsOthers(s, m, p, SListed(list), k.db);
    }
    forall k | k in s.registered && k.db == s.sprocs[p].db
      ensures k in list && AboutToStart(m.sprocs, k)
    {
      assert p in m.sprocs && m.sprocs[p].db == k.db && k in ListOf(m.sprocs[p].phase);
    }
  }

  lemma ReadKeepsInv(s: State, p: Pid)
    requires Inv(s) && StarterEnabled(s, p, Read)
    ensures Inv(StarterStep(s, p, Read))
  {
    var s' := StarterStep(s, p, Read);
    assert Placed(s.starters, s.server, s.databases, s.usedDbs, s.sprocs[p]);
    if s.sprocs[p].db !in s.extension {
      assert Moved(s, s', p, SExiting(1, true));
      MoveKeepsInv(s, s', p, SExiting(1, true));
    } else {
      var list := KeysOf(s.registered, s.sprocs[p].db);
      var m := s.(sprocs := s.sprocs[p := StarterProc(s.sprocs[p].db, SListed(list))]);
      assert s' == m.(seen := s.seen + list.Keys);
      assert Moved(s, m, p, SListed(list));
      MoveKeepsStarters(s, m, p, SListed(list));
      ReadKeepsLists(s, m, p, list);
      ReadKeepsWorkers(s, m, p, list);
      MoveKeepsRequests(s, m, p, SListed(list));
      ReadKeepsRegistrations(s, m, p, list);
    }
  }

  // ----- starting a base worker -----

  lemma NoWorkerWhenStartable(s: State, p: Pid, key: Key, q: Pid)
    requires p in s.sprocs && key in ListOf(s.sprocs[p].phase) && !WorkerBusy(s.workers, key)
    requires WorkerInv(s.workers, s.wprocs, s.sprocs, s.registered, s.gone)
    requires q in s.wprocs && s.wprocs[q].key == key
    ensures s.wprocs[q].phase.WDropped?
  {
  }

  /** Once the only starter of its database has passed a deleted key, the key is retired. */
  lemma PassedIsRetired(s: State, sprocs': map<Pid, StarterProc>, p: Pid, key: Key, ph: StarterPhase)
    requires p in s.sprocs && key.db == s.sprocs[p].db && key in s.gone && key !in ListOf(ph)
    requires sprocs' == s.sprocs[p := StarterProc(s.sprocs[p].db, ph)]
    requires StarterInv(s.starters, s.sprocs) && ListInv(s.sprocs, s.registered, s.gone)
    ensures Retired(s.gone, sprocs', key)
  {
    forall r | r in sprocs'
      ensures key !in ListOf(sprocs'[r].phase)
    {
      if r != p {
        assert ListKnown(s.registered, s.gone, s.sprocs[r]);
      }
    }
  }

  /** The effect of a spawn on everything the worker invariants speak about. */
  ghost predicate Launched(s: State, s': State, p: Pid, key: Key, pid: Pid, ph: StarterPhase) {
    && p in s.sprocs && key in ListOf(s.sprocs[p].phase) && !WorkerBusy(s.workers, key) && FreshPid(s, pid)
    && ListOf(ph).Keys == ListOf(s.sprocs[p].phase).Keys - {key}
    && s'.sprocs == s.sprocs[p := StarterProc(s.sprocs[p].db, ph)]
    && key in s'.workers && s'.workers[key].state.Starting? && s'.workers[key].pid == 0
    && s'.workers == s.workers[key := s'.workers[key]]
    && s'.wprocs == s.wprocs[pid := WorkerProc(key, WSpawned)]
    && s'.registered == s.registered && s'.gone == s.gone
  }

  lemma LaunchKeepsOwners(s: State, s': State, p: Pid, key: Key, pid: Pid, ph: StarterPhase, q: Pid)
    requires Launched(s, s', p, key, pid, ph)
    requires WorkerInv(s.workers, s.wprocs, s.sprocs, s.registered, s.gone)
    requires ListsShrink(s.sprocs, s'.sprocs)
    requires q in s'.wprocs && !s'.wprocs[q].phase.WDropped?
    ensures OwnsWorker(s'.workers, q, s'.wprocs[q]) || Retired(s'.gone, s'.sprocs, s'.wprocs[q].key)
  {
    if q != pid {
      var k := s.wprocs[q].key;
      if k == key {
        NoWorkerWhenStartable(s, p, key, q);
      }
      assert OwnsWorker(s.workers, q, s.wprocs[q]) || Retired(s.gone, s.sprocs, k);
      if Retired(s.gone, s.sprocs, k) {
        ShrinkKeepsRetired(s.gone, s.sprocs, s'.sprocs, k);
      }
    }
  }

  lemma LaunchKeepsWorkers(s: State, s': State, p: Pid, key: Key, pid: Pid, ph: StarterPhase)
    requires Launched(s, s', p, key, pid, ph)
    requires StarterInv(s.starters, s.sprocs) && ListInv(s.sprocs, s.registered, s.gone)
    requires WorkerInv(s.workers, s.wprocs, s.sprocs, s.registered, s.gone)
    ensures WorkerInv(s'.workers, s'.wprocs, s'.sprocs, s'.registered, s'.gone)
  {
    assert ListsShrink(s.sprocs, s'.sprocs);
    assert ListKnown(s.registered, s.gone, s.sprocs[p]);
    forall q | q in s'.wprocs && !s'.wprocs[q].phase.WDropped?
      ensures OwnsWorker(s'.workers, q, s'.wprocs[q]) || Retired(s'.gone, s'.sprocs, s'.wprocs[q].key)
    {
      LaunchKeepsOwners(s, s', p, key, pid, ph, q);
    }
    forall q | q in s.wprocs && s.wprocs[q].key == key
      ensures s.wprocs[q].phase.WDropped? && Retired(s'.gone, s'.sprocs, key)
    {
      NoWorkerWhenStartable(s, p, key, q);
      PassedIsRetired(s, s'.sprocs, p, key, ph);
    }
    LaunchKeepsUnique(s, s', p, key, pid, ph);
  }

  lemma LaunchKeepsUnique(s: State, s': State, p: Pid, key: Key, pid: Pid, ph: StarterPhase)
    requires Launched(s, s', p, key, pid, ph)
    requires WorkerInv(s.workers, s.wprocs, s.sprocs, s.registered, s.gone)
    requires ListsShrink(s.sprocs, s'.sprocs)
    requires forall q :: q in s.wprocs && s.wprocs[q].key == key ==>
               s.wprocs[q].phase.WDropped? && Retired(s'.gone, s'.sprocs, key)
    ensures forall q, r :: q in s'.wprocs && r in s'.wprocs && q != r && s'.wprocs[q].key == s'.wprocs[r].key ==>
              s'.wprocs[q].phase.WDropped? || s'.wprocs[r].phase.WDropped?
    ensures forall q, r :: q in s'.wprocs && r in s'.wprocs && s'.wprocs[q].key == s'.wprocs[r].key &&
                           s'.wprocs[q].phase.WDropped? && !s'.wprocs[r].phase.WDropped? ==>
              Retired(s'.gone, s'.sprocs, s'.wprocs[q].key)
  {
    forall k | Retired(s.gone, s.sprocs, k)
      ensures Retired(s'.gone, s'.sprocs, k)
    {
      ShrinkKeepsRetired(s.gone, s.sprocs, s'.sprocs, k);
    }
  }

  /** An attempt that wrote the entry: the key is in the hash afterwards, whether or not a process exists. */
  ghost predicate Attempted(s: State, s': State, p: Pid, key: Key, ph: StarterPhase) {
    && p in s.sprocs && key in ListOf(s.sprocs[p].phase)
    && s.sprocs[p].phase.SStarting? && ListOf(ph).Keys <= ListOf(s.sprocs[p].phase).Keys
    && (ph.SSleeping? || (ph.SStarting? && ListOf(ph).Keys == ListOf(s.sprocs[p].phase).Keys - {key}))
    && key in s'.workers && s'.workers == s.workers[key := s'.workers[key]]
    && s' == s.(workers := s'.workers, wprocs := s'.wprocs, sprocs := s.sprocs[p := StarterProc(s.sprocs[p].db, ph)])
    && (forall q :: q in s'.wprocs && q !in s.wprocs ==> s'.wprocs[q].key == key)
    && (forall q :: q in s.wprocs ==> q in s'.wprocs && s'.wprocs[q] == s.wprocs[q])
  }

  lemma AttemptKeepsStarters(s: State, s': State, p: Pid, key: Key, ph: StarterPhase)
    requires Attempted(s, s', p, key, ph) && Inv(s)
    ensures StarterInv(s'.starters, s'.sprocs)
    ensures PlacedInv(s'.starters, s'.sprocs, s'.server, s'.databases, s'.usedDbs)
    ensures ListInv(s'.sprocs, s'.registered, s'.gone)
    ensures ListsShrink(s.sprocs, s'.sprocs)
    ensures RequestInv(s'.starters, s'.sprocs, s'.txs, s'.databases)
    ensures SeenInv(s'.starters, s'.sprocs, s'.registered, s'.seen, s'.databases)
  {
    var m := s.(sprocs := s'.sprocs);
    assert Moved(s, m, p, ph);
    assert Placed(s.starters, s.server, s.databases, s.usedDbs, s.sprocs[p]);
    MoveKeepsStarters(s, m, p, ph);
    MoveKeepsLists(s, m, p, ph);
    MoveKeepsRequests(s, m, p, ph);
    MoveKeepsSeen(s, m, p, ph);
  }

  lemma AttemptKeepsHash(s: State, s': State, p: Pid, key: Key, ph: StarterPhase)
    requires Attempted(s, s', p, key, ph)
    requires StarterInv(s.starters, s.sprocs) && ListInv(s.sprocs, s.registered, s.gone)
    requires PlacedInv(s.starters, s.sprocs, s.server, s.databases, s.usedDbs)
    requires WorkerHashInv(s.workers, s.server, s.databases, s.registered, s.gone)
    requires ForgetInv(s.sprocs, s.workers, s.wprocs, s.gone)
    ensures WorkerHashInv(s'.workers, s'.server, s'.databases, s'.registered, s'.gone)
    ensures ForgetInv(s'.sprocs, s'.workers, s'.wprocs, s'.gone)
  {
    assert ListKnown(s.registered, s.gone, s.sprocs[p]);
    assert Placed(s.starters, s.server, s.databases, s.usedDbs, s.sprocs[p]);
    forall r | r in s'.sprocs && MayForget(s'.sprocs[r], key)
      ensures false
    {
    }
    assert forall r :: r in s'.sprocs && r != p ==> s'.sprocs[r] == s.sprocs[r];
  }

  lemma AttemptKeepsEntries(s: State, s': State, p: Pid, key: Key, ph: StarterPhase)
    requires Attempted(s, s', p, key, ph)
    requires StarterInv(s.starters, s.sprocs) && StarterInv(s'.starters, s'.sprocs)
    requires EntryInv(s.starters, s.workers, s.sprocs, s.registered, s.databases)
    ensures EntryInv(s'.starters, s'.workers, s'.sprocs, s'.registered, s'.databases)
  {
    var m := s.(workers := s'.workers);
    var m' := m.(sprocs := s'.sprocs);
    assert Moved(m, m', p, ph);
    MoveKeepsEntries(m, m', p, ph);
  }

  lemma AttemptKeepsBackoff(s: State, s': State, p: Pid, key: Key, ph: StarterPhase)
    requires Attempted(s, s', p, key, ph) && ListsShrink(s.sprocs, s'.sprocs)
    requires key in s.lastFail ==> s.clock > s.lastFail[key] + NAP_MICROS
    requires BackoffInv(s.lastFail, s.clock, s.gone, s.sprocs, s.workers, s.wprocs)
    ensures BackoffInv(s'.lastFail, s'.clock, s'.gone, s'.sprocs, s'.workers, s'.wprocs)
  {
    forall k | k in s.lastFail && k != key
      ensures Retired(s.gone, s.sprocs, k) ==> Retired(s'.gone, s'.sprocs, k)
      ensures Cooling(s.workers, s.wprocs, k, s.lastFail[k]) ==> Cooling(s'.workers, s'.wprocs, k, s'.lastFail[k])
    {
      if Retired(s.gone, s.sprocs, k) {
        ShrinkKeepsRetired(s.gone, s.sprocs, s'.sprocs, k);
      }
    }
  }

  /** The heart of the failure backoff: an attempt that gets past the blocking test. */
  lemma UnblockedIsCool(s: State, p: Pid, key: Key, slot: bool)
    requires p in s.sprocs && key in ListOf(s.sprocs[p].phase)
    requires BackoffInv(s.lastFail, s.clock, s.gone, s.sprocs, s.workers, s.wprocs)
    requires key in s.lastFail
    requires var r := StartWorkerResult(s.workers, key, s.clock, slot); r.Started? || r.Failed?
    ensures s.clock > s.lastFail[key] + NAP_MICROS
  {
  }

  lemma FailedKeepsWorkers(s: State, s': State, p: Pid, key: Key)
    requires Attempted(s, s', p, key, SSleeping) && s'.wprocs == s.wprocs && !WorkerBusy(s.workers, key)
    requires ListsShrink(s.sprocs, s'.sprocs)
    requires WorkerInv(s.workers, s.wprocs, s.sprocs, s.registered, s.gone)
    ensures WorkerInv(s'.workers, s'.wprocs, s'.sprocs, s'.registered, s'.gone)
  {
    forall k | Retired(s.gone, s.sprocs, k)
      ensures Retired(s'.gone, s'.sprocs, k)
    {
      ShrinkKeepsRetired(s.gone, s.sprocs, s'.sprocs, k);
    }
    forall q | q in s.wprocs && !s.wprocs[q].phase.WDropped?
      ensures OwnsWorker(s'.workers, q, s'.wprocs[q]) || Retired(s'.gone, s'.sprocs, s'.wprocs[q].key)
    {
      if s.wprocs[q].key == key {
        NoWorkerWhenStartable(s, p, key, q);
      }
      assert OwnsWorker(s.workers, q, s.wprocs[q]) || Retired(s.gone, s.sprocs, s.wprocs[q].key);
    }
  }

  lemma AttemptKeepsInv(s: State, s': State, p: Pid, key: Key, pid: Pid, slot: bool, ph: StarterPhase)
    requires Inv(s) && Attempted(s, s', p, key, ph) && FreshPid(s, pid)
    requires var r := StartWorkerResult(s.workers, key, s.clock, slot); r.Started? || r.Failed?
    requires if ph.SSleeping? then s'.wprocs == s.wprocs else Launched(s, s', p, key, pid, ph)
    ensures Inv(s')
  {
    AttemptKeepsStarters(s, s', p, key, ph);
    AttemptKeepsHash(s, s', p, key, ph);
    AttemptKeepsEntries(s, s', p, key, ph);
    if key in s.lastFail {
      UnblockedIsCool(s, p, key, slot);
    }
    AttemptKeepsBackoff(s, s', p, key, ph);
    if ph.SSleeping? {
      FailedKeepsWorkers(s, s', p, key);
    } else {
      LaunchKeepsWorkers(s, s', p, key, pid, ph);
    }
  }

  lemma StartedIsLaunch(s: State, p: Pid, key: Key, pid: Pid, slot: bool)
    requires StarterEnabled(s, p, StartOne(key, pid, slot)) && Packable(key)
    requires StartWorkerResult(s.workers, key, s.clock, slot).Started?
    ensures var s' := StarterStep(s, p, StartOne(key, pid, slot));
            var was := s.sprocs[p].phase;
            var ph := SStarting(was.rest - {key}, was.blocked);
            Attempted(s, s', p, key, ph) && Launched(s, s', p, key, pid, ph)
  {
  }

  lemma FailedIsAttempt(s: State, p: Pid, key: Key, pid: Pid, slot: bool)
    requires StarterEnabled(s, p, StartOne(key, pid, slot))
    requires StartWorkerResult(s.workers, key, s.clock, slot).Failed?
    ensures var s' := StarterStep(s, p, StartOne(key, pid, slot));
            Attempted(s, s', p, key, SSleeping) && s'.wprocs == s.wprocs
  {
  }

  lemma SkippedIsMove(s: State, p: Pid, key: Key, pid: Pid, slot: bool)
    requires StarterEnabled(s, p, StartOne(key, pid, slot))
    requires var r := StartWorkerResult(s.workers, key, s.clock, slot); !r.Started? && !r.Failed?
    ensures var was := s.sprocs[p].phase;
            var ph := SStarting(was.rest - {key},
              was.blocked || StartWorkerResult(s.workers, key, s.clock, slot).Blocked?);
            Moved(s, StarterStep(s, p, StartOne(key, pid, slot)), p, ph) && key in s.workers
  {
  }

  lemma ListedIsPackable(s: State, p: Pid, key: Key)
    requires p in s.sprocs && key in ListOf(s.sprocs[p].phase)
    requires RegInv(s.databases, s.extension, s.registered, s.usedDbs, s.usedKeys, s.gone)
    requires ListInv(s.sprocs, s.registered, s.gone)
    ensures Packable(key)
  {
    assert ListKnown(s.registered, s.gone, s.sprocs[p]);
  }

  lemma SkippedKeepsInv(s: State, s': State, p: Pid, key: Key, ph: StarterPhase)
    requires Inv(s) && Moved(s, s', p, ph) && key in s.workers
    requires s.sprocs[p].phase.SStarting? && ph.SStarting? && ph.rest == s.sprocs[p].phase.rest - {key}
    ensures Inv(s')
  {
    assert s.sprocs[p].db in s.databases by {
      assert Placed(s.starters, s.server, s.databases, s.usedDbs, s.sprocs[p]);
    }
    MoveKeepsInv(s, s', p, ph);
  }

  lemma StartOneKeepsInv(s: State, s': State, p: Pid, key: Key, pid: Pid, slot: bool)
    requires Inv(s) && StarterEnabled(s, p, StartOne(key, pid, slot)) &&
      s' == StarterStep(s, p, StartOne(key, pid, slot))
    ensures Inv(s')
  {
    var was := s.sprocs[p].phase;
    var r := StartWorkerResult(s.workers, key, s.clock, slot);
    if r.Started? {
      ListedIsPackable(s, p, key);
      StartedIsLaunch(s, p, key, pid, slot);
      AttemptKeepsInv(s, s', p, key, pid, slot, SStarting(was.rest - {key}, was.blocked));
    } else if r.Failed? {
      FailedIsAttempt(s, p, key, pid, slot);
      AttemptKeepsInv(s, s', p, key, pid, slot, SSleeping);
    } else {
      SkippedIsMove(s, p, key, pid, slot);
      SkippedKeepsInv(s, s', p, key, SStarting(was.rest - {key}, was.blocked || r.Blocked?));
    }
  }

  // ----- all of a starter's steps -----

  lemma SimpleEffect(s: State, p: Pid, a: StarterAct)
    requires StarterEnabled(s, p, a) && (a.Connect? || a.Lock? || a.Finish? || a.Fail?)
    ensures Moved(s, StarterStep(s, p, a), p, PhaseAfter(s, p, a))
  {
  }

  lemma SimpleAllowed(s: State, p: Pid, a: StarterAct, ph: StarterPhase)
    requires StarterEnabled(s, p, a) && (a.Connect? || a.Lock? || a.Finish? || a.Fail?) && ph == PhaseAfter(s, p, a)
    requires Placed(s.starters, s.server, s.databases, s.usedDbs, s.sprocs[p])
    ensures LockAllowed(s, p, ph) && ReadAllowed(s, p, ph) && StartAllowed(s, p, ph)
    ensures IsAnnounced(ph) == IsAnnounced(s.sprocs[p].phase) && (IsConnected(ph) ==> s.sprocs[p].db in s.databases)
    ensures ListOf(ph).Keys <= ListOf(s.sprocs[p].phase).Keys && !ph.SListed? && !ph.SNoExtension?
  {
  }

  lemma SimpleKeepsInv(s: State, p: Pid, a: StarterAct)
    requires Inv(s) && StarterEnabled(s, p, a)
    requires a.Connect? || a.Lock? || a.Finish? || a.Fail?
    ensures Inv(StarterStep(s, p, a))
  {
    assert Placed(s.starters, s.server, s.databases, s.usedDbs, s.sprocs[p]);
    SimpleEffect(s, p, a);
    SimpleAllowed(s, p, a, PhaseAfter(s, p, a));
    MoveKeepsInv(s, StarterStep(s, p, a), p, PhaseAfter(s, p, a));
  }

  lemma UnlockKeepsInv(s: State, p: Pid)
    requires Inv(s) && StarterEnabled(s, p, Unlock)
    ensures Inv(StarterStep(s, p, Unlock))
  {
    var s' := StarterStep(s, p, Unlock);
    assert Placed(s.starters, s.server, s.databases, s.usedDbs, s.sprocs[p]);
    var ph := s'.sprocs[p].phase;
    assert Moved(s, s', p, ph);
    if s.sprocs[p].db !in s.extension {
      NoExtensionForgets(s, s', p);
    }
    MoveKeepsInv(s, s', p, ph);
  }

  lemma RemovalKeepsInv(s: State, p: Pid, a: StarterAct)
    requires Inv(s) && StarterEnabled(s, p, a)
    requires a.Forget? || a.CleanUp?
    ensures Inv(StarterStep(s, p, a))
  {
    var m := s.(workers := WorkerHashAfter(s, p, a));
    RemovalEffect(s, p, a, m);
    ForgetKeepsInv(s, m, p);
    assert Placed(s.starters, s.server, s.databases, s.usedDbs, s.sprocs[p]);
    RemovalAllowed(s, p, a, m, PhaseAfter(s, p, a));
    MoveKeepsInv(m, StarterStep(s, p, a), p, PhaseAfter(s, p, a));
  }

  lemma RemovalEffect(s: State, p: Pid, a: StarterAct, m: State)
    requires StarterEnabled(s, p, a) && (a.Forget? || a.CleanUp?) && m == s.(workers := WorkerHashAfter(s, p, a))
    ensures Forgot(s, m, p) && Moved(m, StarterStep(s, p, a), p, PhaseAfter(s, p, a))
  {
  }

  lemma RemovalAllowed(s: State, p: Pid, a: StarterAct, m: State, ph: StarterPhase)
    requires StarterEnabled(s, p, a) && (a.Forget? || a.CleanUp?) && ph == PhaseAfter(s, p, a)
    requires m == s.(workers := m.workers) && Placed(s.starters, s.server, s.databases, s.usedDbs, s.sprocs[p])
    ensures LockAllowed(m, p, ph) && ReadAllowed(m, p, ph) && StartAllowed(m, p, ph)
    ensures IsAnnounced(ph) == IsAnnounced(m.sprocs[p].phase) && (IsConnected(ph) ==> m.sprocs[p].db in m.databases)
    ensures ListOf(ph).Keys <= ListOf(m.sprocs[p].phase).Keys && !ph.SListed? && !ph.SNoExtension?
  {
  }

  lemma TerminateKeepsInv(s: State, p: Pid)
    requires Inv(s) && StarterEnabled(s, p, Terminate)
    ensures Inv(StarterStep(s, p, Terminate))
  {
    var s' := StarterStep(s, p, Terminate);
    var m := s.(starters := s'.starters);
    RaiseKeepsInv(s, m);
    assert Moved(m, s', p, SExiting(0, true));
    MoveKeepsInv(m, s', p, SExiting(0, true));
  }

  lemma StarterKeepsInv(s: State, p: Pid, a: StarterAct)
    requires Inv(s) && StarterEnabled(s, p, a)
    ensures Inv(StarterStep(s, p, a))
  {
    match a
    case Announce => AnnounceKeepsInv(s, p);
    case Connect => SimpleKeepsInv(s, p, a);
    case Lock => SimpleKeepsInv(s, p, a);
    case Unlock => UnlockKeepsInv(s, p);
    case Forget => RemovalKeepsInv(s, p, a);
    case Read => ReadKeepsInv(s, p);
    case CleanUp => RemovalKeepsInv(s, p, a);
    case StartOne(key, pid, slot) => StartOneKeepsInv(s, StarterStep(s, p, a), p, key, pid, slot);
    case Finish => SimpleKeepsInv(s, p, a);
    case Terminate => TerminateKeepsInv(s, p);
    case Fail => SimpleKeepsInv(s, p, a);
    case Exit => ExitKeepsInv(s, p);
  }
}
