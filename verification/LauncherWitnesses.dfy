/** Runs the launcher's code allows: two in which a rolled-back DROP EXTENSION leaves a registered
    worker down, and one with two live processes for the same worker key. */
module LauncherWitnesses {
  import opened LauncherShm
  import opened LauncherRuns
  import opened LauncherTheorems
  import opened LauncherRestarts

  const K1 := Key(1, 1)
  const K2 := Key(1, 2)
  const BOTH: map<Key, Oid> := map[K1 := 7, K2 := 7]

  lemma TakeServer(s: State, a: ServerAct, s': State)
    requires Reachable(s) && ServerEnabled(s, a) && ServerStep(s, a) == s'
    ensures Reachable(s')
  {
    ReachableStep(s, ByServer(a));
  }

  lemma TakeStarter(s: State, a: StarterAct, s': State)
    requires Reachable(s) && StarterEnabled(s, 10, a) && StarterStep(s, 10, a) == s'
    ensures Reachable(s')
  {
    ReachableStep(s, ByStarter(10, a));
  }

  lemma TakeWorker(s: State, a: WorkerAct, s': State)
    requires Reachable(s) && WorkerEnabled(s, 20, a) && WorkerStep(s, 20, a) == s'
    ensures Reachable(s')
  {
    ReachableStep(s, ByWorker(20, a));
  }

  lemma TakeTx(s: State, a: TxAct, s': State)
    requires Reachable(s) && TxEnabled(s, 1, a) && TxStep(s, 1, a) == s'
    ensures Reachable(s')
  {
    ReachableStep(s, ByTx(1, a));
  }

  const FRESH := INIT.(databases := map[1 := false], usedDbs := {1})

  const REGISTERED := FRESH.(extension := {1}, registered := BOTH, usedKeys := {K1, K2})

  const NEW_TX := Tx(1, NoLock, map[], {}, false, false, false, false, false)

  function Open(s: State, x: Tx): State {
    s.(txs := map[1 := x])
  }

  // ----- steps from any state -----

  lemma BeginOn(s: State)
    requires Reachable(s) && s.txs == map[] && 1 in s.databases
    ensures Reachable(Open(s, NEW_TX))
  {
    assert s.txs[1 := NEW_TX] == map[1 := NEW_TX];
    TakeTx(s, Begin(1), Open(s, NEW_TX));
  }

  lemma ExclusiveOn(s: State)
    requires Reachable(Open(s, NEW_TX)) && TxLockFree(Open(s, NEW_TX), 1, ExclusiveLock)
    ensures Reachable(Open(s, NEW_TX.(lock := ExclusiveLock)))
  {
    var x := NEW_TX.(lock := ExclusiveLock);
    assert Open(s, NEW_TX).txs[1 := x] == map[1 := x];
    TakeTx(Open(s, NEW_TX), TakeExclusive, Open(s, x));
  }

  lemma AbortOn(s: State, x: Tx)
    requires Reachable(Open(s, x)) && s.txs == map[]
    ensures Reachable(s)
  {
    assert Open(s, x).txs - {1} == map[];
    TakeTx(Open(s, x), Abort, s);
  }

  /** The only starter, in a phase. */
  function InPhase(s: State, ph: StarterPhase): State {
    s.(sprocs := map[10 := StarterProc(1, ph)])
  }

  lemma PhaseOn(s: State, ph: StarterPhase, a: StarterAct, ph': StarterPhase)
    requires Reachable(InPhase(s, ph)) && (a.Connect? || a.Lock? || a.Unlock?)
    requires StarterEnabled(InPhase(s, ph), 10, a) && PhaseAfter(InPhase(s, ph), 10, a) == ph'
    ensures Reachable(InPhase(s, ph'))
  {
    assert InPhase(s, ph).sprocs[10 := StarterProc(1, ph')] == map[10 := StarterProc(1, ph')];
    TakeStarter(InPhase(s, ph), a, InPhase(s, ph'));
  }

  // ----- CREATE DATABASE; BEGIN; CREATE EXTENSION with two registrations; COMMIT -----

  const HOLDING := Tx(1, ShareLock, map[K1 := 7], {}, true, false, false, true, false)

  lemma CreateFirst()
    ensures DoCreateDatabase(INIT, 1, 0, false) == FRESH
  {
    assert (set k | k in INIT.registered && k.db == 0 :: k.id) == {};
  }

  lemma ReachFresh()
    ensures Reachable(FRESH)
  {
    assert Run(INIT, []) == At(INIT);
    CreateFirst();
    ReachableStep(INIT, ByWorld(CreateDatabase(1, 0, false)));
  }

  lemma ReachCreating()
    ensures Reachable(Open(FRESH, NEW_TX.(createsBase := true)))
  {
    ReachFresh();
    TakeTx(FRESH, Begin(1), Open(FRESH, NEW_TX));
    TakeTx(Open(FRESH, NEW_TX), CreateBase, Open(FRESH, NEW_TX.(createsBase := true)));
  }

  lemma ReachHolding()
    ensures Reachable(Open(FRESH, HOLDING).(usedKeys := {K1}))
  {
    ReachCreating();
    var x1 := NEW_TX.(createsBase := true);
    var x2 := x1.(inserted := map[K1 := 7], pending := true);
    TakeTx(Open(FRESH, x1), Register(K1, 7), Open(FRESH, x2).(usedKeys := {K1}));
    TakeTx(Open(FRESH, x2).(usedKeys := {K1}), TakeShare, Open(FRESH, HOLDING).(usedKeys := {K1}));
  }

  const ASKING := HOLDING.(pending := false, requested := true)
  const TWICE := ASKING.(inserted := BOTH, pending := true)

  lemma ReachTwice()
    ensures Reachable(Open(FRESH, TWICE).(usedKeys := {K1, K2}))
  {
    ReachHolding();
    var s := Open(FRESH, ASKING).(usedKeys := {K1});
    TakeTx(Open(FRESH, HOLDING).(usedKeys := {K1}), TxAct.Request, s);
    TakeTx(s, Register(K2, 7), Open(FRESH, TWICE).(usedKeys := {K1, K2}));
  }

  lemma ReachRegistered()
    ensures Reachable(REGISTERED)
  {
    ReachTwice();
    var s := Open(FRESH, TWICE).(usedKeys := {K1, K2});
    var s' := Open(s, TWICE.(pending := false));
    TakeTx(s, TxAct.Request, s');
    CommitBoth(s');
  }

  lemma CommitBoth(s: State)
    requires Reachable(s)
    requires s == Open(FRESH, Tx(1, ShareLock, BOTH, {}, true, false, false, false, true)).(usedKeys := {K1, K2})
    ensures Reachable(REGISTERED)
  {
    assert s.registered - Removed(s, 1) + BOTH == BOTH;
    assert s.gone + Removed(s, 1) == {};
    assert s.txs - {1} == map[];
    TakeTx(s, Commit, REGISTERED);
  }

  // ----- the server starter spawns a database starter, which reads both registrations -----

  function Serving(e: StarterEntry, ph: StarterPhase): State {
    REGISTERED.(server := Listing({1}, true), starters := map[1 := e], sprocs := map[10 := StarterProc(1, ph)])
  }

  const UP := StarterEntry(10, Running, false)

  lemma ReachCleaned()
    ensures Reachable(REGISTERED.(server := Listing({1}, true)))
  {
    ReachRegistered();
    var l := REGISTERED.(server := Listing({1}, false));
    assert REGISTERED.databases.Keys == {1};
    TakeServer(REGISTERED, List, l);
    var c := REGISTERED.(server := Listing({1}, true));
    TakeServer(l, Clean, c);
  }

  lemma ReachAnnounced()
    ensures Reachable(Serving(UP, SAnnounced))
  {
    ReachCleaned();
    var c := REGISTERED.(server := Listing({1}, true));
    var spawned := Serving(StarterEntry(0, Starting, false), SSpawned);
    TakeServer(c, Start(1, 10, true), spawned);
    TakeStarter(spawned, Announce, Serving(UP, SAnnounced));
  }

  lemma ReachReady()
    ensures Reachable(Serving(UP, SReady))
  {
    ReachAnnounced();
    var s := Serving(UP, SAnnounced);
    PhaseOn(s, SAnnounced, Connect, SConnected);
    PhaseOn(s, SConnected, Lock, SLocked);
    PhaseOn(s, SLocked, Unlock, SReady);
  }

  const BORN := WorkerEntry(7, 0, Starting, false, 0)

  const FIRST_PASS := SStarting(map[K2 := 7], false)

  const FIRST_UP := Serving(UP, FIRST_PASS).(
                     seen := {K1, K2}, workers := map[K1 := BORN], wprocs := map[20 := WorkerProc(K1, WSpawned)])

  lemma ReadBoth(s: State, s': State)
    requires Reachable(s) && 10 in s.sprocs && s.extension == {1} && s.registered == BOTH && s.seen <= {K1, K2}
    requires s.sprocs == map[10 := StarterProc(1, SReady)] || s.sprocs == map[10 := StarterProc(1, SSleeping)]
    requires s' == s.(sprocs := map[10 := StarterProc(1, SListed(BOTH))], seen := {K1, K2})
    ensures Reachable(s')
  {
    ReadsBoth();
    assert s.seen + BOTH.Keys == {K1, K2};
    assert s.sprocs[10 := StarterProc(1, SListed(BOTH))] == s'.sprocs;
    TakeStarter(s, Read, s');
  }

  lemma ReadsBoth()
    ensures KeysOf(BOTH, 1) == BOTH
  {
  }

  lemma CleanBoth(s: State, s': State)
    requires Reachable(s) && s.sprocs == map[10 := StarterProc(1, SListed(BOTH))] && s.workers.Keys <= {K1, K2}
    requires s' == s.(sprocs := map[10 := StarterProc(1, SStarting(BOTH, false))])
    ensures Reachable(s')
  {
    assert KeepRegistered(s.workers, 1, BOTH.Keys) == s.workers;
    TakeStarter(s, CleanUp, s');
  }

  lemma ReachFirstUp()
    ensures Reachable(FIRST_UP)
  {
    ReachReady();
    var listed := Serving(UP, SListed(BOTH)).(seen := {K1, K2});
    ReadBoth(Serving(UP, SReady), listed);
    var starting := Serving(UP, SStarting(BOTH, false)).(seen := {K1, K2});
    CleanBoth(listed, starting);
    StartFirst(starting);
  }

  lemma StartFirst(s: State)
    requires Reachable(s) && s.sprocs == map[10 := StarterProc(1, SStarting(BOTH, false))]
    requires s.workers == map[] && s.wprocs == map[] && FreshPid(s, 20)
    ensures Reachable(InPhase(s, FIRST_PASS).(
                        workers := map[K1 := BORN], wprocs := map[20 := WorkerProc(K1, WSpawned)]))
  {
    assert BOTH - {K1} == map[K2 := 7];
    assert ArgKey(K1) == K1;
    TakeStarter(s, StartOne(K1, 20, true),
      InPhase(s, FIRST_PASS).(workers := map[K1 := BORN], wprocs := map[20 := WorkerProc(K1, WSpawned)]));
  }

  // ----- a rolled-back DROP EXTENSION -----

  const DROPPING := NEW_TX.(lock := ExclusiveLock, deleted := {K1, K2})

  const MARKED := FIRST_UP.(starters := map[1 := UP.(needsRestart := true)],
                           workers := map[K1 := BORN.(needsRestart := true)],
                           txs := map[1 := DROPPING])

  lemma ReachExclusive()
    ensures Reachable(Open(FIRST_UP, NEW_TX.(lock := ExclusiveLock)))
  {
    ReachFirstUp();
    BeginOn(FIRST_UP);
    ExclusiveOn(FIRST_UP);
  }

  lemma ReachMarked()
    ensures Reachable(MARKED)
  {
    ReachExclusive();
    var s := Open(FIRST_UP, NEW_TX.(lock := ExclusiveLock));
    MarkFirst(s);
    TakeTx(s, Drop(OneExtension(7), false), MARKED);
  }

  lemma MarkFirst(s: State)
    requires s == Open(FIRST_UP, NEW_TX.(lock := ExclusiveLock))
    ensures OpenTxStep(s, 1, Drop(OneExtension(7), false)) == MARKED
  {
    DropWorkingTx(s);
    DropMarksBorn();
  }

  lemma DropMarksBorn()
    ensures DropWorkers(map[K1 := BORN], 1, OneExtension(7)) == map[K1 := BORN.(needsRestart := true)]
    ensures RequestStarter(map[1 := UP], 1) == map[1 := UP.(needsRestart := true)]
  {
    assert DropsEntry(map[K1 := BORN], K1, 1, OneExtension(7));
  }

  lemma ReachGivenUp()
    ensures Reachable(MARKED.(wprocs := map[20 := WorkerProc(K1, WExiting(0, false))]))
  {
    ReachMarked();
    TakeWorker(MARKED, Appear, MARKED.(wprocs := map[20 := WorkerProc(K1, WExiting(0, false))]));
  }

  lemma ReachExited()
    ensures Reachable(MARKED.(wprocs := map[]))
  {
    ReachGivenUp();
    TakeWorker(MARKED.(wprocs := map[20 := WorkerProc(K1, WExiting(0, false))]), Leave, MARKED.(wprocs := map[]));
  }

  /** The worker is marked before it announces itself, exits, and stays down although DROP
      EXTENSION rolls back and the registration is still there. */
  lemma RollbackCanStrandWorker()
    ensures exists s :: Reachable(s) && K1 in s.registered && s.txs == map[] && Stranded(s, K1)
  {
    ReachExited();
    var s := MARKED.(wprocs := map[], txs := map[]);
    AbortOn(s, DROPPING);
    assert Stranded(s, K1);
  }

  // ----- a rolled-back DROP EXTENSION, the worker having announced itself -----

  const AT_WORK := BORN.(pid := 20, state := Running)

  /** The first worker at work; starter and worker entries as given. */
  function Working(e: StarterEntry, ph: StarterPhase, w: WorkerEntry): State {
    Serving(e, ph).(seen := {K1, K2}, workers := map[K1 := w], wprocs := map[20 := WorkerProc(K1, WWorking)])
  }

  lemma ReachFirstAppeared()
    ensures Reachable(Working(UP, FIRST_PASS, AT_WORK).(wprocs := map[20 := WorkerProc(K1, WRunning)]))
  {
    ReachFirstUp();
    TakeWorker(FIRST_UP, Appear, Working(UP, FIRST_PASS, AT_WORK).(wprocs := map[20 := WorkerProc(K1, WRunning)]));
  }

  lemma ReachWorking()
    ensures Reachable(Working(UP, FIRST_PASS, AT_WORK))
  {
    ReachFirstAppeared();
    var s1 := Working(UP, FIRST_PASS, AT_WORK).(wprocs := map[20 := WorkerProc(K1, WRunning)]);
    TakeWorker(s1, Check, Working(UP, FIRST_PASS, AT_WORK));
  }

  const ASKED := UP.(needsRestart := true)
  const STOPPING := AT_WORK.(needsRestart := true)

  lemma ReachWorkingLocked()
    ensures Reachable(Open(Working(UP, FIRST_PASS, AT_WORK), NEW_TX.(lock := ExclusiveLock)))
  {
    ReachWorking();
    var s := Working(UP, FIRST_PASS, AT_WORK);
    BeginOn(s);
    ExclusiveOn(s);
  }

  lemma ReachWorkingDropped()
    ensures Reachable(Open(Working(ASKED, FIRST_PASS, STOPPING), DROPPING))
  {
    ReachWorkingLocked();
    var s := Open(Working(UP, FIRST_PASS, AT_WORK), NEW_TX.(lock := ExclusiveLock));
    DropWorking(s);
    TakeTx(s, Drop(OneExtension(7), false), Open(Working(ASKED, FIRST_PASS, STOPPING), DROPPING));
  }

  lemma ReachRolledBack()
    ensures Reachable(Working(ASKED, FIRST_PASS, STOPPING))
  {
    ReachWorkingDropped();
    AbortOn(Working(ASKED, FIRST_PASS, STOPPING), DROPPING);
  }

  lemma DropHitsBoth(s: State)
    requires s.registered == BOTH
    ensures DropHits(s, 1, OneExtension(7)) == {K1, K2}
  {
  }

  lemma DropWorkingTx(s: State)
    requires s.registered == BOTH && s.txs == map[1 := NEW_TX.(lock := ExclusiveLock)]
    ensures TxAfter(s, 1, Drop(OneExtension(7), false)) == DROPPING
  {
    DropHitsBoth(s);
    assert s.txs[1].deleted + {K1, K2} == {K1, K2};
    assert forall k :: k !in s.txs[1].inserted;
  }

  lemma DropMarksFirst()
    ensures DropWorkers(map[K1 := AT_WORK], 1, OneExtension(7)) == map[K1 := STOPPING]
    ensures RequestStarter(map[1 := UP], 1) == map[1 := ASKED]
  {
    assert DropsEntry(map[K1 := AT_WORK], K1, 1, OneExtension(7));
  }

  lemma DropWorking(s: State)
    requires s == Open(Working(UP, FIRST_PASS, AT_WORK), NEW_TX.(lock := ExclusiveLock))
    ensures OpenTxStep(s, 1, Drop(OneExtension(7), false)) == Open(Working(ASKED, FIRST_PASS, STOPPING), DROPPING)
  {
    DropWorkingTx(s);
    DropMarksFirst();
  }

  const STOPPED := StarterEntry(0, Stopped, true)

  function WorkingAlone(e: StarterEntry): State {
    Working(e, SSpawned, STOPPING).(sprocs := map[])
  }

  lemma ReachFirstLeaving()
    ensures Reachable(Working(ASKED, SExiting(0, true), STOPPING))
  {
    ReachRolledBack();
    TakeStarter(Working(ASKED, FIRST_PASS, STOPPING), Terminate, Working(ASKED, SExiting(0, true), STOPPING));
  }

  lemma ReachFirstGone()
    ensures Reachable(WorkingAlone(STOPPED))
  {
    ReachFirstLeaving();
    TakeStarter(Working(ASKED, SExiting(0, true), STOPPING), Exit, WorkingAlone(STOPPED));
  }

  const SPAWNED := StarterEntry(0, Starting, false)

  lemma ReachSecondSpawned()
    ensures Reachable(Working(SPAWNED, SSpawned, STOPPING))
  {
    ReachFirstGone();
    TakeServer(WorkingAlone(STOPPED), Start(1, 10, true), Working(SPAWNED, SSpawned, STOPPING));
  }

  /** The starter is replaced by one that answers the request. */
  lemma ReachSecondStarter()
    ensures Reachable(Working(UP, SAnnounced, STOPPING))
  {
    ReachSecondSpawned();
    TakeStarter(Working(SPAWNED, SSpawned, STOPPING), Announce, Working(UP, SAnnounced, STOPPING));
  }

  lemma ReachSecondLocked()
    ensures Reachable(Working(UP, SLocked, STOPPING))
  {
    ReachSecondStarter();
    var s := Working(UP, SAnnounced, STOPPING);
    PhaseOn(s, SAnnounced, Connect, SConnected);
    PhaseOn(s, SConnected, Lock, SLocked);
  }

  lemma ReachSecondRead()
    ensures Reachable(Working(UP, SListed(BOTH), STOPPING))
  {
    ReachSecondLocked();
    TakeStarter(Working(UP, SLocked, STOPPING), Unlock, Working(UP, SReady, STOPPING));
    ReadBoth(Working(UP, SReady, STOPPING), Working(UP, SListed(BOTH), STOPPING));
  }

  lemma ReachSecondList()
    ensures Reachable(Working(UP, SStarting(BOTH, false), STOPPING))
  {
    ReachSecondRead();
    CleanBoth(Working(UP, SListed(BOTH), STOPPING), Working(UP, SStarting(BOTH, false), STOPPING));
  }

  /** It finds the old process still running, and passes on. */
  lemma ReachPassed()
    ensures Reachable(Working(UP, FIRST_PASS, STOPPING))
  {
    ReachSecondList();
    PassFirst(Working(UP, SStarting(BOTH, false), STOPPING));
  }

  lemma PassFirst(s: State)
    requires Reachable(s) && s.sprocs == map[10 := StarterProc(1, SStarting(BOTH, false))]
    requires WorkerBusy(s.workers, K1) && FreshPid(s, 22)
    ensures Reachable(InPhase(s, FIRST_PASS))
  {
    assert BOTH - {K1} == map[K2 := 7];
    TakeStarter(s, StartOne(K1, 22, true), InPhase(s, FIRST_PASS));
  }

  const SERVED := Working(UP, SStarting(map[], false), STOPPING).(
                    workers := map[K1 := STOPPING, K2 := BORN],
                    wprocs := map[20 := WorkerProc(K1, WWorking), 22 := WorkerProc(K2, WSpawned)])

  lemma ReachServed()
    ensures Reachable(SERVED)
  {
    ReachPassed();
    assert map[K2 := 7] - {K2} == map[];
    assert ArgKey(K2) == K2;
    TakeStarter(Working(UP, FIRST_PASS, STOPPING), StartOne(K2, 22, true), SERVED);
  }

  const UNSERVED := SERVED.(starters := map[1 := StarterEntry(0, Stopped, false)], sprocs := map[])

  lemma ReachFinished()
    ensures Reachable(SERVED.(sprocs := map[10 := StarterProc(1, SExiting(0, true))]))
  {
    ReachServed();
    TakeStarter(SERVED, Finish, SERVED.(sprocs := map[10 := StarterProc(1, SExiting(0, true))]));
  }

  lemma ReachUnserved()
    ensures Reachable(UNSERVED)
  {
    ReachFinished();
    TakeStarter(SERVED.(sprocs := map[10 := StarterProc(1, SExiting(0, true))]), Exit, UNSERVED);
  }

  const KILLED := UNSERVED.(wprocs := map[20 := WorkerProc(K1, WExiting(1, true)), 22 := WorkerProc(K2, WSpawned)])

  const LEFT := UNSERVED.(wprocs := map[22 := WorkerProc(K2, WSpawned)],
                          workers := map[K1 := STOPPING.(pid := 0, state := Restarting), K2 := BORN])

  lemma ReachKilled()
    ensures Reachable(KILLED)
  {
    ReachUnserved();
    Crash(UNSERVED);
  }

  const SECOND := WorkerProc(K2, WSpawned)

  lemma Crash(s: State)
    requires Reachable(s) && s.wprocs == map[20 := WorkerProc(K1, WWorking), 22 := SECOND]
    ensures Reachable(s.(wprocs := map[20 := WorkerProc(K1, WExiting(1, true)), 22 := SECOND]))
  {
    TakeWorker(s, Crashed, s.(wprocs := map[20 := WorkerProc(K1, WExiting(1, true)), 22 := SECOND]));
  }

  lemma LeaveMarked(s: State)
    requires Reachable(s) && s.wprocs == map[20 := WorkerProc(K1, WExiting(1, true)), 22 := SECOND]
    requires s.workers == map[K1 := STOPPING, K2 := BORN]
    ensures Reachable(s.(wprocs := map[22 := SECOND],
                         workers := map[K1 := STOPPING.(pid := 0, state := Restarting), K2 := BORN]))
  {
    TakeWorker(s, Leave,
      s.(wprocs := map[22 := SECOND], workers := map[K1 := STOPPING.(pid := 0, state := Restarting), K2 := BORN]));
  }

  lemma ReachLeft()
    ensures Reachable(LEFT)
  {
    ReachKilled();
    LeaveMarked(KILLED);
  }

  /** The worker had announced itself and was marked by a DROP EXTENSION that rolled back. A starter
      answered the request before the worker's exit handler ran, so nothing starts it again. */
  lemma AnnouncedWorkerCanBeLost()
    ensures exists s :: Reachable(s) && s.txs == map[] && K1 in s.workers && !WorkerBusy(s.workers, K1) && Lost(s, K1)
  {
    ReachLeft();
    assert Lost(LEFT, K1);
  }

  // ----- two processes for one key -----

  const UNSTARTED := WorkerEntry(7, 0, NotStarted, true, 0)

  const RELISTED := Serving(UP, SStarting(BOTH, false)).(
                      seen := {K1, K2}, workers := map[K1 := BORN, K2 := UNSTARTED],
                      wprocs := map[20 := WorkerProc(K1, WSpawned)])

  lemma ReachSleeping()
    ensures Reachable(RELISTED.(sprocs := map[10 := StarterProc(1, SSleeping)]))
  {
    ReachFirstUp();
    TakeStarter(FIRST_UP, StartOne(K2, 21, false), RELISTED.(sprocs := map[10 := StarterProc(1, SSleeping)]));
  }

  /** No slot for the second worker, so the starter reads the same two registrations again. */
  lemma ReachRelisted()
    ensures Reachable(RELISTED)
  {
    ReachSleeping();
    var sleeping := RELISTED.(sprocs := map[10 := StarterProc(1, SSleeping)]);
    var listed := RELISTED.(sprocs := map[10 := StarterProc(1, SListed(BOTH))]);
    ReadBoth(sleeping, listed);
    CleanBoth(listed, RELISTED);
  }

  const DEREGISTERED := RELISTED.(registered := map[K2 := 7], gone := {K1},
                                  starters := map[1 := UP.(needsRestart := true)])

  /** Meanwhile the first worker is deregistered. */
  lemma ReachDeregistering()
    ensures Reachable(Open(RELISTED, NEW_TX.(deleted := {K1}, pending := true)))
  {
    ReachRelisted();
    BeginOn(RELISTED);
    assert NEW_TX.inserted - {K1} == map[] && NEW_TX.deleted + {K1} == {K1};
    TakeTx(Open(RELISTED, NEW_TX), Deregister(K1), Open(RELISTED, NEW_TX.(deleted := {K1}, pending := true)));
  }

  lemma ReachAsked()
    ensures Reachable(Open(RELISTED, NEW_TX.(deleted := {K1}, lock := ShareLock, requested := true)).(
                        starters := map[1 := UP.(needsRestart := true)]))
  {
    ReachDeregistering();
    var x1 := NEW_TX.(deleted := {K1}, pending := true);
    var s1 := Open(RELISTED, x1.(lock := ShareLock));
    TakeTx(Open(RELISTED, x1), TakeShare, s1);
    AskOnce(s1);
  }

  lemma AskOnce(s: State)
    requires Reachable(s) && s == Open(RELISTED, NEW_TX.(deleted := {K1}, pending := true, lock := ShareLock))
    ensures Reachable(Open(RELISTED, NEW_TX.(deleted := {K1}, lock := ShareLock, requested := true)).(
                        starters := map[1 := UP.(needsRestart := true)]))
  {
    var s' := Open(RELISTED, NEW_TX.(deleted := {K1}, lock := ShareLock, requested := true)).(
                starters := map[1 := UP.(needsRestart := true)]);
    assert RequestStarter(s.starters, 1) == s'.starters;
    assert s.txs[1 := s'.txs[1]] == s'.txs;
    TakeTx(s, TxAct.Request, s');
  }

  lemma ReachDeregistered()
    ensures Reachable(DEREGISTERED)
  {
    ReachAsked();
    CommitDeregister(RELISTED.(starters := map[1 := UP.(needsRestart := true)]));
  }

  lemma CommitDeregister(s: State)
    requires Reachable(Open(s, NEW_TX.(deleted := {K1}, lock := ShareLock, requested := true)))
    requires s.txs == map[] && s.registered == BOTH && s.gone == {}
    ensures Reachable(s.(registered := map[K2 := 7], gone := {K1}))
  {
    var s1 := Open(s, NEW_TX.(deleted := {K1}, lock := ShareLock, requested := true));
    assert Removed(s1, 1) == {K1};
    assert s1.registered - {K1} + map[] == map[K2 := 7];
    assert s1.txs - {1} == map[];
    TakeTx(s1, Commit, s.(registered := map[K2 := 7], gone := {K1}));
  }

  const SELF_REMOVED := DEREGISTERED.(workers := map[K2 := UNSTARTED], wprocs := map[20 := WorkerProc(K1, WDropped)])

  const APPEARED := DEREGISTERED.(workers := map[K1 := BORN.(pid := 20, state := Running), K2 := UNSTARTED],
                                  wprocs := map[20 := WorkerProc(K1, WRunning)])

  lemma ReachAppeared()
    ensures Reachable(APPEARED)
  {
    ReachDeregistered();
    TakeWorker(DEREGISTERED, Appear, APPEARED);
  }

  lemma ReachSelfRemoved()
    ensures Reachable(SELF_REMOVED)
  {
    ReachAppeared();
    TakeWorker(APPEARED, Check, SELF_REMOVED);
  }

  /** The worker removes its own entry, and the starter's older list makes it spawn the key again
      before the first process has exited. */
  lemma TwoProcessesPossible()
    ensures exists s, q, r :: Reachable(s) && q in s.wprocs && r in s.wprocs && q != r &&
                              s.wprocs[q].key == s.wprocs[r].key
  {
    ReachSelfRemoved();
    assert ArgKey(K1) == K1;
    var s' := StarterStep(SELF_REMOVED, 10, StartOne(K1, 22, true));
    TakeStarter(SELF_REMOVED, StartOne(K1, 22, true), s');
    assert s'.wprocs[20].key == K1 && s'.wprocs[22].key == K1;
  }
}
