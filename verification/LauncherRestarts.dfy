/** When a base worker that has exited and wants to run again is never lost, that is, left without
    anyone to start it: exactly if its entry can be started and some database starter still has the
    worker ahead of it. */
module LauncherRestarts {
  import opened LauncherShm
  import opened LauncherRuns
  import opened LauncherInvariants
  import opened LauncherTheorems

  ghost predicate NoProcess(wprocs: map<Pid, WorkerProc>, k: Key) {
    forall q :: q in wprocs ==> wprocs[q].key != k
  }

  /** The worker is registered, has no process, and its entry asks for a restart. */
  ghost predicate Waits(s: State, k: Key) {
    && k in s.registered && !IsTemplate(s, k.db) && NoProcess(s.wprocs, k)
    && (k in s.workers ==> s.workers[k].needsRestart)
  }

  /** The starter will come to `k` unless it starts it: it has not read its list, has `k` on it, or
      will read it again. */
  predicate Ahead(ph: StarterPhase, k: Key) {
    BeforeRead(ph) || k in ListOf(ph) || (ph.SStarting? && ph.blocked) || ph.SSleeping?
  }

  ghost predicate Attending(h: StarterHash, sprocs: map<Pid, StarterProc>, k: Key) {
    Asked(h, k.db) || exists p :: p in sprocs && sprocs[p].db == k.db && Ahead(sprocs[p].phase, k)
  }

  ghost predicate Attended(s: State, k: Key) {
    !WorkerBusy(s.workers, k) && Attending(s.starters, s.sprocs, k)
  }

  /** A database whose starter has finished and is not asked for. */
  ghost predicate Unserved(h: StarterHash, sprocs: map<Pid, StarterProc>, db: Oid) {
    !Asked(h, db) && forall p :: p in sprocs ==> sprocs[p].db != db
  }

  /** Nothing is under way that would start the worker. */
  ghost predicate Lost(s: State, k: Key) {
    Waits(s, k) && (WorkerBusy(s.workers, k) || Unserved(s.starters, s.sprocs, k.db))
  }

  /** What a step may make of an attended worker. */
  ghost predicate StillOwed(s: State, k: Key) {
    k !in s.registered || !NoProcess(s.wprocs, k) || (Waits(s, k) && Attended(s, k))
  }

  // ----- an attended worker stays attended until it is started -----

  lemma ServerKeepsOwed(s: State, a: ServerAct, k: Key)
    requires Waits(s, k) && Attended(s, k) && ServerEnabled(s, a)
    ensures StillOwed(ServerStep(s, a), k)
  {
    var s' := ServerStep(s, a);
    if !Asked(s.starters, k.db) {
      var p :| p in s.sprocs && s.sprocs[p].db == k.db && Ahead(s.sprocs[p].phase, k);
      assert p in s'.sprocs && s'.sprocs[p] == s.sprocs[p];
    } else if a.Start? && a.db == k.db && SpawnsStarter(s, a) {
      assert s'.sprocs[a.pid] == StarterProc(k.db, SSpawned);
    }
  }

  /** Starters only raise requests. */
  lemma StarterKeepsAsked(s: State, p: Pid, a: StarterAct, db: Oid)
    requires StarterEnabled(s, p, a) && Asked(s.starters, db)
    ensures Asked(StarterStep(s, p, a).starters, db)
  {
  }

  lemma StarterKeepsEntry(s: State, p: Pid, a: StarterAct, k: Key)
    requires StarterEnabled(s, p, a) && Waits(s, k) && !WorkerBusy(s.workers, k)
    requires a.StartOne? ==> ArgKey(a.key) == a.key
    ensures var s' := StarterStep(s, p, a);
      !NoProcess(s'.wprocs, k) || (Waits(s', k) && !WorkerBusy(s'.workers, k))
  {
    var s' := StarterStep(s, p, a);
    if a.StartOne? && StartWorkerResult(s.workers, a.key, s.clock, a.slot).Started? {
      assert s'.wprocs[a.pid].key == a.key;
      if a.key != k {
        assert k in s.workers ==> s'.workers[k] == s.workers[k];
      }
    }
  }

  /** A starter that has `k` ahead of it keeps it ahead, unless it starts it or asks for another. */
  lemma StarterKeepsAhead(s: State, p: Pid, a: StarterAct, k: Key)
    requires StarterEnabled(s, p, a) && s.sprocs[p].db == k.db && Ahead(s.sprocs[p].phase, k)
    requires k in s.registered && k.db in s.extension && OwnsStarter(s.starters, p, s.sprocs[p])
    requires !WorkerBusy(s.workers, k) && (k in s.workers ==> s.workers[k].needsRestart) && ArgKey(k) == k
    ensures var s' := StarterStep(s, p, a);
      !NoProcess(s'.wprocs, k) || Attending(s'.starters, s'.sprocs, k)
  {
    var s' := StarterStep(s, p, a);
    if !a.Exit? {
      assert s'.sprocs[p] == StarterProc(k.db, PhaseAfter(s, p, a));
      if a.StartOne? && a.key == k && StartWorkerResult(s.workers, k, s.clock, a.slot).Started? {
        assert s'.wprocs[a.pid].key == k;
      }
    }
  }

  lemma StarterKeepsOwed(s: State, p: Pid, a: StarterAct, k: Key)
    requires Inv(s) && Waits(s, k) && Attended(s, k) && StarterEnabled(s, p, a)
    requires a.StartOne? ==> ArgKey(a.key) == a.key
    ensures StillOwed(StarterStep(s, p, a), k)
  {
    var s' := StarterStep(s, p, a);
    StarterKeepsEntry(s, p, a, k);
    if Asked(s.starters, k.db) {
      StarterKeepsAsked(s, p, a, k.db);
    } else {
      var r :| r in s.sprocs && s.sprocs[r].db == k.db && Ahead(s.sprocs[r].phase, k);
      if r == p {
        PackedKeySurvivesIfPackable(k);
        StarterKeepsAhead(s, p, a, k);
      } else {
        assert r in s'.sprocs && s'.sprocs[r] == s.sprocs[r];
      }
    }
  }

  lemma WorkerKeepsOwed(s: State, q: Pid, a: WorkerAct, k: Key)
    requires Waits(s, k) && Attended(s, k) && WorkerEnabled(s, q, a)
    ensures StillOwed(WorkerStep(s, q, a), k)
  {
    var s' := WorkerStep(s, q, a);
    assert s.wprocs[q].key != k;
    assert k in s.workers <==> k in s'.workers;
    assert k in s.workers ==> s'.workers[k] == s.workers[k];
    assert Asked(s.starters, k.db) ==> Asked(s'.starters, k.db);
  }

  lemma TxKeepsOwed(s: State, t: TxId, a: TxAct, k: Key)
    requires Waits(s, k) && Attended(s, k) && TxEnabled(s, t, a)
    ensures StillOwed(TxStep(s, t, a), k)
  {
    var s' := TxStep(s, t, a);
    assert k in s.workers <==> k in s'.workers;
    assert k in s.workers ==> s'.workers[k] == s.workers[k];
    assert Asked(s.starters, k.db) ==> Asked(s'.starters, k.db);
  }

  lemma WorldKeepsOwed(s: State, a: WorldAct, k: Key)
    requires Inv(s) && Waits(s, k) && Attended(s, k) && WorldEnabled(s, a)
    ensures StillOwed(WorldStep(s, a), k)
  {
  }

  /** A worker that is attended stays so until it is started or deregistered. */
  lemma OwedUntilStarted(s: State, a: Action, k: Key)
    requires Reachable(s) && Enabled(s, a) && Waits(s, k) && Attended(s, k)
    ensures StillOwed(Apply(s, a), k)
  {
    ReachableInv(s);
    match a
    case ByServer(act) => ServerKeepsOwed(s, act, k);
    case ByStarter(p, act) =>
      if act.StartOne? {
        ListedKeyIsPackable(s, p, act.key);
      }
      StarterKeepsOwed(s, p, act, k);
    case ByWorker(q, act) => WorkerKeepsOwed(s, q, act, k);
    case ByTx(t, act) => TxKeepsOwed(s, t, act, k);
    case ByWorld(act) => WorldKeepsOwed(s, act, k);
  }

  // ----- a lost worker stays lost until somebody asks for a starter -----

  /** What a step may make of a lost worker; an entry that counts as running outlasts requests. */
  ghost predicate LostOrAsked(s: State, s': State, k: Key) {
    k !in s'.registered || Lost(s', k) || (!WorkerBusy(s.workers, k) && Asked(s'.starters, k.db))
  }

  lemma ServerLeavesLost(s: State, a: ServerAct, k: Key)
    requires Inv(s) && Lost(s, k) && ServerEnabled(s, a)
    ensures LostOrAsked(s, ServerStep(s, a), k)
  {
    var s' := ServerStep(s, a);
    if k in s.workers {
      assert k.db in s.databases && Listed(s.server, s.databases, k.db);
      assert k in s'.workers && s'.workers[k] == s.workers[k];
    }
  }

  lemma StarterLeavesLost(s: State, p: Pid, a: StarterAct, k: Key)
    requires ForgetInv(s.sprocs, s.workers, s.wprocs, s.gone) && k !in s.gone
    requires Lost(s, k) && StarterEnabled(s, p, a)
    requires a.StartOne? ==> ArgKey(a.key) == a.key && a.key.db == s.sprocs[p].db
    ensures LostOrAsked(s, StarterStep(s, p, a), k)
  {
    if WorkerBusy(s.workers, k) {
      StarterKeepsBusy(s, p, a, k);
    } else {
      OtherStarterLeavesLost(s, p, a, k);
    }
  }

  lemma OtherStarterLeavesLost(s: State, p: Pid, a: StarterAct, k: Key)
    requires Waits(s, k) && !WorkerBusy(s.workers, k) && Unserved(s.starters, s.sprocs, k.db) && StarterEnabled(s, p, a)
    requires a.StartOne? ==> ArgKey(a.key) == a.key && a.key.db == s.sprocs[p].db
    ensures var s' := StarterStep(s, p, a); Waits(s', k) && Unserved(s'.starters, s'.sprocs, k.db)
  {
    var s' := StarterStep(s, p, a);
    assert s.sprocs[p].db != k.db;
    assert k in s.workers <==> k in s'.workers;
    assert k in s.workers ==> s'.workers[k] == s.workers[k];
  }

  lemma StarterKeepsBusy(s: State, p: Pid, a: StarterAct, k: Key)
    requires WorkerBusy(s.workers, k) && NoProcess(s.wprocs, k) && StarterEnabled(s, p, a)
    requires !MayForget(s.sprocs[p], k) && (a.StartOne? ==> ArgKey(a.key) == a.key)
    ensures var s' := StarterStep(s, p, a);
      k in s'.workers && s'.workers[k] == s.workers[k] && NoProcess(s'.wprocs, k)
  {
    if a.StartOne? && a.key == k {
      assert StartWorkerResult(s.workers, k, s.clock, a.slot).Exists?;
    }
  }

  lemma WorkerLeavesLost(s: State, q: Pid, a: WorkerAct, k: Key)
    requires Lost(s, k) && WorkerEnabled(s, q, a)
    ensures LostOrAsked(s, WorkerStep(s, q, a), k)
  {
    var s' := WorkerStep(s, q, a);
    assert s.wprocs[q].key != k;
    assert k in s.workers <==> k in s'.workers;
    assert k in s.workers ==> s'.workers[k] == s.workers[k];
  }

  lemma TxLeavesLost(s: State, t: TxId, a: TxAct, k: Key)
    requires Lost(s, k) && TxEnabled(s, t, a)
    ensures LostOrAsked(s, TxStep(s, t, a), k)
  {
    var s' := TxStep(s, t, a);
    assert k in s.workers <==> k in s'.workers;
    assert k in s.workers ==> s'.workers[k] == s.workers[k];
  }

  lemma WorldLeavesLost(s: State, a: WorldAct, k: Key)
    requires RegInv(s.databases, s.extension, s.registered, s.usedDbs, s.usedKeys, s.gone)
    requires Lost(s, k) && WorldEnabled(s, a) && !a.CrashRestart?
    ensures LostOrAsked(s, WorldStep(s, a), k)
  {
  }

  lemma ListedKeyIsOwn(s: State, p: Pid, key: Key)
    requires Reachable(s) && p in s.sprocs && key in ListOf(s.sprocs[p].phase)
    ensures ArgKey(key) == key && key.db == s.sprocs[p].db
  {
    ReachableInv(s);
    ListedKeyIsPackable(s, p, key);
  }

  /** A lost worker stays lost until it is deregistered, the server restarts, or, if its entry can be
      started, something else asks for a starter of its database. */
  lemma LostUntilAsked(s: State, a: Action, k: Key)
    requires Reachable(s) && Enabled(s, a) && Lost(s, k) && a != ByWorld(CrashRestart)
    ensures LostOrAsked(s, Apply(s, a), k)
  {
    match a
    case ByServer(act) =>
      ReachableInv(s);
      ServerLeavesLost(s, act, k);
    case ByStarter(p, act) =>
      if act.StartOne? {
        ListedKeyIsOwn(s, p, act.key);
      }
      ReachableInv(s);
      StarterLeavesLost(s, p, act, k);
    case ByWorker(q, act) => WorkerLeavesLost(s, q, act, k);
    case ByTx(t, act) => TxLeavesLost(s, t, act, k);
    case ByWorld(act) =>
      ReachableInv(s);
      WorldLeavesLost(s, act, k);
  }

  // ----- runs in which the worker is not started -----

  /** The worker stays registered and without process all through the run. */
  ghost predicate Quiet(s: State, acts: seq<Action>, k: Key)
    decreases |acts|
  {
    && k in s.registered && NoProcess(s.wprocs, k)
    && (acts != [] ==> Enabled(s, acts[0]) && Quiet(Apply(s, acts[0]), acts[1..], k))
  }

  /** Some run without a start of the worker ends with the worker lost. */
  ghost predicate CanBeLost(s: State, k: Key) {
    exists acts: seq<Action> :: Quiet(s, acts, k) && Run(s, acts).At? && Lost(Run(s, acts).state, k)
  }

  lemma {:induction false} QuietKeepsOwed(s: State, acts: seq<Action>, k: Key)
    requires Reachable(s) && Waits(s, k) && Attended(s, k) && Quiet(s, acts, k)
    ensures Run(s, acts).At? && Waits(Run(s, acts).state, k) && Attended(Run(s, acts).state, k)
    decreases |acts|
  {
    if acts != [] {
      OwedUntilStarted(s, acts[0], k);
      ReachableStep(s, acts[0]);
      QuietKeepsOwed(Apply(s, acts[0]), acts[1..], k);
    }
  }

  lemma {:induction false} AboveAll(pids: set<nat>) returns (n: nat)
    ensures forall x :: x in pids ==> x < n
  {
    if pids == {} {
      return 0;
    }
    var x :| x in pids;
    var m := AboveAll(pids - {x});
    n := if x < m then m else x + 1;
    assert forall y :: y in pids ==> y == x || y in pids - {x};
  }

  lemma SomeFreshPid(s: State) returns (pid: Pid)
    ensures FreshPid(s, pid)
  {
    var n := AboveAll(s.sprocs.Keys + s.wprocs.Keys);
    pid := n + 1;
  }

  /** A starter that no longer has `k` ahead of it, in the loop over its list. */
  ghost predicate Passing(s: State, p: Pid, rest: map<Key, Oid>, k: Key) {
    && Waits(s, k) && !WorkerBusy(s.workers, k) && !Asked(s.starters, k.db)
    && p in s.sprocs && s.sprocs[p] == StarterProc(k.db, SStarting(rest, false)) && k !in rest
    && (forall r :: r in s.sprocs && s.sprocs[r].db == k.db ==> r == p)
  }

  lemma LostNow(s: State, k: Key)
    requires Lost(s, k)
    ensures CanBeLost(s, k)
  {
    assert Quiet(s, [], k) && Run(s, []) == At(s);
  }

  lemma LostAfter(s: State, a: Action, k: Key)
    requires Enabled(s, a) && k in s.registered && NoProcess(s.wprocs, k) && CanBeLost(Apply(s, a), k)
    ensures CanBeLost(s, k)
  {
    var acts: seq<Action> :|
      Quiet(Apply(s, a), acts, k) && Run(Apply(s, a), acts).At? && Lost(Run(Apply(s, a), acts).state, k);
    var all := [a] + acts;
    assert all[0] == a && all[1..] == acts;
    assert Quiet(s, all, k) && Run(s, all) == Run(Apply(s, a), acts);
  }

  /** Its last step: the exit handler of a starter that finished. */
  lemma ExitLoses(s: State, p: Pid, k: Key)
    requires Waits(s, k) && !Asked(s.starters, k.db)
    requires p in s.sprocs && s.sprocs[p].db == k.db && s.sprocs[p].phase.SExiting? && s.sprocs[p].phase.code == 0
    requires forall r :: r in s.sprocs && s.sprocs[r].db == k.db ==> r == p
    ensures CanBeLost(s, k)
  {
    var a := ByStarter(p, Exit);
    assert Lost(Apply(s, a), k);
    LostNow(Apply(s, a), k);
    LostAfter(s, a, k);
  }

  lemma FinishLoses(s: State, p: Pid, k: Key)
    requires Passing(s, p, map[], k)
    ensures CanBeLost(s, k)
  {
    var a := ByStarter(p, Finish);
    ExitLoses(Apply(s, a), p, k);
    LostAfter(s, a, k);
  }

  /** The time after which a delayed restart is due. */
  function DelayOf(w: WorkerHash, k: Key): nat {
    if k in w then w[k].restartAfter + 1 else 0
  }

  lemma PassOne(s: State, p: Pid, rest: map<Key, Oid>, key: Key, pid: Pid, k: Key)
    requires Passing(s, p, rest, k) && key in rest && FreshPid(s, pid) && ArgKey(key) == key
    requires key in s.workers ==> s.clock > s.workers[key].restartAfter
    ensures StarterEnabled(s, p, StartOne(key, pid, true))
    ensures Passing(StarterStep(s, p, StartOne(key, pid, true)), p, rest - {key}, k)
  {
    var s' := StarterStep(s, p, StartOne(key, pid, true));
    assert key != k;
    assert k in s.workers <==> k in s'.workers;
    assert k in s.workers ==> s'.workers[k] == s.workers[k];
  }

  /** The starter goes through the rest of its list, finishes and exits. */
  lemma {:induction false} PassLoses(s: State, p: Pid, rest: map<Key, Oid>, k: Key)
    requires Reachable(s) && Passing(s, p, rest, k)
    ensures CanBeLost(s, k)
    decreases |rest|
  {
    if rest == map[] {
      FinishLoses(s, p, k);
    } else {
      var key :| key in rest;
      ListedKeyIsPackable(s, p, key);
      var tick := ByWorld(Tick(DelayOf(s.workers, key)));
      var s1 := Apply(s, tick);
      ReachableStep(s, tick);
      assert Passing(s1, p, rest, k);
      var pid := SomeFreshPid(s1);
      var start := ByStarter(p, StartOne(key, pid, true));
      PassOne(s1, p, rest, key, pid, k);
      ReachableStep(s1, start);
      assert |rest - {key}| < |rest|;
      PassLoses(Apply(s1, start), p, rest - {key}, k);
      LostAfter(s1, start, k);
      LostAfter(s, tick, k);
    }
  }

  /** A starter that is past `k` may finish without it. */
  lemma StarterPastLoses(s: State, p: Pid, k: Key)
    requires Reachable(s) && Waits(s, k) && !WorkerBusy(s.workers, k) && !Asked(s.starters, k.db)
    requires p in s.sprocs && s.sprocs[p].db == k.db && !Ahead(s.sprocs[p].phase, k)
    ensures CanBeLost(s, k)
  {
    forall r | r in s.sprocs && s.sprocs[r].db == k.db
      ensures r == p
    {
      AtMostOneStarter(s, r, p);
    }
    assert Past(s, p, k);
    match s.sprocs[p].phase
    case SExiting(code, _) => ExitLoses(s, p, k);
    case SStarting(rest, _) => PassLoses(s, p, rest, k);
    case SNoExtension => ForgetLoses(s, p, k);
    case SListed(list) => CleanUpLoses(s, p, list, k);
  }

  ghost predicate Past(s: State, p: Pid, k: Key) {
    && Waits(s, k) && !WorkerBusy(s.workers, k) && !Asked(s.starters, k.db)
    && p in s.sprocs && s.sprocs[p].db == k.db && !Ahead(s.sprocs[p].phase, k)
    && forall r :: r in s.sprocs && s.sprocs[r].db == k.db ==> r == p
  }

  lemma ForgetLoses(s: State, p: Pid, k: Key)
    requires Reachable(s) && Past(s, p, k) && s.sprocs[p].phase.SNoExtension?
    ensures CanBeLost(s, k)
  {
    var a := ByStarter(p, Forget);
    ExitLoses(Apply(s, a), p, k);
    LostAfter(s, a, k);
  }

  lemma CleanUpLoses(s: State, p: Pid, list: map<Key, Oid>, k: Key)
    requires Reachable(s) && Past(s, p, k) && s.sprocs[p].phase == SListed(list)
    ensures CanBeLost(s, k)
  {
    var a := ByStarter(p, CleanUp);
    ReachableStep(s, a);
    assert Passing(Apply(s, a), p, list, k);
    PassLoses(Apply(s, a), p, list, k);
    LostAfter(s, a, k);
  }

  /** A worker that waits for its restart is attended if and only if no run loses it. */
  lemma AttendedIffNeverLost(s: State, k: Key)
    requires Reachable(s) && Waits(s, k)
    ensures Attended(s, k) <==> !CanBeLost(s, k)
  {
    if Attended(s, k) {
      if CanBeLost(s, k) {
        var acts: seq<Action> :| Quiet(s, acts, k) && Run(s, acts).At? && Lost(Run(s, acts).state, k);
        QuietKeepsOwed(s, acts, k);
        assert false;
      }
    } else if Lost(s, k) {
      LostNow(s, k);
    } else {
      var p :| p in s.sprocs && s.sprocs[p].db == k.db;
      StarterPastLoses(s, p, k);
    }
  }

  // ----- the exit of a worker -----

  predicate RestartWanted(w: WorkerHash, k: Key, code: nat) {
    code != 0 || (k in w && w[k].needsRestart)
  }

  lemma OnlyProcess(s: State, q: Pid)
    requires Reachable(s) && q in s.wprocs && s.wprocs[q].key in s.registered
    ensures OwnsWorker(s.workers, q, s.wprocs[q])
    ensures NoProcess(s.wprocs - {q}, s.wprocs[q].key)
  {
    RegisteredWorkerOwnsEntry(s, q);
    forall r | r in s.wprocs && r != q
      ensures s.wprocs[r].key != s.wprocs[q].key
    {
      if s.wprocs[r].key == s.wprocs[q].key {
        AtMostOneWorker(s, r, q);
      }
    }
  }

  lemma ExitAttended(s: State, q: Pid)
    requires WorkerEnabled(s, q, Leave) && OwnsWorker(s.workers, q, s.wprocs[q])
    requires RestartWanted(s.workers, s.wprocs[q].key, ExitCode(s.wprocs[q].phase))
    ensures var k, code := s.wprocs[q].key, ExitCode(s.wprocs[q].phase);
      var s' := WorkerStep(s, q, Leave);
      && k in s'.workers && s'.workers[k].needsRestart
      && (WorkerBusy(s'.workers, k) <==> code == 0 && s.workers[k].state.Starting?)
      && (Attending(s'.starters, s'.sprocs, k) <==>
        UnrequestedFailure(s.workers, k, code) || Attending(s.starters, s.sprocs, k))
  {
  }

  /** A registered worker exits, with any code, and its entry asks for a restart: because a command
      marked it, because it asked for one itself, or because it failed. No run loses it if and only if
      it is not left STARTING, which a worker that never announced itself and exits cleanly is, and a
      starter still has it ahead of it or is asked for by this failure. */
  lemma ExitedWorkerNeverLostIff(s: State, q: Pid)
    requires Reachable(s) && WorkerEnabled(s, q, Leave)
    requires s.wprocs[q].key in s.registered && !IsTemplate(s, s.wprocs[q].key.db)
    requires RestartWanted(s.workers, s.wprocs[q].key, ExitCode(s.wprocs[q].phase))
    ensures var k, code := s.wprocs[q].key, ExitCode(s.wprocs[q].phase);
      var s' := WorkerStep(s, q, Leave);
      && k in s.workers && Waits(s', k)
      && (!CanBeLost(s', k) <==>
            && !(code == 0 && s.workers[k].state.Starting?)
            && (UnrequestedFailure(s.workers, k, code) || Attending(s.starters, s.sprocs, k)))
  {
    var k, s' := s.wprocs[q].key, WorkerStep(s, q, Leave);
    ReachableStep(s, ByWorker(q, Leave));
    OnlyProcess(s, q);
    ExitAttended(s, q);
    AttendedIffNeverLost(s', k);
  }
}
