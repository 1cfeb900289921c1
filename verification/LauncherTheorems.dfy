/** What holds in every run of the base worker launcher. */
module LauncherTheorems {
  import opened LauncherShm
  import opened LauncherRuns
  import opened LauncherInvariants
  import LauncherServerProofs
  import LauncherStarterProofs
  import LauncherWorkerProofs
  import LauncherTxProofs

  lemma StepKeepsInv(s: State, a: Action)
    requires Inv(s) && Enabled(s, a)
    ensures Inv(Apply(s, a))
  {
    match a
    case ByServer(act) => LauncherServerProofs.ServerKeepsInv(s, act);
    case ByStarter(p, act) => LauncherStarterProofs.StarterKeepsInv(s, p, act);
    case ByWorker(q, act) => LauncherWorkerProofs.WorkerKeepsInv(s, q, act);
    case ByTx(t, act) => LauncherTxProofs.TxKeepsInv(s, t, act);
    case ByWorld(act) => LauncherTxProofs.WorldKeepsInv(s, act);
  }

  lemma {:induction false} RunKeepsInv(s: State, acts: seq<Action>)
    requires Inv(s) && Run(s, acts).At?
    ensures Inv(Run(s, acts).state)
    decreases |acts|
  {
    if acts != [] {
      StepKeepsInv(s, acts[0]);
      RunKeepsInv(Apply(s, acts[0]), acts[1..]);
    }
  }

  lemma ReachableInv(s: State)
    requires Reachable(s)
    ensures Inv(s)
  {
    var acts: seq<Action> :| Run(INIT, acts) == At(s);
    RunKeepsInv(INIT, acts);
  }

  lemma {:induction false} RunAppend(s: State, acts: seq<Action>, more: seq<Action>)
    requires Run(s, acts).At?
    ensures Run(s, acts + more) == Run(Run(s, acts).state, more)
    decreases |acts|
  {
    if acts == [] {
      assert acts + more == more;
    } else {
      assert (acts + more)[1..] == acts[1..] + more;
      RunAppend(Apply(s, acts[0]), acts[1..], more);
    }
  }

  lemma ReachableStep(s: State, a: Action)
    requires Reachable(s) && Enabled(s, a)
    ensures Reachable(Apply(s, a))
  {
    var acts: seq<Action> :| Run(INIT, acts) == At(s);
    RunAppend(INIT, acts, [a]);
    assert Run(s, [a]) == Run(Apply(s, a), []);
    assert Run(INIT, acts + [a]) == At(Apply(s, a));
  }

  // ----- at most one process -----

  /** No database ever has two live database starters. */
  lemma AtMostOneStarter(s: State, p: Pid, r: Pid)
    requires Reachable(s) && p in s.sprocs && r in s.sprocs
    requires s.sprocs[p].db == s.sprocs[r].db
    ensures p == r
  {
    ReachableInv(s);
  }

  /** Two live workers of one key: one of them has found its registration deleted, removed its own
      entry and is about to exit; the key is never started again. */
  lemma AtMostOneWorker(s: State, q: Pid, r: Pid)
    requires Reachable(s) && q in s.wprocs && r in s.wprocs && q != r
    requires s.wprocs[q].key == s.wprocs[r].key
    ensures s.wprocs[q].phase.WDropped? || s.wprocs[r].phase.WDropped?
    ensures s.wprocs[q].key !in s.registered
  {
    ReachableInv(s);
  }

  /** While its key is registered, a worker's entry names it: pid 0 and STARTING before it
      announces itself, its own pid from then on. */
  lemma RegisteredWorkerOwnsEntry(s: State, q: Pid)
    requires Reachable(s) && q in s.wprocs && s.wprocs[q].key in s.registered
    ensures OwnsWorker(s.workers, q, s.wprocs[q])
  {
    ReachableInv(s);
    assert OwnsWorker(s.workers, q, s.wprocs[q]) || Retired(s.gone, s.sprocs, s.wprocs[q].key);
  }

  // ----- no registration is missed -----

  /** Every registration committed in a non-template database has been read by a starter, or a
      starter that will read it is asked for or on its way. */
  lemma NoRegistrationMissed(s: State, k: Key)
    requires Reachable(s) && k in s.registered && !IsTemplate(s, k.db)
    ensures k in s.seen || k.db !in s.starters || s.starters[k.db].needsRestart || StarterBeforeRead(s.sprocs, k.db)
  {
    ReachableInv(s);
  }

  /** Once a database has settled, every committed registration has its worker entry. */
  lemma SettledDatabaseHasAllEntries(s: State, k: Key)
    requires Reachable(s) && k in s.registered && !IsTemplate(s, k.db)
    requires k.db in s.starters && !s.starters[k.db].needsRestart
    requires forall p :: p in s.sprocs ==> s.sprocs[p].db != k.db
    ensures k in s.workers
  {
    ReachableInv(s);
  }

  /** A transaction that has registered a worker and asked for a starter holds the advisory lock,
      and no starter of its database is past it unless another one is asked for or still waiting. */
  lemma OpenRequestIsWaitedFor(s: State, t: TxId)
    requires Reachable(s) && t in s.txs && s.txs[t].requested && !IsTemplate(s, s.txs[t].db)
    ensures !s.txs[t].lock.NoLock?
    ensures s.txs[t].db !in s.starters || s.starters[s.txs[t].db].needsRestart ||
      StarterBeforeLock(s.sprocs, s.txs[t].db)
  {
    ReachableInv(s);
  }

  // ----- failure backoff -----

  ghost predicate FailedSince(s: State, k: Key, f: nat) {
    k in s.lastFail && f <= s.lastFail[k] && f <= s.clock
  }

  lemma WorkerRemembersFailure(s: State, q: Pid, a: WorkerAct, k: Key, f: nat)
    requires WorkerEnabled(s, q, a) && FailedSince(s, k, f)
    ensures FailedSince(WorkerStep(s, q, a), k, f)
  {
  }

  lemma TxRemembersFailure(s: State, t: TxId, a: TxAct, k: Key, f: nat)
    requires TxEnabled(s, t, a) && FailedSince(s, k, f)
    ensures FailedSince(TxStep(s, t, a), k, f)
  {
  }

  lemma ProcessRemembersFailure(s: State, a: Action, k: Key, f: nat)
    requires Enabled(s, a) && (a.ByServer? || a.ByStarter?) && FailedSince(s, k, f)
    ensures FailedSince(Apply(s, a), k, f)
  {
  }

  lemma StepRemembersFailure(s: State, a: Action, k: Key, f: nat)
    requires Enabled(s, a) && a != ByWorld(CrashRestart) && FailedSince(s, k, f)
    ensures FailedSince(Apply(s, a), k, f)
  {
    match a
    case ByServer(_) => ProcessRemembersFailure(s, a, k, f);
    case ByStarter(_, _) => ProcessRemembersFailure(s, a, k, f);
    case ByWorker(q, act) => WorkerRemembersFailure(s, q, act, k, f);
    case ByTx(t, act) => TxRemembersFailure(s, t, act, k, f);
    case ByWorld(act) =>
  }

  lemma {:induction false} RunRemembersFailure(s: State, acts: seq<Action>, k: Key, f: nat)
    requires Run(s, acts).At? && ByWorld(CrashRestart) !in acts
    requires FailedSince(s, k, f)
    ensures FailedSince(Run(s, acts).state, k, f)
    decreases |acts|
  {
    if acts != [] {
      StepRemembersFailure(s, acts[0], k, f);
      RunRemembersFailure(Apply(s, acts[0]), acts[1..], k, f);
    }
  }

  lemma FailureIsRecorded(s: State, q: Pid)
    requires WorkerEnabled(s, q, Leave)
    requires UnrequestedFailure(s.workers, s.wprocs[q].key, ExitCode(s.wprocs[q].phase))
    ensures FailedSince(WorkerStep(s, q, Leave), s.wprocs[q].key, s.clock)
  {
  }

  lemma SpawnIsCool(s: State, p: Pid, k: Key, pid: Pid, slot: bool, f: nat)
    requires Reachable(s) && StarterEnabled(s, p, StartOne(k, pid, slot))
    requires StartWorkerResult(s.workers, k, s.clock, slot).Started?
    requires FailedSince(s, k, f)
    ensures s.clock > f + NAP_MICROS
  {
    ReachableInv(s);
    LauncherStarterProofs.UnblockedIsCool(s, p, k, slot);
  }

  lemma ReachableRun(s: State, acts: seq<Action>)
    requires Reachable(s) && Run(s, acts).At?
    ensures Reachable(Run(s, acts).state)
  {
    var before: seq<Action> :| Run(INIT, before) == At(s);
    RunAppend(INIT, before, acts);
    assert Run(INIT, before + acts) == At(Run(s, acts).state);
  }

  /** After an error exit nobody asked for, no starter spawns that worker until more than
      NAP_TIME_AFTER_FAILURE has passed, whatever happens in between. */
  lemma BackoffHolds(s: State, q: Pid, k: Key, between: seq<Action>, s': State, p: Pid, pid: Pid, slot: bool)
    requires Reachable(s) && WorkerEnabled(s, q, Leave) && k == s.wprocs[q].key
    requires UnrequestedFailure(s.workers, k, ExitCode(s.wprocs[q].phase))
    requires ByWorld(CrashRestart) !in between
    requires Run(Apply(s, ByWorker(q, Leave)), between) == At(s')
    requires StarterEnabled(s', p, StartOne(k, pid, slot))
    requires StartWorkerResult(s'.workers, k, s'.clock, slot).Started?
    ensures s'.clock > s.clock + 1000 * NAP_TIME_AFTER_FAILURE
  {
    var m := Apply(s, ByWorker(q, Leave));
    ReachableStep(s, ByWorker(q, Leave));
    ReachableRun(m, between);
    FailureIsRecorded(s, q);
    RunRemembersFailure(m, between, k, s.clock);
    SpawnIsCool(s', p, k, pid, slot, s.clock);
  }

  // ----- a worker left STARTING -----

  /** An entry that says STARTING although no process is left for it. */
  ghost predicate Stranded(s: State, k: Key) {
    k in s.workers && s.workers[k].state.Starting? && forall q :: q in s.wprocs ==> s.wprocs[q].key != k
  }

  lemma ServerLeavesStranded(s: State, a: ServerAct, k: Key)
    requires ServerEnabled(s, a) && Stranded(s, k)
    ensures var s' := ServerStep(s, a); k in s'.workers ==> Stranded(s', k)
  {
  }

  lemma StartOneLeavesStranded(s: State, p: Pid, key: Key, pid: Pid, slot: bool, k: Key)
    requires StarterEnabled(s, p, StartOne(key, pid, slot)) && Stranded(s, k) && Packable(key)
    ensures Stranded(StarterStep(s, p, StartOne(key, pid, slot)), k)
  {
    if key == k {
      assert StartWorkerResult(s.workers, key, s.clock, slot).Exists?;
    }
  }

  lemma StarterLeavesStranded(s: State, p: Pid, a: StarterAct, k: Key)
    requires StarterEnabled(s, p, a) && Stranded(s, k) && !a.StartOne?
    ensures var s' := StarterStep(s, p, a);
            s'.wprocs == s.wprocs && (k in s'.workers ==> s'.workers[k] == s.workers[k])
  {
  }

  lemma WorkerLeavesStranded(s: State, q: Pid, a: WorkerAct, k: Key)
    requires WorkerEnabled(s, q, a) && Stranded(s, k)
    ensures var s' := WorkerStep(s, q, a); k in s'.workers ==> Stranded(s', k)
  {
    assert s.wprocs[q].key != k;
  }

  lemma TxLeavesStranded(s: State, t: TxId, a: TxAct, k: Key)
    requires TxEnabled(s, t, a) && Stranded(s, k)
    ensures Stranded(TxStep(s, t, a), k)
  {
  }

  lemma WorldLeavesStranded(s: State, a: WorldAct, k: Key)
    requires WorldEnabled(s, a) && Stranded(s, k)
    ensures var s' := WorldStep(s, a); k in s'.workers ==> Stranded(s', k)
  {
  }

  /** Nothing but removal of the entry ends that: the worker is not started again. */
  lemma StrandedStaysDown(s: State, a: Action, k: Key)
    requires Reachable(s) && Enabled(s, a) && Stranded(s, k)
    ensures var s' := Apply(s, a); k in s'.workers ==> Stranded(s', k)
  {
    match a
    case ByServer(act) => ServerLeavesStranded(s, act, k);
    case ByStarter(p, act) =>
      if act.StartOne? {
        ListedKeyIsPackable(s, p, act.key);
        StartOneLeavesStranded(s, p, act.key, act.pid, act.slot, k);
      } else {
        StarterLeavesStranded(s, p, act, k);
      }
    case ByWorker(q, act) => WorkerLeavesStranded(s, q, act, k);
    case ByTx(t, act) => TxLeavesStranded(s, t, act, k);
    case ByWorld(act) => WorldLeavesStranded(s, act, k);
  }

  lemma ListedKeyIsPackable(s: State, p: Pid, key: Key)
    requires Reachable(s) && p in s.sprocs && key in ListOf(s.sprocs[p].phase)
    ensures Packable(key)
  {
    ReachableInv(s);
    LauncherStarterProofs.ListedIsPackable(s, p, key);
  }
}
