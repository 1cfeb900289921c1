/** The base workers' steps keep the launcher's invariants. */
module LauncherWorkerProofs {
  import opened LauncherShm
  import opened LauncherRuns
  import opened LauncherInvariants

  /** A worker changes its own entry and its own process, and nothing else. */
  ghost predicate Touched(s: State, s': State, q: Pid) {
    && q in s.wprocs
    && s' == s.(workers := s'.workers, wprocs := s'.wprocs)
    && s'.workers.Keys <= s.workers.Keys
    && (forall k :: k in s.workers && k != s.wprocs[q].key ==> k in s'.workers && s'.workers[k] == s.workers[k])
    && (forall r :: r != q ==> (r in s'.wprocs <==> r in s.wprocs))
    && (forall r :: r in s.wprocs && r != q ==> s'.wprocs[r] == s.wprocs[r])
    && (q in s'.wprocs ==> s'.wprocs[q].key == s.wprocs[q].key)
  }

  /** What the worker itself must end up with. */
  ghost predicate Settled(s: State, s': State, q: Pid)
    requires q in s.wprocs
  {
    q in s'.wprocs ==>
      if s'.wprocs[q].phase.WDropped? then s.wprocs[q].key in s.gone && !s.wprocs[q].phase.WDropped?
      else !s.wprocs[q].phase.WDropped? &&
           (OwnsWorker(s'.workers, q, s'.wprocs[q]) || Retired(s.gone, s.sprocs, s.wprocs[q].key))
  }

  lemma TouchKeepsOwners(s: State, s': State, q: Pid, r: Pid)
    requires Touched(s, s', q) && Settled(s, s', q)
    requires WorkerInv(s.workers, s.wprocs, s.sprocs, s.registered, s.gone)
    requires r in s'.wprocs && !s'.wprocs[r].phase.WDropped?
    ensures OwnsWorker(s'.workers, r, s'.wprocs[r]) || Retired(s'.gone, s'.sprocs, s'.wprocs[r].key)
  {
    if r != q {
      assert OwnsWorker(s.workers, r, s.wprocs[r]) || Retired(s.gone, s.sprocs, s.wprocs[r].key);
    }
  }

  lemma TouchKeepsWorkers(s: State, s': State, q: Pid)
    requires Touched(s, s', q) && Settled(s, s', q)
    requires WorkerInv(s.workers, s.wprocs, s.sprocs, s.registered, s.gone)
    ensures WorkerInv(s'.workers, s'.wprocs, s'.sprocs, s'.registered, s'.gone)
  {
    forall r | r in s'.wprocs && !s'.wprocs[r].phase.WDropped?
      ensures OwnsWorker(s'.workers, r, s'.wprocs[r]) || Retired(s'.gone, s'.sprocs, s'.wprocs[r].key)
    {
      TouchKeepsOwners(s, s', q, r);
    }
  }

  lemma TouchKeepsHash(s: State, s': State, q: Pid)
    requires Touched(s, s', q)
    requires WorkerHashInv(s.workers, s.server, s.databases, s.registered, s.gone)
    requires ForgetInv(s.sprocs, s.workers, s.wprocs, s.gone)
    ensures WorkerHashInv(s'.workers, s'.server, s'.databases, s'.registered, s'.gone)
    ensures ForgetInv(s'.sprocs, s'.workers, s'.wprocs, s'.gone)
  {
  }

  lemma TouchKeepsEntries(s: State, s': State, q: Pid)
    requires Touched(s, s', q) &&
      (s.wprocs[q].key in s.workers && s.wprocs[q].key !in s'.workers ==> s.wprocs[q].key !in s.registered)
    requires EntryInv(s.starters, s.workers, s.sprocs, s.registered, s.databases)
    ensures EntryInv(s'.starters, s'.workers, s'.sprocs, s'.registered, s'.databases)
  {
  }

  /** A worker that still counts contradicts a cooling entry; one that removed its entry leaves it cooling. */
  lemma TouchKeepsBackoff(s: State, s': State, q: Pid)
    requires Touched(s, s', q)
    requires s.wprocs[q].phase.WDropped? ==>
               q !in s'.wprocs && s'.workers == ExitWorker(s.workers, s.wprocs[q].key, 0, s.clock)
    requires BackoffInv(s.lastFail, s.clock, s.gone, s.sprocs, s.workers, s.wprocs)
    ensures BackoffInv(s'.lastFail, s'.clock, s'.gone, s'.sprocs, s'.workers, s'.wprocs)
  {
    forall k | k in s.lastFail && Cooling(s.workers, s.wprocs, k, s.lastFail[k])
      ensures Cooling(s'.workers, s'.wprocs, k, s'.lastFail[k])
    {
    }
  }

  lemma TouchKeepsInv(s: State, s': State, q: Pid)
    requires Inv(s) && Touched(s, s', q) && Settled(s, s', q)
    requires s.wprocs[q].key in s.workers && s.wprocs[q].key !in s'.workers ==> s.wprocs[q].key !in s.registered
    requires s.wprocs[q].phase.WDropped? ==>
               q !in s'.wprocs && s'.workers == ExitWorker(s.workers, s.wprocs[q].key, 0, s.clock)
    ensures Inv(s')
  {
    TouchKeepsWorkers(s, s', q);
    TouchKeepsHash(s, s', q);
    TouchKeepsEntries(s, s', q);
    TouchKeepsBackoff(s, s', q);
  }

  lemma AppearKeepsInv(s: State, q: Pid)
    requires Inv(s) && WorkerEnabled(s, q, Appear)
    ensures Inv(WorkerStep(s, q, Appear))
  {
    var s' := WorkerStep(s, q, Appear);
    assert OwnsWorker(s.workers, q, s.wprocs[q]) || Retired(s.gone, s.sprocs, s.wprocs[q].key);
    AppearEffect(s, s', q);
    TouchKeepsInv(s, s', q);
  }

  lemma AppearEffect(s: State, s': State, q: Pid)
    requires WorkerEnabled(s, q, Appear) && s' == WorkerStep(s, q, Appear)
    requires OwnsWorker(s.workers, q, s.wprocs[q]) || Retired(s.gone, s.sprocs, s.wprocs[q].key)
    ensures Touched(s, s', q) && Settled(s, s', q)
    ensures s'.workers.Keys == s.workers.Keys && !s.wprocs[q].phase.WDropped?
  {
  }

  lemma CheckKeepsInv(s: State, q: Pid)
    requires Inv(s) && WorkerEnabled(s, q, Check)
    ensures Inv(WorkerStep(s, q, Check))
  {
    var s' := WorkerStep(s, q, Check);
    assert OwnsWorker(s.workers, q, s.wprocs[q]) || Retired(s.gone, s.sprocs, s.wprocs[q].key);
    assert Known(s.registered, s.gone, s.wprocs[q].key);
    TouchKeepsInv(s, s', q);
  }

  lemma ReturnKeepsInv(s: State, q: Pid, delayMs: int)
    requires Inv(s) && WorkerEnabled(s, q, Return(delayMs))
    ensures Inv(WorkerStep(s, q, Return(delayMs)))
  {
    var s' := WorkerStep(s, q, Return(delayMs));
    var m := s.(starters := s'.starters);
    assert OwnsWorker(s.workers, q, s.wprocs[q]) || Retired(s.gone, s.sprocs, s.wprocs[q].key);
    ReturnEffect(s, m, s', q, delayMs);
    RaiseKeepsInv(s, m);
    TouchKeepsInv(m, s', q);
  }

  lemma ReturnEffect(s: State, m: State, s': State, q: Pid, delayMs: int)
    requires WorkerEnabled(s, q, Return(delayMs)) && s' == WorkerStep(s, q, Return(delayMs))
    requires m == s.(starters := s'.starters)
    requires OwnsWorker(s.workers, q, s.wprocs[q]) || Retired(s.gone, s.sprocs, s.wprocs[q].key)
    ensures Raised(s.starters, m.starters) && Touched(m, s', q) && Settled(m, s', q)
    ensures s'.workers.Keys == s.workers.Keys && !s.wprocs[q].phase.WDropped?
  {
  }

  lemma CrashedKeepsInv(s: State, q: Pid)
    requires Inv(s) && WorkerEnabled(s, q, Crashed)
    ensures Inv(WorkerStep(s, q, Crashed))
  {
    var s' := WorkerStep(s, q, Crashed);
    assert OwnsWorker(s.workers, q, s.wprocs[q]) || Retired(s.gone, s.sprocs, s.wprocs[q].key);
    TouchKeepsInv(s, s', q);
  }

  lemma FailureStartsBackoff(s: State, m: State, s': State, q: Pid)
    requires WorkerEnabled(s, q, Leave) && s' == WorkerStep(s, q, Leave)
    requires UnrequestedFailure(s.workers, s.wprocs[q].key, ExitCode(s.wprocs[q].phase))
    requires m == s'.(lastFail := s.lastFail)
    requires WorkerInv(s.workers, s.wprocs, s.sprocs, s.registered, s.gone)
    requires BackoffInv(m.lastFail, m.clock, m.gone, m.sprocs, m.workers, m.wprocs)
    ensures BackoffInv(s'.lastFail, s'.clock, s'.gone, s'.sprocs, s'.workers, s'.wprocs)
  {
    assert Cooling(s'.workers, s'.wprocs, s.wprocs[q].key, s.clock);
  }

  lemma LeaveEffect(s: State, q: Pid)
    requires WorkerEnabled(s, q, Leave)
    ensures var s' := WorkerStep(s, q, Leave);
            && Raised(s.starters, s'.starters)
            && Touched(s.(starters := s'.starters), s'.(lastFail := s.lastFail), q)
            && q !in s'.wprocs
            && (s.wprocs[q].key in s.workers ==> s.wprocs[q].key in s'.workers)
            && (s.wprocs[q].phase.WDropped? ==> s'.workers == ExitWorker(s.workers, s.wprocs[q].key, 0, s.clock))
            && (!UnrequestedFailure(s.workers, s.wprocs[q].key, ExitCode(s.wprocs[q].phase)) ==>
              s'.lastFail == s.lastFail)
  {
  }

  lemma LeaveKeepsInv(s: State, s': State, q: Pid)
    requires Inv(s) && WorkerEnabled(s, q, Leave) && s' == WorkerStep(s, q, Leave)
    ensures Inv(s')
  {
    LeaveEffect(s, q);
    var r := s.(starters := s'.starters);
    RaiseKeepsInv(s, r);
    var m := s'.(lastFail := s.lastFail);
    TouchKeepsInv(r, m, q);
    if UnrequestedFailure(s.workers, s.wprocs[q].key, ExitCode(s.wprocs[q].phase)) {
      FailureStartsBackoff(s, m, s', q);
    }
  }

  lemma WorkerKeepsInv(s: State, q: Pid, a: WorkerAct)
    requires Inv(s) && WorkerEnabled(s, q, a)
    ensures Inv(WorkerStep(s, q, a))
  {
    match a
    case Appear => AppearKeepsInv(s, q);
    case Check => CheckKeepsInv(s, q);
    case Return(delayMs) => ReturnKeepsInv(s, q, delayMs);
    case Crashed => CrashedKeepsInv(s, q);
    case Leave => LeaveKeepsInv(s, WorkerStep(s, q, a), q);
  }
}
