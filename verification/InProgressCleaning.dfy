/** Cleaner steps keep the invariant, and what that means for every run. */
module InProgressCleaning {

  import opened InProgressRuns
  import opened InProgressProofs

  /** Steps that change nothing but one cleaner, and locks that cleaner may take. */
  predicate CleanerMoved(s: State, c: TxId, x: Cleaner, s': State) {
    && c in s.cleaners
    && s' == s.(cleaners := s.cleaners[c := x], locks := s'.locks)
    && (forall op :: op in s.locks ==> op in s'.locks && s'.locks[op] == s.locks[op])
    && (forall op :: op in s'.locks && op !in s.locks ==> s'.locks[op] == c)
  }

  lemma MoveKeepsInv(s: State, c: TxId, x: Cleaner, s': State)
    requires Inv(s) && CleanerMoved(s, c, x, s')
    requires PhaseInv(x.phase, c, s'.rows, s'.locks, s'.recorded)
    requires RemovedInv(x, c, s'.locks, s'.recorded, s'.remote)
    ensures Inv(s')
  {
    FilesUntouched(s, s');
    MoveKeepsTx(s, c, x, s');
    MoveKeepsScans(s, c, x, s');
  }

  lemma MoveKeepsTx(s: State, c: TxId, x: Cleaner, s': State)
    requires TxInv(s) && CleanerMoved(s, c, x, s')
    ensures TxInv(s')
  {
    assert CleanerIds(s'.cleaners, s'.owners, s'.opOwner, s'.usedTx);
    assert LockInv(s'.owners, s'.locks);
  }

  lemma MoveKeepsScans(s: State, c: TxId, x: Cleaner, s': State)
    requires ScanInv(s) && CleanerMoved(s, c, x, s')
    requires PhaseInv(x.phase, c, s'.rows, s'.locks, s'.recorded)
    requires RemovedInv(x, c, s'.locks, s'.recorded, s'.remote)
    ensures ScanInv(s')
  {
    forall d | d in s'.cleaners
      ensures PhaseInv(s'.cleaners[d].phase, d, s'.rows, s'.locks, s'.recorded)
    {
      if d != c {
        assert PhaseInv(s.cleaners[d].phase, d, s.rows, s.locks, s.recorded);
      }
    }
    forall d | d in s'.cleaners
      ensures RemovedInv(s'.cleaners[d], d, s'.locks, s'.recorded, s'.remote)
    {
      if d != c {
        assert RemovedInv(s.cleaners[d], d, s.locks, s.recorded, s.remote);
      }
    }
  }

  lemma CleanerBeginKeepsInv(s: State, c: TxId)
    requires Inv(s) && CleanerEnabled(s, c, CBegin)
    ensures Inv(CleanerStep(s, c, CBegin))
  {
    var s' := CleanerStep(s, c, CBegin);
    FilesUntouched(s, s');
    CleanerBeginKeepsScans(s, c, s');
    assert CleanerIds(s'.cleaners, s'.owners, s'.opOwner, s'.usedTx);
  }

  lemma CleanerBeginKeepsScans(s: State, c: TxId, s': State)
    requires ScanInv(s) && s' == s.(cleaners := s.cleaners[c := Cleaner(Idle, {}, {})], usedTx := s.usedTx + {c})
    ensures ScanInv(s')
  {
  }

  /** What one cleaner step does to that cleaner, apart from the remote delete. */
  lemma CleanerEffect(s: State, c: TxId, a: CleanerAct)
    requires c in s.usedTx && CleanerEnabled(s, c, a)
    requires a.CRead? || a.CTryLock? || a.CRecheck? || a.CForget?
    ensures CleanerMoved(s, c, CleanerAfter(s, c, a), CleanerStep(s, c, a))
  {
    assert s.usedTx + {c} == s.usedTx;
  }

  lemma CleanerPhaseOk(s: State, c: TxId, a: CleanerAct, s': State)
    requires RowInv(s.rows, s.recorded, s.opOwner) && CleanerPhases(s.cleaners, s.rows, s.locks, s.recorded)
    requires CleanerEnabled(s, c, a) && (a.CRead? || a.CTryLock? || a.CRecheck? || a.CForget?)
    requires s' == CleanerStep(s, c, a)
    ensures PhaseInv(CleanerAfter(s, c, a).phase, c, s'.rows, s'.locks, s'.recorded)
  {
    var ph := s.cleaners[c].phase;
    assert PhaseInv(ph, c, s.rows, s.locks, s.recorded);
    if a.CTryLock? {
      assert forall i :: 0 <= i < |ph.rest[1..]| ==> IsRecorded(ph.rest[1..][i], s.recorded);
      assert IsRecorded(ph.rest[0], s.recorded);
    }
  }

  lemma CleanerRemovedOk(s: State, c: TxId, a: CleanerAct, s': State)
    requires CleanersRemoved(s.cleaners, s.locks, s.recorded, s.remote)
    requires CleanerEnabled(s, c, a) && (a.CRead? || a.CTryLock? || a.CRecheck? || a.CForget?)
    requires CleanerMoved(s, c, CleanerAfter(s, c, a), s')
    ensures RemovedInv(CleanerAfter(s, c, a), c, s'.locks, s'.recorded, s'.remote)
  {
    assert RemovedInv(s.cleaners[c], c, s.locks, s.recorded, s.remote);
  }

  lemma ScanStepKeepsInv(s: State, c: TxId, a: CleanerAct)
    requires Inv(s) && CleanerEnabled(s, c, a)
    requires a.CRead? || a.CTryLock? || a.CRecheck? || a.CForget?
    ensures Inv(CleanerStep(s, c, a))
  {
    var s' := CleanerStep(s, c, a);
    CleanerEffect(s, c, a);
    CleanerPhaseOk(s, c, a, s');
    CleanerRemovedOk(s, c, a, s');
    MoveKeepsInv(s, c, CleanerAfter(s, c, a), s');
  }

  // ----- the remote delete -----

  /** No running transaction has a record of the operation of a confirmed entry that is not rolled back. */
  lemma ConfirmedIsOrphan(s: State, c: TxId, t: TxId)
    requires TxInv(s) && ScanInv(s) && c in s.cleaners && s.cleaners[c].phase.Confirmed?
    ensures IsRecorded(s.cleaners[c].phase.e, s.recorded) && s.cleaners[c].phase.e.path in s.rows
    ensures t in s.owners && s.owners[t].own != {} ==> s.owners[t].op != s.cleaners[c].phase.e.row.op
  {
    assert PhaseInv(s.cleaners[c].phase, c, s.rows, s.locks, s.recorded);
    if t in s.owners && s.owners[t].own != {} {
      OwnerHolds(s, t);
    }
  }

  lemma RemoveKeepsInv(s: State, c: TxId)
    requires Inv(s) && CleanerEnabled(s, c, CRemove)
    ensures Inv(CleanerStep(s, c, CRemove))
  {
    var s' := CleanerStep(s, c, CRemove);
    assert s.usedTx + {c} == s.usedTx;
    forall t
      ensures t in s.owners && s.owners[t].own != {} ==> s.owners[t].op != s.cleaners[c].phase.e.row.op
    {
      ConfirmedIsOrphan(s, c, t);
    }
    ConfirmedIsOrphan(s, c, c);
    RemoveKeepsFiles(s, c, s.cleaners[c].phase.e, s');
    RemoveKeepsScans(s, c, s');
    assert CleanerIds(s'.cleaners, s'.owners, s'.opOwner, s'.usedTx);
  }

  lemma RemoveKeepsFiles(s: State, c: TxId, e: Entry, s': State)
    requires TxInv(s) && FileInv(s) && IsRecorded(e, s.recorded) && e.path in s.rows
    requires forall t :: t in s.owners && s.owners[t].own != {} ==> s.owners[t].op != e.row.op
    requires s' == s.(cleaners := s'.cleaners, remote := RemoteAfter(s, e))
    ensures FileInv(s')
  {
    forall t, f | t in s.owners && f in s.written && Backed(s.owners[t].own, s.recorded, f)
      ensures !Covers(e.path, e.row, f)
    {
      BackedIsOwn(s, t, f);
    }
    assert forall f :: f in s.kept ==> !Covers(e.path, s.rows[e.path], f);
  }

  lemma RemoveKeepsScans(s: State, c: TxId, s': State)
    requires ScanInv(s) && CleanerEnabled(s, c, CRemove) && s' == CleanerStep(s, c, CRemove)
    ensures ScanInv(s')
  {
    var e := s.cleaners[c].phase.e;
    assert PhaseInv(s.cleaners[c].phase, c, s.rows, s.locks, s.recorded);
    assert CleanerPhases(s'.cleaners, s'.rows, s'.locks, s'.recorded);
    forall d | d in s'.cleaners
      ensures RemovedInv(s'.cleaners[d], d, s'.locks, s'.recorded, s'.remote)
    {
      assert RemovedInv(s.cleaners[d], d, s.locks, s.recorded, s.remote);
    }
  }

  // ----- the end of a cleaner, and a crash -----

  lemma CleanerEndKeepsInv(s: State, c: TxId, commit: bool)
    requires Inv(s) && c in s.cleaners
    ensures Inv(DoCleanerEnd(s, c, commit))
  {
    var s' := DoCleanerEnd(s, c, commit);
    assert RemovedInv(s.cleaners[c], c, s.locks, s.recorded, s.remote);
    CleanerEndKeepsTx(s, c, commit, s');
    CleanerEndKeepsScans(s, c, commit, s');
    CleanerEndKeepsFiles(s, c, commit, s');
  }

  lemma CleanerEndKeepsTx(s: State, c: TxId, commit: bool, s': State)
    requires TxInv(s) && c in s.cleaners && s' == DoCleanerEnd(s, c, commit)
    ensures TxInv(s')
  {
    assert LockInv(s'.owners, s'.locks);
  }

  lemma CleanerEndKeepsScans(s: State, c: TxId, commit: bool, s': State)
    requires TxInv(s) && ScanInv(s) && c in s.cleaners && s' == DoCleanerEnd(s, c, commit)
    ensures ScanInv(s')
  {
    assert RemovedInv(s.cleaners[c], c, s.locks, s.recorded, s.remote);
    forall d | d in s'.cleaners
      ensures PhaseInv(s'.cleaners[d].phase, d, s'.rows, s'.locks, s'.recorded)
    {
      assert PhaseInv(s.cleaners[d].phase, d, s.rows, s.locks, s.recorded);
    }
    forall d | d in s'.cleaners
      ensures RemovedInv(s'.cleaners[d], d, s'.locks, s'.recorded, s'.remote)
    {
      assert RemovedInv(s.cleaners[d], d, s.locks, s.recorded, s.remote);
    }
  }

  lemma CleanerEndKeepsFiles(s: State, c: TxId, commit: bool, s': State)
    requires FileInv(s) && RowInv(s.rows, s.recorded, s.opOwner) && c in s.cleaners && s' == DoCleanerEnd(s, c, commit)
    requires RemovedInv(s.cleaners[c], c, s.locks, s.recorded, s.remote)
    ensures FileInv(s')
  {
    forall f | f in s.written
      ensures Covered(s'.rows, f) ==> Covered(s.rows, f)
      ensures f in s.remote && Covered(s.rows, f) ==> Covered(s'.rows, f)
    {
      if Covered(s'.rows, f) {
        var p :| p in s'.rows && Covers(p, s'.rows[p], f);
        assert p in s.rows && Covers(p, s.rows[p], f);
      }
      if f in s.remote && Covered(s.rows, f) {
        var p :| p in s.rows && Covers(p, s.rows[p], f);
        assert p !in s.cleaners[c].deleted;
        assert p in s'.rows && Covers(p, s'.rows[p], f);
      }
    }
  }

  lemma CrashKeepsInv(s: State)
    requires Inv(s)
    ensures Inv(DoCrash(s))
  {
    var s' := DoCrash(s);
    assert FileInv(s');
    assert TxInv(s');
  }

  // ----- runs -----

  lemma OwnerStepKeepsInv(s: State, t: TxId, a: OwnerAct)
    requires Inv(s) && OwnerEnabled(s, t, a)
    ensures Inv(OwnerStep(s, t, a))
  {
    match a
    case OBegin => BeginKeepsInv(s, t);
    case OAssign => AssignKeepsInv(s, t);
    case OLock => LockKeepsInv(s, t);
    case ORecord(_, _) => RecordKeepsInv(s, t, a);
    case OWrite(f) => WriteKeepsInv(s, t, f);
    case ODelete(_) => DeleteKeepsInv(s, t, a);
    case OReplace(_, _) => ReplaceKeepsInv(s, t, a);
    case OSave => SaveKeepsInv(s, t);
    case ORelease => ReleaseKeepsInv(s, t);
    case ORollback => RollbackKeepsInv(s, t);
    case OCommit => CommitKeepsInv(s, t);
    case OAbort => AbortKeepsInv(s, t);
  }

  lemma CleanerStepKeepsInv(s: State, c: TxId, a: CleanerAct)
    requires Inv(s) && CleanerEnabled(s, c, a)
    ensures Inv(CleanerStep(s, c, a))
  {
    match a
    case CBegin => CleanerBeginKeepsInv(s, c);
    case CRemove => RemoveKeepsInv(s, c);
    case CCommit => CleanerEndKeepsInv(s, c, true);
    case CAbort => CleanerEndKeepsInv(s, c, false);
    case _ => ScanStepKeepsInv(s, c, a);
  }

  lemma {:induction false} RunKeepsInv(s: State, acts: seq<Action>)
    requires Inv(s)
    ensures var o := Run(s, acts); o.At? ==> Inv(o.state)
    decreases |acts|
  {
    if acts != [] && Enabled(s, acts[0]) {
      match acts[0] {
        case ByOwner(t, a) => OwnerStepKeepsInv(s, t, a);
        case ByCleaner(c, a) => CleanerStepKeepsInv(s, c, a);
        case CrashRestart => CrashKeepsInv(s);
      }
      RunKeepsInv(Apply(s, acts[0]), acts[1..]);
    }
  }

  lemma ReachableInv(s: State)
    requires Reachable(s)
    ensures Inv(s)
  {
    var acts: seq<Action> :| Run(INIT, acts) == At(s);
    InitInv();
    RunKeepsInv(INIT, acts);
  }
}
