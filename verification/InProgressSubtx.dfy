/** Subtransactions: a rolled back one may give up the operation lock while its transaction runs on.
    A file is safe from cleaners exactly as long as the lock is held. */
module InProgressSubtx {

  import opened InProgressRuns
  import opened InProgressProofs
  import opened InProgressCleaning
  import opened InProgressTheorems
  import opened InProgressSweep

  /** Nothing is done by transaction `t`, and the server stays up. */
  predicate Without(acts: seq<Action>, t: TxId) {
    forall i :: 0 <= i < |acts| ==> acts[i] != CrashRestart && (acts[i].ByOwner? ==> acts[i].t != t)
  }

  ghost predicate CanBeRemoved(s: State, t: TxId, f: Path) {
    exists acts: seq<Action> ::
      Without(acts, t) && Run(s, acts).At? && t in Run(s, acts).state.owners && f !in Run(s, acts).state.remote
  }

  // ----- a file under a held lock -----

  ghost predicate Guarded(s: State, t: TxId, f: Path) {
    && t in s.owners && HasLock(s.locks, t, s.owners[t].op)
    && f in s.remote && f in s.written && s.written[f] == s.owners[t].op
  }

  lemma OtherLocksStay(s: State, u: TxId, a: OwnerAct, t: TxId, op: Op)
    requires u != t && OwnerEnabled(s, u, a) && HasLock(s.locks, t, op)
    ensures HasLock(OwnerStep(s, u, a).locks, t, op)
  {
    if !a.OCommit? && !a.OAbort? {
      assert OwnerStep(s, u, a).locks == LocksAfter(s, u, a);
    }
  }

  lemma OtherOwnerStays(s: State, u: TxId, a: OwnerAct, t: TxId)
    requires u != t && t in s.owners && OwnerEnabled(s, u, a)
    ensures t in OwnerStep(s, u, a).owners && OwnerStep(s, u, a).owners[t] == s.owners[t]
  {
  }

  lemma OwnerKeepsFile(s: State, u: TxId, a: OwnerAct, f: Path)
    requires OwnerEnabled(s, u, a) && f in s.remote && f in s.written
    ensures var s' := OwnerStep(s, u, a); f in s'.remote && f in s'.written && s'.written[f] == s.written[f]
  {
  }

  lemma OwnerKeepsGuarded(s: State, u: TxId, a: OwnerAct, t: TxId, f: Path)
    requires Guarded(s, t, f) && u != t && OwnerEnabled(s, u, a)
    ensures Guarded(OwnerStep(s, u, a), t, f)
  {
    OtherLocksStay(s, u, a, t, s.owners[t].op);
    OtherOwnerStays(s, u, a, t);
    OwnerKeepsFile(s, u, a, f);
  }

  lemma CleanerKeepsGuarded(s: State, c: TxId, a: CleanerAct, t: TxId, f: Path)
    requires Inv(s) && Guarded(s, t, f) && CleanerEnabled(s, c, a)
    ensures Guarded(CleanerStep(s, c, a), t, f)
  {
    if a.CRemove? {
      OthersEntry(s, c, t, f);
    }
    if a.CCommit? || a.CAbort? {
      assert c != t;
    }
  }

  /** A cleaner about to remove an entry has its operation lock, so the entry is of another operation. */
  lemma OthersEntry(s: State, c: TxId, t: TxId, f: Path)
    requires Inv(s) && Guarded(s, t, f) && CleanerEnabled(s, c, CRemove)
    ensures !Covers(s.cleaners[c].phase.e.path, s.cleaners[c].phase.e.row, f)
  {
    assert PhaseInv(s.cleaners[c].phase, c, s.rows, s.locks, s.recorded);
  }

  lemma StepKeepsGuarded(s: State, a: Action, t: TxId, f: Path)
    requires Inv(s) && Guarded(s, t, f) && Enabled(s, a) && a != CrashRestart && (a.ByOwner? ==> a.t != t)
    ensures Guarded(Apply(s, a), t, f)
  {
    match a
    case ByOwner(u, act) => OwnerKeepsGuarded(s, u, act, t, f);
    case ByCleaner(c, act) => CleanerKeepsGuarded(s, c, act, t, f);
  }

  lemma StepKeepsInv(s: State, a: Action)
    requires Inv(s) && Enabled(s, a)
    ensures Inv(Apply(s, a))
  {
    match a
    case ByOwner(u, act) => OwnerStepKeepsInv(s, u, act);
    case ByCleaner(c, act) => CleanerStepKeepsInv(s, c, act);
    case CrashRestart => CrashKeepsInv(s);
  }

  lemma WithoutFirst(acts: seq<Action>, t: TxId)
    requires Without(acts, t) && acts != []
    ensures Without(acts[1..], t)
  {
  }

  lemma {:induction false} RunKeepsGuarded(s: State, acts: seq<Action>, t: TxId, f: Path)
    requires Inv(s) && Guarded(s, t, f) && Without(acts, t) && Run(s, acts).At?
    ensures Guarded(Run(s, acts).state, t, f)
    decreases |acts|
  {
    if acts != [] {
      var s1 := Apply(s, acts[0]);
      StepKeepsGuarded(s, acts[0], t, f);
      StepKeepsInv(s, acts[0]);
      WithoutFirst(acts, t);
      RunKeepsGuarded(s1, acts[1..], t, f);
    }
  }

  // ----- a file under a free lock -----

  lemma {:induction false} Above(ids: set<TxId>) returns (n: TxId)
    ensures forall t :: t in ids ==> t < n
    decreases |ids|
  {
    if ids == {} {
      n := 0;
    } else {
      var t :| t in ids;
      assert |ids - {t}| < |ids|;
      var m := Above(ids - {t});
      n := if t < m then m else t + 1;
      assert forall u :: u in ids ==> u == t || u in ids - {t};
    }
  }

  lemma OneFree(s: State, c: TxId, e: Entry)
    requires LockFree(s, c, e.row.op)
    ensures FreePaths(s, c, [e]) == [e.path]
  {
    FreePathsNext(s, c, [], e);
    assert [] + [e] == [e];
  }

  /** The steps of a cleaner that reads one row and removes what it covers. */
  lemma RowRun(s: State, c: TxId, e: Entry) returns (acts: seq<Action>, s': State)
    requires FreshTx(s, c) && e.path in s.rows && s.rows[e.path] == e.row && e.row.op !in s.locks
    ensures Run(s, acts) == At(s') && s'.owners == s.owners && forall f :: f in s'.remote ==> !Covers(e.path, e.row, f)
    ensures forall t :: Without(acts, t)
  {
    var begin, read := ByCleaner(c, CBegin), ByCleaner(c, CRead([e]));
    var s1 := Apply(s, begin);
    RunOne(s, begin);
    ReadSweeps(s1, c, [e]);
    var s2 := Apply(s1, read);
    RunOne(s1, read);
    assert [e] + [] == [e];
    var rest;
    rest, s' := EntryRun(s1, c, [], e, [], s2);
    OneFree(s1, c, e);
    assert [] + [e] == [e];
    RunConcat(s1, [read], s2, rest);
    RunConcat(s, [begin], s1, [read] + rest);
    acts := [begin] + ([read] + rest);
    OnlyCovered(s1, s2, c, e, s');
  }

  lemma OnlyCovered(s1: State, s2: State, c: TxId, e: Entry, s': State)
    requires e.path in s1.rows && s1.rows[e.path] == e.row && FreePaths(s1, c, [e]) == [e.path]
    requires Swept(s1, c, [e], Scanning([]), s')
    ensures forall f :: f in s'.remote ==> !Covers(e.path, e.row, f)
  {
    forall f | f in s'.remote
      ensures !Covers(e.path, e.row, f)
    {
      assert !CoveredByAny([e.path], s1.rows, f);
      assert e.path in [e.path];
    }
  }

  lemma FreeCanBeRemoved(s: State, t: TxId, f: Path)
    requires Inv(s) && t in s.owners && f in s.written && s.written[f] == s.owners[t].op
    requires Covered(s.rows, f) && s.owners[t].op !in s.locks
    ensures CanBeRemoved(s, t, f)
  {
    var p :| p in s.rows && Covers(p, s.rows[p], f);
    assert s.recorded[p] == s.rows[p];
    var c := Above(s.usedTx);
    var acts, s' := RowRun(s, c, Entry(p, s.rows[p]));
    assert Without(acts, t) && t in Run(s, acts).state.owners;
  }

  lemma RemovedLater(s: State, a: Action, t: TxId, f: Path)
    requires Enabled(s, a) && a.ByCleaner? && CanBeRemoved(Apply(s, a), t, f)
    ensures CanBeRemoved(s, t, f)
  {
    var s1 := Apply(s, a);
    var acts: seq<Action> :|
      Without(acts, t) && Run(s1, acts).At? && t in Run(s1, acts).state.owners && f !in Run(s1, acts).state.remote;
    RunOne(s, a);
    RunConcat(s, [a], s1, acts);
    assert Without([a] + acts, t);
  }

  /** A cleaner that holds the lock may end first. */
  lemma CleanerEnds(s: State, c: TxId, t: TxId, f: Path)
    requires Inv(s) && t in s.owners && f in s.written && s.written[f] == s.owners[t].op && Covered(s.rows, f)
    requires c in s.cleaners && s.owners[t].op in s.locks && s.locks[s.owners[t].op] == c
    ensures CanBeRemoved(s, t, f)
  {
    var s1 := DoCleanerEnd(s, c, false);
    CleanerEndKeepsInv(s, c, false);
    assert s1.owners == s.owners && s1.rows == s.rows && s1.written == s.written;
    assert s.owners[t].op !in s1.locks;
    FreeCanBeRemoved(s1, t, f);
    RemovedLater(s, ByCleaner(c, CAbort), t, f);
  }

  lemma UnlockedCanBeRemoved(s: State, t: TxId, f: Path)
    requires Inv(s) && Holders(s) && t in s.owners && f in s.written && s.written[f] == s.owners[t].op
    requires Covered(s.rows, f) && !HasLock(s.locks, t, s.owners[t].op)
    ensures CanBeRemoved(s, t, f)
  {
    var op := s.owners[t].op;
    assert op in s.opOwner && op != 0 && s.opOwner[op] == t;
    if op !in s.locks {
      FreeCanBeRemoved(s, t, f);
    } else {
      CleanerEnds(s, s.locks[op], t, f);
    }
  }

  /** The file of a running transaction can be removed under it if and only if the transaction does not
      hold its operation lock. With a record that is not rolled back it does (RunningFilesExist). */
  lemma RemovableIffUnlocked(s: State, t: TxId, f: Path)
    requires Reachable(s) && t in s.owners && f in s.written && s.written[f] == s.owners[t].op && f in s.remote
    ensures CanBeRemoved(s, t, f) <==> !HasLock(s.locks, t, s.owners[t].op)
  {
    ReachableInv(s);
    ReachableHolders(s);
    if HasLock(s.locks, t, s.owners[t].op) {
      if CanBeRemoved(s, t, f) {
        var acts: seq<Action> :|
          Without(acts, t) && Run(s, acts).At? && t in Run(s, acts).state.owners && f !in Run(s, acts).state.remote;
        RunKeepsGuarded(s, acts, t, f);
        assert false;
      }
    } else {
      LiveIsNotKept(s, t, f);
      UnlockedCanBeRemoved(s, t, f);
    }
  }

  lemma LiveIsNotKept(s: State, t: TxId, f: Path)
    requires Inv(s) && t in s.owners && f in s.written && s.written[f] == s.owners[t].op && f in s.remote
    ensures Covered(s.rows, f)
  {
    assert s.written[f] in s.opOwner;
    assert Live(s.owners, s.opOwner, s.written[f]);
  }

  // ----- a rolled back subtransaction gives up the lock -----

  const FILE: Path := "f"
  const ROW := Row(1, false)

  const STARTED := Owner(1, {}, map[], {}, [])
  const SAVED := STARTED.(saves := [Saved({}, map[], {}, false)])

  const SUB_STATE := State(map[FILE := ROW], map[1 := 1], {FILE}, 2, map[1 := SAVED.(own := {FILE})], map[],
    {1}, map[FILE := ROW], map[1 := 1], map[FILE := 1], {})

  const ROLLED_BACK := SUB_STATE.(locks := map[], owners := map[1 := STARTED])

  function Owned(o: Owner): State {
    State(map[], map[], {}, 2, map[1 := o], map[], {1}, map[], map[1 := 1], map[], {})
  }

  lemma ReachSaved()
    ensures Reachable(Owned(SAVED))
  {
    var s0 := INIT.(owners := map[1 := Owner(0, {}, map[], {}, [])], usedTx := {1});
    Step(INIT, OBegin, s0);
    Step(s0, OAssign, Owned(STARTED));
    assert [] + [Saved({}, map[], {}, false)] == [Saved({}, map[], {}, false)];
    Step(Owned(STARTED), OSave, Owned(SAVED));
  }

  lemma InitReachable()
    ensures Reachable(INIT)
  {
    assert Run(INIT, []) == At(INIT);
  }

  lemma Step(s: State, a: OwnerAct, s': State)
    requires s == INIT || Reachable(s)
    requires OwnerEnabled(s, 1, a) && s' == OwnerStep(s, 1, a)
    ensures Reachable(s')
  {
    InitReachable();
    var acts: seq<Action> :| Run(INIT, acts) == At(s);
    RunOne(s, ByOwner(1, a));
    RunConcat(INIT, acts, s, [ByOwner(1, a)]);
  }

  const LOCKED := Owned(SAVED).(locks := map[1 := 1])

  const RECORDED := LOCKED.(rows := map[FILE := ROW], recorded := map[FILE := ROW],
    owners := map[1 := SAVED.(own := {FILE})])

  lemma ReachRecorded()
    ensures Reachable(RECORDED)
  {
    ReachSaved();
    Step(Owned(SAVED), OLock, LOCKED);
    var s' := OwnerStep(LOCKED, 1, ORecord(FILE, false));
    RecordEffect(LOCKED, 1, ORecord(FILE, false));
    assert SAVED.own + {FILE} == {FILE};
    assert LOCKED.owners[1 := SAVED.(own := {FILE})] == RECORDED.owners;
    assert s' == RECORDED;
    Step(LOCKED, ORecord(FILE, false), RECORDED);
  }

  lemma ReachRolledBack()
    ensures Reachable(ROLLED_BACK)
  {
    ReachRecorded();
    assert ROW == RECORDED.rows[FILE] && FILE in RECORDED.owners[1].own;
    WriteEffect(RECORDED, 1, FILE);
    Step(RECORDED, OWrite(FILE), SUB_STATE);
    RollbackEffect();
    Step(SUB_STATE, ORollback, ROLLED_BACK);
  }

  lemma RollbackEffect()
    ensures OwnerEnabled(SUB_STATE, 1, ORollback) && OwnerStep(SUB_STATE, 1, ORollback) == ROLLED_BACK
  {
    QuietEffect(SUB_STATE, 1, ORollback);
    assert RolledBack(SAVED.(own := {FILE})) == STARTED;
    assert SUB_STATE.owners[1 := STARTED] == ROLLED_BACK.owners;
    assert ReleaseLocks(SUB_STATE.locks, 1) == map[];
  }

  /** After SAVEPOINT, a first record and ROLLBACK TO, the transaction runs on without its lock. */
  lemma RollbackGivesUpLock()
    ensures exists s, t, f :: Reachable(s) && t in s.owners && f in s.written && s.written[f] == s.owners[t].op
                              && f in s.remote && CanBeRemoved(s, t, f)
  {
    ReachRolledBack();
    RemovableIffUnlocked(ROLLED_BACK, 1, FILE);
  }
}
