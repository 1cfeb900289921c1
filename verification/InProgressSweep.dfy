/** The cleanup call: one pass over a list of rows, and what it leaves when nothing else runs. */
module InProgressSweep {

  import opened InProgressRuns
  import opened InProgressProofs
  import opened InProgressCleaning
  import opened InProgressTheorems

  predicate CoveredByAny(paths: seq<Path>, rows: map<Path, Row>, f: Path) {
    exists p :: p in paths && p in rows && Covers(p, rows[p], f)
  }

  /** The paths of the entries whose operation `c` can lock, in order. */
  function FreePaths(s: State, c: TxId, list: seq<Entry>): seq<Path> {
    if list == [] then []
    else
      var e := list[|list| - 1];
      FreePaths(s, c, list[..|list| - 1]) + if LockFree(s, c, e.row.op) then [e.path] else []
  }

  function Free(s: State, c: TxId, list: seq<Entry>): set<Path> {
    set p | p in FreePaths(s, c, list)
  }

  lemma FreePathsNext(s: State, c: TxId, done: seq<Entry>, e: Entry)
    ensures FreePaths(s, c, done + [e]) == FreePaths(s, c, done) + if LockFree(s, c, e.row.op) then [e.path] else []
  {
    assert (done + [e])[..|done + [e]| - 1] == done;
  }

  lemma {:induction false} FreePathsMembers(s: State, c: TxId, list: seq<Entry>, p: Path)
    ensures p in FreePaths(s, c, list) <==> exists e :: e in list && e.path == p && LockFree(s, c, e.row.op)
  {
    if list != [] {
      var last := list[|list| - 1];
      FreePathsMembers(s, c, list[..|list| - 1], p);
      assert list == list[..|list| - 1] + [last];
      assert forall e :: e in list <==> e in list[..|list| - 1] || e == last;
    }
  }

  /** `s'` is `s` after `c` went through `done` and reached `phase`. */
  ghost predicate Swept(s: State, c: TxId, done: seq<Entry>, phase: CleanerPhase, s': State) {
    && c in s.cleaners && c in s.usedTx
    && s' == s.(cleaners := s.cleaners[c := Cleaner(phase, Free(s, c, done), {})],
                locks := s'.locks, remote := s'.remote)
    && (forall op :: op in s.locks ==> op in s'.locks && s'.locks[op] == s.locks[op])
    && (forall op :: op in s'.locks && op !in s.locks ==> s'.locks[op] == c)
    && (forall f :: f in s'.remote <==> f in s.remote && !CoveredByAny(FreePaths(s, c, done), s.rows, f))
  }

  predicate Listed(s: State, list: seq<Entry>) {
    forall e :: e in list ==> e.path in s.rows && s.rows[e.path] == e.row
  }

  lemma ListedParts(s: State, list: seq<Entry>)
    requires Listed(s, list) && list != []
    ensures list == [list[0]] + list[1..] && Listed(s, [list[0]]) && Listed(s, list[1..])
  {
  }

  lemma LockEffect(s: State, c: TxId, e: Entry, rest: seq<Entry>)
    requires c in s.cleaners && c in s.usedTx && s.cleaners[c].phase == Scanning([e] + rest) && LockFree(s, c, e.row.op)
    ensures CleanerEnabled(s, c, CTryLock)
    ensures CleanerStep(s, c, CTryLock) ==
      s.(cleaners := s.cleaners[c := s.cleaners[c].(phase := Locked(e, rest))], locks := s.locks[e.row.op := c])
  {
    assert ([e] + rest)[0] == e && ([e] + rest)[1..] == rest;
    assert s.usedTx + {c} == s.usedTx;
  }

  lemma LockSweeps(s: State, c: TxId, done: seq<Entry>, e: Entry, rest: seq<Entry>, s': State)
    requires Swept(s, c, done, Scanning([e] + rest), s') && LockFree(s, c, e.row.op)
    ensures CleanerEnabled(s', c, CTryLock)
    ensures Swept(s, c, done, Locked(e, rest), CleanerStep(s', c, CTryLock))
  {
    assert LockFree(s', c, e.row.op);
    LockEffect(s', c, e, rest);
    assert s'.cleaners[c := s'.cleaners[c].(phase := Locked(e, rest))] ==
      s.cleaners[c := Cleaner(Locked(e, rest), Free(s, c, done), {})];
  }

  lemma HeldSkips(s: State, c: TxId, done: seq<Entry>, e: Entry, rest: seq<Entry>, s': State)
    requires Swept(s, c, done, Scanning([e] + rest), s') && !LockFree(s, c, e.row.op)
    ensures CleanerEnabled(s', c, CTryLock)
    ensures Swept(s, c, done + [e], Scanning(rest), CleanerStep(s', c, CTryLock))
  {
    assert ([e] + rest)[0] == e && ([e] + rest)[1..] == rest;
    FreePathsNext(s, c, done, e);
    assert FreePaths(s, c, done) + [] == FreePaths(s, c, done);
    assert !LockFree(s', c, e.row.op);
    assert s.usedTx + {c} == s.usedTx;
    var s1 := CleanerStep(s', c, CTryLock);
    assert s1.cleaners == s.cleaners[c := s1.cleaners[c]];
  }

  lemma RecheckSweeps(s: State, c: TxId, done: seq<Entry>, e: Entry, rest: seq<Entry>, s': State)
    requires Swept(s, c, done, Locked(e, rest), s') && e.path in s.rows
    ensures CleanerEnabled(s', c, CRecheck)
    ensures Swept(s, c, done, Confirmed(e, rest), CleanerStep(s', c, CRecheck))
  {
    assert s.usedTx + {c} == s.usedTx;
    var s1 := CleanerStep(s', c, CRecheck);
    assert s1.cleaners == s.cleaners[c := s1.cleaners[c]];
  }

  lemma RemoveSweeps(s: State, c: TxId, done: seq<Entry>, e: Entry, rest: seq<Entry>, s': State)
    requires Swept(s, c, done, Confirmed(e, rest), s') && LockFree(s, c, e.row.op)
    requires e.path in s.rows && s.rows[e.path] == e.row
    ensures CleanerEnabled(s', c, CRemove)
    ensures Swept(s, c, done + [e], Scanning(rest), CleanerStep(s', c, CRemove))
  {
    FreePathsNext(s, c, done, e);
    assert s.usedTx + {c} == s.usedTx;
    var s1 := CleanerStep(s', c, CRemove);
    assert Free(s, c, done + [e]) == Free(s, c, done) + {e.path};
    assert s1.cleaners == s.cleaners[c := s1.cleaners[c]];
  }

  lemma ReadSweeps(s: State, c: TxId, list: seq<Entry>)
    requires c in s.cleaners && c in s.usedTx && s.cleaners[c] == Cleaner(Idle, {}, {}) && Listed(s, list)
    ensures Swept(s, c, [], Scanning(list), CleanerStep(s, c, CRead(list)))
  {
    assert s.usedTx + {c} == s.usedTx;
    assert Free(s, c, []) == {};
  }

  lemma ForgetSweeps(s: State, c: TxId, list: seq<Entry>, s': State)
    requires Listed(s, list) && Swept(s, c, list, Scanning([]), s')
    ensures CleanerEnabled(s', c, CForget)
    ensures var ps := Free(s, c, list);
      CleanerStep(s', c, CForget) == s'.(cleaners := s.cleaners[c := Cleaner(Idle, ps, ps)])
  {
    var ps := Free(s, c, list);
    assert s.usedTx + {c} == s.usedTx;
    forall p | p in ps
      ensures p in s.rows
    {
      FreePathsMembers(s, c, list, p);
    }
    assert (set p | p in s'.cleaners[c].removed && p in s'.rows) == ps;
    assert {} + ps == ps;
    assert CleanerStep(s', c, CForget).cleaners == s.cleaners[c := Cleaner(Idle, ps, ps)];
  }

  // ----- the pass as a run -----

  /** A pass is a run of cleaner steps. */
  lemma {:induction false} EntriesRun(s: State, c: TxId, done: seq<Entry>, rest: seq<Entry>, m: State)
    returns (acts: seq<Action>, s': State)
    requires Listed(s, rest) && Swept(s, c, done, Scanning(rest), m)
    ensures Run(m, acts) == At(s') && Swept(s, c, done + rest, Scanning([]), s')
    decreases |rest|
  {
    if rest == [] {
      assert done + rest == done;
      return [], m;
    }
    var e := rest[0];
    assert rest == [e] + rest[1..] && done + rest == done + [e] + rest[1..];
    assert Listed(s, [e]) && Listed(s, rest[1..]);
    var first, m1 := EntryRun(s, c, done, e, rest[1..], m);
    acts, s' := EntriesRun(s, c, done + [e], rest[1..], m1);
    RunConcat(m, first, m1, acts);
    acts := first + acts;
  }

  lemma EntryRun(s: State, c: TxId, done: seq<Entry>, e: Entry, rest: seq<Entry>, m: State)
    returns (acts: seq<Action>, s': State)
    requires Listed(s, [e]) && Swept(s, c, done, Scanning([e] + rest), m)
    ensures Run(m, acts) == At(s') && Swept(s, c, done + [e], Scanning(rest), s')
    ensures forall i :: 0 <= i < |acts| ==> acts[i].ByCleaner?
  {
    if LockFree(s, c, e.row.op) {
      LockSweeps(s, c, done, e, rest, m);
      var m1 := CleanerStep(m, c, CTryLock);
      RecheckSweeps(s, c, done, e, rest, m1);
      var m2 := CleanerStep(m1, c, CRecheck);
      RemoveSweeps(s, c, done, e, rest, m2);
      s' := CleanerStep(m2, c, CRemove);
      acts := [ByCleaner(c, CTryLock)] + ([ByCleaner(c, CRecheck)] + [ByCleaner(c, CRemove)]);
      RunOne(m2, ByCleaner(c, CRemove));
      RunOne(m1, ByCleaner(c, CRecheck));
      RunOne(m, ByCleaner(c, CTryLock));
      RunConcat(m1, [ByCleaner(c, CRecheck)], m2, [ByCleaner(c, CRemove)]);
      RunConcat(m, [ByCleaner(c, CTryLock)], m1, [ByCleaner(c, CRecheck)] + [ByCleaner(c, CRemove)]);
    } else {
      HeldSkips(s, c, done, e, rest, m);
      s' := CleanerStep(m, c, CTryLock);
      acts := [ByCleaner(c, CTryLock)];
      RunOne(m, ByCleaner(c, CTryLock));
    }
  }

  lemma RunOne(s: State, a: Action)
    requires Enabled(s, a)
    ensures Run(s, [a]) == At(Apply(s, a))
  {
    assert [a][1..] == [];
  }

  lemma {:induction false} RunConcat(s: State, first: seq<Action>, m: State, second: seq<Action>)
    requires Run(s, first) == At(m)
    ensures Run(s, first + second) == Run(m, second)
    decreases |first|
  {
    if first == [] {
      assert first + second == second;
    } else {
      assert (first + second)[1..] == first[1..] + second;
      RunConcat(Apply(s, first[0]), first[1..], m, second);
    }
  }

  /** The state a whole pass leaves: nothing but the cleaner, its locks and the files it removed differ. */
  ghost predicate SweepResult(s: State, c: TxId, list: seq<Entry>, s': State) {
    && c in s.cleaners && c in s'.cleaners
    && s' == s.(cleaners := s.cleaners[c := Cleaner(Idle, Free(s, c, list), Free(s, c, list))],
      locks := s'.locks, remote := s'.remote)
    && (forall op :: op in s.locks ==> op in s'.locks && s'.locks[op] == s.locks[op])
    && (forall f :: f in s'.remote <==> f in s.remote && !CoveredByAny(FreePaths(s, c, list), s.rows, f))
  }

  // ----- a full pass with nothing else running -----

  predicate Alone(s: State, c: TxId) {
    s.owners == map[] && s.cleaners == map[c := Cleaner(Idle, {}, {})]
  }

  predicate ListsAll(s: State, list: seq<Entry>) {
    Listed(s, list) && forall p :: p in s.rows ==> Entry(p, s.rows[p]) in list
  }

  lemma AllFree(s: State, c: TxId, list: seq<Entry>)
    requires Holders(s) && Alone(s, c) && ListsAll(s, list)
    ensures Free(s, c, list) == s.rows.Keys
  {
    assert forall op :: LockFree(s, c, op);
    forall p
      ensures p in FreePaths(s, c, list) <==> p in s.rows
    {
      FreePathsMembers(s, c, list, p);
      if p in s.rows {
        assert Entry(p, s.rows[p]) in list;
      }
    }
  }

  lemma PassCleansAll(s: State, c: TxId, list: seq<Entry>, s': State)
    requires Inv(s) && Holders(s) && Alone(s, c) && ListsAll(s, list) && SweepResult(s, c, list, s')
    ensures DoCleanerEnd(s', c, true).rows == map[]
    ensures DoCleanerEnd(s', c, true).remote == s.kept
  {
    AllFree(s, c, list);
    forall f
      ensures CoveredByAny(FreePaths(s, c, list), s.rows, f) <==> Covered(s.rows, f)
    {
      if Covered(s.rows, f) {
        var p :| p in s.rows && Covers(p, s.rows[p], f);
        assert p in Free(s, c, list);
      }
    }
    assert s'.remote == s.kept;
    assert s'.rows - s'.cleaners[c].deleted == map[];
  }

  /** With nothing else running, one full cleanup leaves exactly the kept files and no record. */
  lemma FlushCleansEverything(s: State, c: TxId, list: seq<Entry>) returns (acts: seq<Action>, s': State)
    requires Reachable(s) && Alone(s, c) && ListsAll(s, list)
    ensures Run(s, acts) == At(s')
    ensures s'.rows == map[] && s'.remote == s.kept
  {
    ReachableInv(s);
    ReachableHolders(s);
    assert c in s.cleaners;
    ReadSweeps(s, c, list);
    var m := CleanerStep(s, c, CRead(list));
    var acts1, m1 := EntriesRun(s, c, [], list, m);
    assert [] + list == list;
    ForgetSweeps(s, c, list, m1);
    var m2 := CleanerStep(m1, c, CForget);
    PassCleansAll(s, c, list, m2);
    s' := CleanerStep(m2, c, CCommit);
    acts := [ByCleaner(c, CRead(list))] + (acts1 + ([ByCleaner(c, CForget)] + [ByCleaner(c, CCommit)]));
    PassRuns(s, c, list, acts1, m1, m2);
  }

  lemma PassRuns(s: State, c: TxId, list: seq<Entry>, acts: seq<Action>, m1: State, m2: State)
    requires CleanerEnabled(s, c, CRead(list)) && Run(CleanerStep(s, c, CRead(list)), acts) == At(m1)
    requires CleanerEnabled(m1, c, CForget) && m2 == CleanerStep(m1, c, CForget) && CleanerEnabled(m2, c, CCommit)
    ensures Run(s, [ByCleaner(c, CRead(list))] + (acts + ([ByCleaner(c, CForget)] + [ByCleaner(c, CCommit)]))) ==
      At(CleanerStep(m2, c, CCommit))
  {
    var m := CleanerStep(s, c, CRead(list));
    var last := [ByCleaner(c, CForget)] + [ByCleaner(c, CCommit)];
    RunOne(m2, ByCleaner(c, CCommit));
    RunOne(m1, ByCleaner(c, CForget));
    RunConcat(m1, [ByCleaner(c, CForget)], m2, [ByCleaner(c, CCommit)]);
    RunConcat(m, acts, m1, last);
    RunOne(s, ByCleaner(c, CRead(list)));
    RunConcat(s, [ByCleaner(c, CRead(list))], m, acts + last);
  }

  class InProgressStore {

    var db: State

    constructor ()
      ensures db == INIT
    {
      db := INIT;
    }

    /** One entry of the pass: skip an operation that is in progress, recheck the record, delete. */
    method RemoveEntry(c: TxId, ghost s: State, ghost done: seq<Entry>, e: Entry, rest: seq<Entry>)
      returns (removed: bool)
      requires Swept(s, c, done, Scanning([e] + rest), db) && Listed(s, [e])
      modifies this
      ensures removed <==> LockFree(s, c, e.row.op)
      ensures Swept(s, c, done + [e], Scanning(rest), db)
    {
      if LockFree(s, c, e.row.op) {
        LockSweeps(s, c, done, e, rest, db);
      } else {
        HeldSkips(s, c, done, e, rest, db);
      }
      db := CleanerStep(db, c, CTryLock);
      if !db.cleaners[c].phase.Locked? {
        return false;
      }
      RecheckSweeps(s, c, done, e, rest, db);
      db := CleanerStep(db, c, CRecheck);
      if !db.cleaners[c].phase.Confirmed? {
        return false;
      }
      RemoveSweeps(s, c, done, e, rest, db);
      db := CleanerStep(db, c, CRemove);
      removed := true;
    }

    method RemoveEntries(c: TxId, ghost s: State, list: seq<Entry>) returns (deletedPaths: seq<Path>)
      requires Listed(s, list) && Swept(s, c, [], Scanning(list), db)
      modifies this
      ensures deletedPaths == FreePaths(s, c, list)
      ensures Swept(s, c, list, Scanning([]), db)
    {
      deletedPaths := [];
      ghost var done: seq<Entry> := [];
      var rest := list;
      while rest != []
        invariant done + rest == list && Listed(s, rest)
        invariant Swept(s, c, done, Scanning(rest), db)
        invariant deletedPaths == FreePaths(s, c, done)
        decreases |rest|
      {
        var e := rest[0];
        ListedParts(s, rest);
        FreePathsNext(s, c, done, e);
        var removed := RemoveEntry(c, s, done, e, rest[1..]);
        if removed {
          deletedPaths := deletedPaths + [e.path];
        }
        done, rest := done + [e], rest[1..];
      }
      assert done == list;
    }

    /** One pass of cleaner `c` over rows it has read. It deletes the remote files of exactly the
        entries whose operation lock is free, in order, and marks exactly their rows deleted. */
    method RemoveInProgressFiles(c: TxId, list: seq<Entry>) returns (deletedPaths: seq<Path>)
      requires c in db.cleaners && c in db.usedTx && db.cleaners[c] == Cleaner(Idle, {}, {})
      requires Listed(db, list)
      modifies this
      ensures deletedPaths == FreePaths(old(db), c, list)
      ensures SweepResult(old(db), c, list, db)
    {
      ghost var s := db;
      ReadSweeps(s, c, list);
      db := CleanerStep(db, c, CRead(list));
      deletedPaths := RemoveEntries(c, s, list);
      ForgetSweeps(s, c, list, db);
      db := CleanerStep(db, c, CForget);
    }
  }
}
