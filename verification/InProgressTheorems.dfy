/** What in-progress file bookkeeping promises over every run, and the cleanup call itself. */
module InProgressTheorems {

  import opened InProgressRuns
  import opened InProgressProofs
  import opened InProgressCleaning

  // ----- safety -----

  /** Files whose owner committed after deleting their record survive every later run. */
  lemma KeptFilesSurvive(s: State, acts: seq<Action>, s': State, f: Path)
    requires Reachable(s) && f in s.kept && Run(s, acts) == At(s')
    ensures f in s'.remote && f in s'.kept
  {
    ReachableInv(s);
    RunKeepsInv(s, acts);
    KeptGrows(s, acts);
  }

  lemma {:induction false} KeptGrows(s: State, acts: seq<Action>)
    ensures Run(s, acts).At? ==> s.kept <= Run(s, acts).state.kept
    decreases |acts|
  {
    if acts != [] && Enabled(s, acts[0]) {
      assert s.kept <= Apply(s, acts[0]).kept;
      KeptGrows(Apply(s, acts[0]), acts[1..]);
    }
  }

  /** No cleaner ever removes a file of a running transaction, unless its record was made in a
      subtransaction that was rolled back. */
  lemma RunningFilesExist(s: State, f: Path, t: TxId)
    requires Reachable(s) && t in s.owners && f in s.written && Backed(s.owners[t].own, s.recorded, f)
    ensures s.written[f] == s.owners[t].op && HasLock(s.locks, t, s.owners[t].op)
    ensures f in s.remote && Covered(s.rows, f)
  {
    ReachableInv(s);
    BackedIsOwn(s, t, f);
    OwnerHolds(s, t);
  }

  /** A file in remote storage is either kept or still covered by a committed row, and never both. */
  lemma NothingOrphanedIsForgotten(s: State, f: Path)
    requires Reachable(s) && f in s.remote
    ensures f in s.kept <==> !Covered(s.rows, f)
  {
    ReachableInv(s);
  }

  // ----- who holds an operation lock -----

  /** A holder is a cleaner, or the owner whose operation it is. */
  predicate HoldersRun(locks: map<Op, TxId>, owners: map<TxId, Owner>, cleaners: map<TxId, Cleaner>) {
    forall op :: op in locks ==>
      locks[op] in cleaners || (op != 0 && locks[op] in owners && owners[locks[op]].op == op)
  }

  predicate Holders(s: State) {
    HoldersRun(s.locks, s.owners, s.cleaners)
  }

  lemma OwnerEndKeepsHolders(s: State, t: TxId, s': State)
    requires Holders(s) && t in s.owners && t !in s.cleaners
    requires s'.owners == s.owners - {t} && s'.locks == ReleaseLocks(s.locks, t) && s'.cleaners == s.cleaners
    ensures Holders(s')
  {
  }

  lemma OpenOwnerKeepsHolders(s: State, t: TxId, a: OwnerAct)
    requires Holders(s) && OwnerEnabled(s, t, a) && !a.OCommit? && !a.OAbort? && (a.OBegin? ==> t !in s.owners)
    ensures Holders(OpenOwnerStep(s, t, a))
  {
    var s' := OpenOwnerStep(s, t, a);
    assert s'.owners == s.owners[t := OwnerAfter(s, t, a)] && s'.cleaners == s.cleaners;
    assert t in s.owners && s.owners[t].op != 0 ==> OwnerAfter(s, t, a).op == s.owners[t].op;
  }

  lemma OwnerKeepsHolders(s: State, t: TxId, a: OwnerAct)
    requires Holders(s) && OwnerEnabled(s, t, a) && TxInv(s)
    ensures Holders(OwnerStep(s, t, a))
  {
    if a.OCommit? || a.OAbort? {
      OwnerEndKeepsHolders(s, t, OwnerStep(s, t, a));
    } else {
      OpenOwnerKeepsHolders(s, t, a);
    }
  }

  lemma CleanerKeepsHolders(s: State, c: TxId, a: CleanerAct)
    requires Holders(s) && CleanerEnabled(s, c, a)
    ensures Holders(CleanerStep(s, c, a))
  {
    var s' := CleanerStep(s, c, a);
    assert s'.owners == s.owners;
    if a.CCommit? || a.CAbort? {
      assert s'.cleaners == s.cleaners - {c} && s'.locks == ReleaseLocks(s.locks, c);
    } else {
      assert s'.cleaners == s.cleaners[c := CleanerAfter(s, c, a)];
    }
  }

  lemma {:induction false} RunKeepsHolders(s: State, acts: seq<Action>)
    requires Inv(s) && Holders(s)
    ensures var o := Run(s, acts); o.At? ==> Holders(o.state)
    decreases |acts|
  {
    if acts != [] && Enabled(s, acts[0]) {
      match acts[0] {
        case ByOwner(t, a) => OwnerKeepsHolders(s, t, a); OwnerStepKeepsInv(s, t, a);
        case ByCleaner(c, a) => CleanerKeepsHolders(s, c, a); CleanerStepKeepsInv(s, c, a);
        case CrashRestart => CrashKeepsInv(s);
      }
      RunKeepsHolders(Apply(s, acts[0]), acts[1..]);
    }
  }

  lemma ReachableHolders(s: State)
    requires Reachable(s)
    ensures Holders(s)
  {
    var acts: seq<Action> :| Run(INIT, acts) == At(s);
    InitInv();
    RunKeepsHolders(INIT, acts);
  }

  /** The record was not made in a subtransaction that its transaction rolled back. */
  predicate NotRolledBack(s: State, p: Path)
    requires p in s.rows && s.rows[p].op in s.opOwner
  {
    var t := s.opOwner[s.rows[p].op];
    t in s.owners ==> p in s.owners[t].own
  }

  /** A lock held by anyone but a cleaner means that the transaction is still running: failing to take
      it never skips an orphan. Running means that the lock is held, for records not rolled back. */
  lemma LockMeansRunning(s: State, p: Path)
    requires Reachable(s) && p in s.rows
    ensures s.rows[p].op in s.opOwner
    ensures var op, t := s.rows[p].op, s.opOwner[s.rows[p].op];
      && (op in s.locks && s.locks[op] !in s.cleaners ==> t in s.owners && s.locks[op] == t)
      && (t in s.owners && NotRolledBack(s, p) ==> op in s.locks && s.locks[op] == t && t !in s.cleaners)
  {
    ReachableInv(s);
    ReachableHolders(s);
    assert p in s.recorded && s.recorded[p] == s.rows[p];
    var op, t := s.rows[p].op, s.opOwner[s.rows[p].op];
    if t in s.owners && p in s.owners[t].own {
      OwnerHolds(s, t);
    }
  }
}
