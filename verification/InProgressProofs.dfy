/** The invariant of in-progress file bookkeeping, and that every step keeps it. */
module InProgressProofs {

  import opened InProgressRuns

  predicate Live(owners: map<TxId, Owner>, opOwner: map<Op, TxId>, op: Op) {
    op in opOwner && opOwner[op] in owners
  }

  /** Operation ids are handed out once, each to one owner transaction. */
  predicate OpInv(owners: map<TxId, Owner>, opOwner: map<Op, TxId>, nextOp: Op, usedTx: set<TxId>) {
    && nextOp > 0
    && (forall t :: t in owners ==> t in usedTx)
    && (forall t :: t in owners && owners[t].op != 0 ==> owners[t].op in opOwner && opOwner[owners[t].op] == t)
    && (forall op :: op in opOwner ==> 0 < op < nextOp && opOwner[op] in usedTx)
    && (forall op :: op in opOwner && opOwner[op] in owners ==> owners[opOwner[op]].op == op)
  }

  predicate CleanerIds(cleaners: map<TxId, Cleaner>, owners: map<TxId, Owner>, opOwner: map<Op, TxId>,
    usedTx: set<TxId>)
  {
    && (forall c :: c in cleaners ==> c in usedTx && c !in owners)
    && (forall op :: op in opOwner ==> opOwner[op] !in cleaners)
  }

  /** Every row was recorded, by an operation that has an owner. */
  predicate RowInv(rows: map<Path, Row>, recorded: map<Path, Row>, opOwner: map<Op, TxId>) {
    && (forall p :: p in rows ==> p in recorded && recorded[p] == rows[p])
    && (forall p :: p in recorded ==> recorded[p].op in opOwner)
  }

  predicate HasLock(locks: map<Op, TxId>, t: TxId, op: Op) {
    op != 0 && op in locks && locks[op] == t
  }

  /** With records that are not rolled back, or a savepoint set under the lock, the lock is held. Later
      savepoints have the records and the lock of earlier ones. */
  predicate SavesInv(o: Owner, held: bool) {
    && (o.own != {} ==> held)
    && (forall i :: 0 <= i < |o.saves| ==> o.saves[i].own <= o.own && (o.saves[i].locked ==> held))
    && (forall i :: 0 <= i < |o.saves| ==> (o.saves[i].own != {} ==> o.saves[i].locked))
    && (forall i, j :: 0 <= i < j < |o.saves| ==> o.saves[i].own <= o.saves[j].own)
    && (forall i, j :: 0 <= i < j < |o.saves| && o.saves[i].locked ==> o.saves[j].locked)
  }

  predicate LockInv(owners: map<TxId, Owner>, locks: map<Op, TxId>) {
    forall t :: t in owners ==> SavesInv(owners[t], HasLock(locks, t, owners[t].op))
  }

  /** Only rows of the own operation are deleted and inserted. */
  predicate RowsOf(op: Op, deleted: set<Path>, inserted: map<Path, Row>, own: set<Path>, recorded: map<Path, Row>) {
    && (forall p :: p in own ==> p in recorded && recorded[p].op == op)
    && deleted <= own
    && (forall p :: p in inserted ==> p in own && p in recorded && recorded[p] == inserted[p])
  }

  predicate SavedRows(op: Op, v: Saved, recorded: map<Path, Row>) {
    RowsOf(op, v.deleted, v.inserted, v.own, recorded)
  }

  predicate OwnRows(o: Owner, recorded: map<Path, Row>) {
    && RowsOf(o.op, o.deleted, o.inserted, o.own, recorded)
    && (forall i :: 0 <= i < |o.saves| ==> SavedRows(o.op, o.saves[i], recorded))
  }

  predicate OwnerRowsInv(owners: map<TxId, Owner>, recorded: map<Path, Row>) {
    forall t :: t in owners ==> OwnRows(owners[t], recorded)
  }

  predicate IsRecorded(e: Entry, recorded: map<Path, Row>) {
    e.path in recorded && recorded[e.path] == e.row
  }

  predicate Holds(locks: map<Op, TxId>, c: TxId, op: Op) {
    op in locks && locks[op] == c
  }

  predicate PhaseInv(ph: CleanerPhase, c: TxId, rows: map<Path, Row>, locks: map<Op, TxId>, recorded: map<Path, Row>) {
    && (!ph.Idle? ==> forall i :: 0 <= i < |ph.rest| ==> IsRecorded(ph.rest[i], recorded))
    && (ph.Locked? || ph.Confirmed? ==> IsRecorded(ph.e, recorded) && Holds(locks, c, ph.e.row.op))
    && (ph.Confirmed? ==> ph.e.path in rows)
  }

  predicate CleanerPhases(cleaners: map<TxId, Cleaner>, rows: map<Path, Row>, locks: map<Op, TxId>,
    recorded: map<Path, Row>)
  {
    forall c :: c in cleaners ==> PhaseInv(cleaners[c].phase, c, rows, locks, recorded)
  }

  predicate Emptied(p: Path, recorded: map<Path, Row>, remote: set<Path>) {
    p in recorded && forall f :: f in remote ==> !Covers(p, recorded[p], f)
  }

  predicate RemovedInv(x: Cleaner, c: TxId, locks: map<Op, TxId>, recorded: map<Path, Row>, remote: set<Path>) {
    && x.deleted <= x.removed
    && (forall p :: p in x.removed ==> Emptied(p, recorded, remote) && Holds(locks, c, recorded[p].op))
  }

  predicate CleanersRemoved(cleaners: map<TxId, Cleaner>, locks: map<Op, TxId>, recorded: map<Path, Row>,
    remote: set<Path>)
  {
    forall c :: c in cleaners ==> RemovedInv(cleaners[c], c, locks, recorded, remote)
  }

  /** A record that covers a file belongs to the operation that wrote the file. */
  predicate CoverInv(written: map<Path, Op>, recorded: map<Path, Row>, opOwner: map<Op, TxId>) {
    && (forall f :: f in written ==> written[f] in opOwner)
    && (forall f, p :: f in written && p in recorded && Covers(p, recorded[p], f) ==> recorded[p].op == written[f])
  }

  predicate RemoteInv(remote: set<Path>, written: map<Path, Op>) {
    forall f :: f in remote ==> f in written
  }

  /** Files of running transactions under records that are not rolled back exist and are covered by a
      committed row. */
  predicate LiveFiles(written: map<Path, Op>, remote: set<Path>, rows: map<Path, Row>,
                      owners: map<TxId, Owner>, recorded: map<Path, Row>) {
    forall t, f :: t in owners && f in written && Backed(owners[t].own, recorded, f) ==> f in remote && Covered(rows, f)
  }

  predicate NothingForgotten(remote: set<Path>, rows: map<Path, Row>, kept: set<Path>) {
    forall f :: f in remote ==> f in kept || Covered(rows, f)
  }

  predicate KeptInv(kept: set<Path>, written: map<Path, Op>, remote: set<Path>, rows: map<Path, Row>,
                    owners: map<TxId, Owner>, opOwner: map<Op, TxId>) {
    forall f :: f in kept ==>
      f in written && f in remote && !Live(owners, opOwner, written[f]) && !Covered(rows, f)
  }

  predicate TxInv(s: State) {
    && OpInv(s.owners, s.opOwner, s.nextOp, s.usedTx)
    && CleanerIds(s.cleaners, s.owners, s.opOwner, s.usedTx)
    && RowInv(s.rows, s.recorded, s.opOwner)
    && LockInv(s.owners, s.locks)
    && OwnerRowsInv(s.owners, s.recorded)
  }

  predicate ScanInv(s: State) {
    && CleanerPhases(s.cleaners, s.rows, s.locks, s.recorded)
    && CleanersRemoved(s.cleaners, s.locks, s.recorded, s.remote)
  }

  predicate FileInv(s: State) {
    && CoverInv(s.written, s.recorded, s.opOwner)
    && RemoteInv(s.remote, s.written)
    && LiveFiles(s.written, s.remote, s.rows, s.owners, s.recorded)
    && NothingForgotten(s.remote, s.rows, s.kept)
    && KeptInv(s.kept, s.written, s.remote, s.rows, s.owners, s.opOwner)
  }

  predicate Inv(s: State) {
    TxInv(s) && ScanInv(s) && FileInv(s)
  }

  lemma InitInv()
    ensures Inv(INIT)
  {
  }

  // ----- what a step leaves alone -----

  predicate SameLives(s: State, s': State) {
    forall op :: op in s.opOwner ==>
      op in s'.opOwner && s'.opOwner[op] == s.opOwner[op] &&
      (Live(s'.owners, s'.opOwner, op) <==> Live(s.owners, s.opOwner, op))
  }

  /** No file comes under a record that is not rolled back. */
  predicate NoMoreBacked(s: State, s': State) {
    forall t, f :: t in s'.owners && f in s.written && Backed(s'.owners[t].own, s'.recorded, f) ==>
      t in s.owners && Backed(s.owners[t].own, s.recorded, f)
  }

  predicate SameCovered(s: State, s': State) {
    forall f :: f in s.written ==> (Covered(s'.rows, f) <==> Covered(s.rows, f))
  }

  lemma FilesUntouched(s: State, s': State)
    requires FileInv(s)
    requires s'.written == s.written && s'.remote == s.remote && s'.kept == s.kept
    requires CoverInv(s'.written, s'.recorded, s'.opOwner)
    requires SameLives(s, s') && NoMoreBacked(s, s') && SameCovered(s, s')
    ensures FileInv(s')
  {
    assert KeptInv(s'.kept, s'.written, s'.remote, s'.rows, s'.owners, s'.opOwner);
  }

  ghost predicate HoldsStay(s: State, s': State) {
    forall c, op :: c in s.cleaners && Holds(s.locks, c, op) ==> Holds(s'.locks, c, op)
  }

  predicate Extends(m: map<Path, Row>, m': map<Path, Row>) {
    forall p :: p in m ==> p in m' && m'[p] == m[p]
  }

  lemma ScansUntouched(s: State, s': State)
    requires ScanInv(s)
    requires s'.cleaners == s.cleaners && s'.remote == s.remote
    requires Extends(s.rows, s'.rows) && Extends(s.recorded, s'.recorded)
    requires HoldsStay(s, s')
    ensures ScanInv(s')
  {
    assert CleanerPhases(s'.cleaners, s'.rows, s'.locks, s'.recorded) by {
      forall c | c in s.cleaners ensures PhaseInv(s'.cleaners[c].phase, c, s'.rows, s'.locks, s'.recorded) {
        assert PhaseInv(s.cleaners[c].phase, c, s.rows, s.locks, s.recorded);
      }
    }
    forall c | c in s.cleaners ensures RemovedInv(s'.cleaners[c], c, s'.locks, s'.recorded, s'.remote) {
      assert RemovedInv(s.cleaners[c], c, s.locks, s.recorded, s.remote);
    }
  }

  // ----- begin, and the operation id -----

  lemma BeginKeepsInv(s: State, t: TxId)
    requires Inv(s) && OwnerEnabled(s, t, OBegin)
    ensures Inv(OwnerStep(s, t, OBegin))
  {
    BeginEffect(s, t);
    var s' := OwnerStep(s, t, OBegin);
    BeginKeepsFiles(s, t, s');
    ScansUntouched(s, s');
    BeginKeepsTx(s, t, s');
  }

  lemma BeginEffect(s: State, t: TxId)
    requires OwnerEnabled(s, t, OBegin)
    ensures OwnerStep(s, t, OBegin) ==
      s.(owners := s.owners[t := Owner(0, {}, map[], {}, [])], usedTx := s.usedTx + {t})
  {
    assert s.recorded + map[] == s.recorded;
  }

  lemma BeginKeepsFiles(s: State, t: TxId, s': State)
    requires TxInv(s) && FileInv(s) && FreshTx(s, t)
    requires s' == s.(owners := s.owners[t := Owner(0, {}, map[], {}, [])], usedTx := s.usedTx + {t})
    ensures FileInv(s')
  {
    assert SameLives(s, s');
    assert NoMoreBacked(s, s');
    FilesUntouched(s, s');
  }

  lemma BeginKeepsTx(s: State, t: TxId, s': State)
    requires TxInv(s) && FreshTx(s, t)
    requires s' == s.(owners := s.owners[t := Owner(0, {}, map[], {}, [])], usedTx := s.usedTx + {t})
    ensures TxInv(s')
  {
    assert OpInv(s'.owners, s'.opOwner, s'.nextOp, s'.usedTx);
    assert LockInv(s'.owners, s'.locks);
    assert OwnerRowsInv(s'.owners, s'.recorded);
  }

  lemma AssignEffect(s: State, t: TxId)
    requires t in s.usedTx && OwnerEnabled(s, t, OAssign)
    ensures OwnerStep(s, t, OAssign) ==
      s.(owners := s.owners[t := s.owners[t].(op := s.nextOp)], nextOp := s.nextOp + 1,
         opOwner := s.opOwner[s.nextOp := t])
  {
    assert s.recorded + map[] == s.recorded;
    assert s.usedTx + {t} == s.usedTx;
  }

  lemma AssignKeepsInv(s: State, t: TxId)
    requires Inv(s) && OwnerEnabled(s, t, OAssign)
    ensures Inv(OwnerStep(s, t, OAssign))
  {
    var s' := OwnerStep(s, t, OAssign);
    AssignEffect(s, t);
    AssignKeepsFiles(s, t, s.owners[t].(op := s.nextOp), s');
    ScansUntouched(s, s');
    AssignKeepsTx(s, t, s.owners[t].(op := s.nextOp), s');
  }

  lemma AssignKeepsFiles(s: State, t: TxId, o: Owner, s': State)
    requires TxInv(s) && FileInv(s) && t in s.owners && o == s.owners[t].(op := s.nextOp)
    requires s' == s.(owners := s.owners[t := o], nextOp := s.nextOp + 1, opOwner := s.opOwner[s.nextOp := t])
    ensures FileInv(s')
  {
    assert SameLives(s, s');
    assert NoMoreBacked(s, s');
    assert CoverInv(s'.written, s'.recorded, s'.opOwner);
    FilesUntouched(s, s');
  }

  lemma AssignKeepsTx(s: State, t: TxId, o: Owner, s': State)
    requires TxInv(s) && t in s.owners && s.owners[t].op == 0 && o == s.owners[t].(op := s.nextOp)
    requires s' == s.(owners := s.owners[t := o], nextOp := s.nextOp + 1, opOwner := s.opOwner[s.nextOp := t])
    ensures TxInv(s')
  {
    AssignOps(s.owners, t, o, s.opOwner, s.nextOp, s.usedTx);
    AssignLocks(s, t, o, s');
    AssignRows(s, t, o, s');
    assert CleanerIds(s'.cleaners, s'.owners, s'.opOwner, s'.usedTx);
  }

  lemma AssignRows(s: State, t: TxId, o: Owner, s': State)
    requires TxInv(s) && t in s.owners && s.owners[t].op == 0 && o == s.owners[t].(op := s.nextOp)
    requires s'.owners == s.owners[t := o] && s'.recorded == s.recorded
    ensures OwnerRowsInv(s'.owners, s'.recorded)
  {
    NothingOwned(s, t);
    forall i | 0 <= i < |o.saves|
      ensures SavedRows(o.op, o.saves[i], s.recorded)
    {
      assert o.saves[i] == s.owners[t].saves[i];
    }
    assert OwnRows(o, s.recorded);
  }

  lemma AssignOps(owners: map<TxId, Owner>, t: TxId, o: Owner, opOwner: map<Op, TxId>, nextOp: Op, usedTx: set<TxId>)
    requires OpInv(owners, opOwner, nextOp, usedTx) && t in owners && owners[t].op == 0 && o.op == nextOp
    ensures OpInv(owners[t := o], opOwner[nextOp := t], nextOp + 1, usedTx)
  {
  }

  lemma AssignLocks(s: State, t: TxId, o: Owner, s': State)
    requires TxInv(s) && t in s.owners && s.owners[t].op == 0 && o == s.owners[t].(op := s.nextOp)
    requires s'.owners == s.owners[t := o] && s'.locks == s.locks
    ensures LockInv(s'.owners, s'.locks)
  {
    assert SavesInv(s.owners[t], false);
    assert SavesInv(o, HasLock(s.locks, t, o.op));
  }

  /** Without an operation id there is nothing of its own. */
  lemma NothingOwned(s: State, t: TxId)
    requires TxInv(s) && t in s.owners && s.owners[t].op == 0
    ensures s.owners[t].own == {} && s.owners[t].deleted == {} && s.owners[t].inserted == map[]
    ensures forall i :: 0 <= i < |s.owners[t].saves| ==>
      var v := s.owners[t].saves[i]; v.own == {} && v.deleted == {} && v.inserted == map[] && !v.locked
  {
    var o := s.owners[t];
    assert SavesInv(o, false);
    assert OwnRows(o, s.recorded);
    assert o.own == {};
    assert forall p :: p !in o.inserted;
    forall i | 0 <= i < |o.saves|
      ensures var v := o.saves[i]; v.own == {} && v.deleted == {} && v.inserted == map[] && !v.locked
    {
      assert SavedRows(o.op, o.saves[i], s.recorded);
      assert o.saves[i].own == {};
      assert forall p :: p !in o.saves[i].inserted;
    }
  }

  // ----- steps that change one owner, its locks and its records -----

  /** The records and committed rows may grow by rows of the owner's operation, and only its own locks
      change. */
  predicate OwnerMoved(s: State, t: TxId, o: Owner, s': State) {
    && t in s.owners && o.op == s.owners[t].op
    && s' == s.(owners := s.owners[t := o], locks := s'.locks, rows := s'.rows, recorded := s'.recorded)
    && Extends(s.recorded, s'.recorded) && Extends(s.rows, s'.rows)
    && (forall p :: p in s'.rows && p !in s.rows ==> p in s'.recorded && s'.recorded[p] == s'.rows[p])
    && (forall p :: p in s'.recorded && p !in s.recorded ==> o.op != 0 && s'.recorded[p].op == o.op)
    && (forall op :: op in s.locks && s.locks[op] != t ==> op in s'.locks && s'.locks[op] == s.locks[op])
  }

  lemma MovedKeepsTx(s: State, t: TxId, o: Owner, s': State)
    requires TxInv(s) && OwnerMoved(s, t, o, s')
    requires OwnRows(o, s'.recorded) && SavesInv(o, HasLock(s'.locks, t, o.op))
    ensures TxInv(s')
  {
    SameOps(s.owners, t, o, s.opOwner, s.nextOp, s.usedTx);
    assert CleanerIds(s'.cleaners, s'.owners, s'.opOwner, s'.usedTx);
    MovedRows(s, t, o, s');
    MovedLocks(s, t, o, s');
    OwnersGrow(s.owners, t, o, s'.owners, s.recorded, s'.recorded);
  }

  lemma SameOps(owners: map<TxId, Owner>, t: TxId, o: Owner, opOwner: map<Op, TxId>, nextOp: Op, usedTx: set<TxId>)
    requires OpInv(owners, opOwner, nextOp, usedTx) && t in owners && o.op == owners[t].op
    ensures OpInv(owners[t := o], opOwner, nextOp, usedTx)
  {
  }

  lemma MovedRows(s: State, t: TxId, o: Owner, s': State)
    requires TxInv(s) && OwnerMoved(s, t, o, s')
    ensures RowInv(s'.rows, s'.recorded, s'.opOwner)
  {
    assert o.op != 0 ==> o.op in s.opOwner;
  }

  lemma MovedLocks(s: State, t: TxId, o: Owner, s': State)
    requires LockInv(s.owners, s.locks) && OwnerMoved(s, t, o, s') && SavesInv(o, HasLock(s'.locks, t, o.op))
    ensures LockInv(s'.owners, s'.locks)
  {
    forall u | u in s'.owners
      ensures SavesInv(s'.owners[u], HasLock(s'.locks, u, s'.owners[u].op))
    {
      if u != t {
        assert SavesInv(s.owners[u], HasLock(s.locks, u, s.owners[u].op));
        MoreHeld(s.owners[u], HasLock(s.locks, u, s.owners[u].op), HasLock(s'.locks, u, s.owners[u].op));
      }
    }
  }

  lemma MoreHeld(o: Owner, held: bool, held': bool)
    requires SavesInv(o, held) && (held ==> held')
    ensures SavesInv(o, held')
  {
  }

  lemma OwnersGrow(owners: map<TxId, Owner>, t: TxId, o: Owner, owners': map<TxId, Owner>, rec: map<Path, Row>,
    rec': map<Path, Row>)
    requires OwnerRowsInv(owners, rec) && Extends(rec, rec') && OwnRows(o, rec') && owners' == owners[t := o]
    ensures OwnerRowsInv(owners', rec')
  {
    forall u | u in owners'
      ensures OwnRows(owners'[u], rec')
    {
      if u != t {
        RowsStillOwn(owners[u], rec, rec');
      }
    }
  }

  lemma RowsStillOwn(o: Owner, rec: map<Path, Row>, rec': map<Path, Row>)
    requires OwnRows(o, rec) && Extends(rec, rec')
    ensures OwnRows(o, rec')
  {
    forall i | 0 <= i < |o.saves|
      ensures SavedRows(o.op, o.saves[i], rec')
    {
      assert SavedRows(o.op, o.saves[i], rec);
    }
  }

  lemma MovedKeepsScans(s: State, t: TxId, o: Owner, s': State)
    requires TxInv(s) && ScanInv(s) && OwnerMoved(s, t, o, s')
    ensures ScanInv(s')
  {
    assert HoldsStay(s, s');
    ScansUntouched(s, s');
  }

  /** What is backed depends only on the rows of the records named. */
  lemma BackedGrow(o: Owner, rec: map<Path, Row>, rec': map<Path, Row>, f: Path)
    requires OwnRows(o, rec) && Extends(rec, rec') && Backed(o.own, rec', f)
    ensures Backed(o.own, rec, f)
  {
    var p :| p in o.own && p in rec' && Covers(p, rec'[p], f);
    assert p in rec && Covers(p, rec[p], f);
  }

  lemma MovedKeepsFiles(s: State, t: TxId, o: Owner, s': State)
    requires TxInv(s) && FileInv(s) && OwnerMoved(s, t, o, s')
    requires CoverInv(s'.written, s'.recorded, s'.opOwner) && SameCovered(s, s')
    requires forall f :: f in s.written && Backed(o.own, s'.recorded, f) ==> Backed(s.owners[t].own, s.recorded, f)
    ensures FileInv(s')
  {
    assert SameLives(s, s');
    forall u, f | u in s'.owners && f in s.written && Backed(s'.owners[u].own, s'.recorded, f)
      ensures u in s.owners && Backed(s.owners[u].own, s.recorded, f)
    {
      if u != t {
        BackedGrow(s.owners[u], s.recorded, s'.recorded, f);
      }
    }
    FilesUntouched(s, s');
  }

  /** A step that changes nothing but the owner and its locks. */
  lemma QuietMove(s: State, t: TxId, o: Owner, s': State)
    requires Inv(s) && OwnerMoved(s, t, o, s') && s'.recorded == s.recorded && s'.rows == s.rows
    requires OwnRows(o, s.recorded) && SavesInv(o, HasLock(s'.locks, t, o.op)) && o.own <= s.owners[t].own
    ensures Inv(s')
  {
    MovedKeepsTx(s, t, o, s');
    MovedKeepsScans(s, t, o, s');
    MovedKeepsFiles(s, t, o, s');
  }

  lemma QuietEffect(s: State, t: TxId, a: OwnerAct)
    requires t in s.usedTx && OwnerEnabled(s, t, a)
    requires a.OLock? || a.ODelete? || a.OSave? || a.ORelease? || a.ORollback?
    ensures OwnerStep(s, t, a) == s.(owners := s.owners[t := OwnerAfter(s, t, a)], locks := LocksAfter(s, t, a))
    ensures OwnerMoved(s, t, OwnerAfter(s, t, a), OwnerStep(s, t, a))
  {
    assert s.recorded + map[] == s.recorded;
    assert s.usedTx + {t} == s.usedTx;
  }

  lemma LockKeepsInv(s: State, t: TxId)
    requires Inv(s) && OwnerEnabled(s, t, OLock)
    ensures Inv(OwnerStep(s, t, OLock))
  {
    QuietEffect(s, t, OLock);
    var o := s.owners[t];
    assert SavesInv(o, HasLock(s.locks, t, o.op));
    assert SavesInv(o, true);
    assert OwnRows(o, s.recorded);
    QuietMove(s, t, o, OwnerStep(s, t, OLock));
  }

  lemma DeleteKeepsInv(s: State, t: TxId, a: OwnerAct)
    requires Inv(s) && a.ODelete? && OwnerEnabled(s, t, a)
    ensures Inv(OwnerStep(s, t, a))
  {
    QuietEffect(s, t, a);
    var o, o' := s.owners[t], OwnerAfter(s, t, a);
    assert SavesInv(o, HasLock(s.locks, t, o.op));
    assert OwnRows(o, s.recorded);
    assert OwnRows(o', s.recorded);
    QuietMove(s, t, o', OwnerStep(s, t, a));
  }

  // ----- subtransactions -----

  lemma SaveKeepsInv(s: State, t: TxId)
    requires Inv(s) && OwnerEnabled(s, t, OSave)
    ensures Inv(OwnerStep(s, t, OSave))
  {
    QuietEffect(s, t, OSave);
    var o, o' := s.owners[t], OwnerAfter(s, t, OSave);
    assert SavesInv(o, HasLock(s.locks, t, o.op));
    assert OwnRows(o, s.recorded);
    SaveIsOwn(o, HasLock(s.locks, t, o.op), s.recorded, o');
    QuietMove(s, t, o', OwnerStep(s, t, OSave));
  }

  lemma SaveIsOwn(o: Owner, held: bool, recorded: map<Path, Row>, o': Owner)
    requires SavesInv(o, held) && OwnRows(o, recorded)
    requires o' == o.(saves := o.saves + [Saved(o.deleted, o.inserted, o.own, held)])
    ensures SavesInv(o', held) && OwnRows(o', recorded)
  {
    var v := Saved(o.deleted, o.inserted, o.own, held);
    assert SavedRows(o.op, v, recorded);
    assert forall i :: 0 <= i < |o'.saves| ==> o'.saves[i] == if i < |o.saves| then o.saves[i] else v;
  }

  lemma BelowIsOwn(o: Owner, held: bool, recorded: map<Path, Row>)
    requires SavesInv(o, held) && OwnRows(o, recorded) && o.saves != []
    ensures SavesInv(o.(saves := Below(o)), held) && OwnRows(o.(saves := Below(o)), recorded)
    ensures SavesInv(RolledBack(o), Top(o).locked) && OwnRows(RolledBack(o), recorded)
  {
    var below := Below(o);
    assert forall i :: 0 <= i < |below| ==> below[i] == o.saves[i];
    assert SavedRows(o.op, Top(o), recorded);
  }

  lemma ReleaseKeepsInv(s: State, t: TxId)
    requires Inv(s) && OwnerEnabled(s, t, ORelease)
    ensures Inv(OwnerStep(s, t, ORelease))
  {
    QuietEffect(s, t, ORelease);
    var o := s.owners[t];
    assert SavesInv(o, HasLock(s.locks, t, o.op));
    assert OwnRows(o, s.recorded);
    BelowIsOwn(o, HasLock(s.locks, t, o.op), s.recorded);
    QuietMove(s, t, OwnerAfter(s, t, ORelease), OwnerStep(s, t, ORelease));
  }

  lemma RollbackKeepsInv(s: State, t: TxId)
    requires Inv(s) && OwnerEnabled(s, t, ORollback)
    ensures Inv(OwnerStep(s, t, ORollback))
  {
    QuietEffect(s, t, ORollback);
    var o, s' := s.owners[t], OwnerStep(s, t, ORollback);
    assert SavesInv(o, HasLock(s.locks, t, o.op));
    assert OwnRows(o, s.recorded);
    BelowIsOwn(o, HasLock(s.locks, t, o.op), s.recorded);
    assert Top(o).locked ==> HasLock(s'.locks, t, o.op);
    MoreHeld(RolledBack(o), Top(o).locked, HasLock(s'.locks, t, o.op));
    QuietMove(s, t, RolledBack(o), s');
  }

  // ----- records -----

  predicate Recorded(s: State, t: TxId, path: Path, row: Row, s': State) {
    && t in s.owners && row.op == s.owners[t].op && HasLock(s.locks, t, row.op) && path !in s.recorded
    && s' == s.(owners := s.owners[t := s.owners[t].(own := s.owners[t].own + {path})],
                rows := s.rows[path := row], recorded := s.recorded[path := row])
  }

  lemma RecordEffect(s: State, t: TxId, a: OwnerAct)
    requires t in s.usedTx && a.ORecord? && OwnerEnabled(s, t, a)
    ensures Recorded(s, t, a.path, Row(s.owners[t].op, a.isPrefix), OwnerStep(s, t, a))
  {
    var s', row := OwnerStep(s, t, a), Row(s.owners[t].op, a.isPrefix);
    assert s'.usedTx == s.usedTx;
    OneMore(s.recorded, a.path, row);
    OneMore(s.rows, a.path, row);
  }

  lemma OneMore(m: map<Path, Row>, p: Path, row: Row)
    ensures m + map[p := row] == m[p := row]
  {
  }

  lemma RecordKeepsInv(s: State, t: TxId, a: OwnerAct)
    requires Inv(s) && a.ORecord? && OwnerEnabled(s, t, a)
    ensures Inv(OwnerStep(s, t, a))
  {
    var s', row := OwnerStep(s, t, a), Row(s.owners[t].op, a.isPrefix);
    RecordEffect(s, t, a);
    RecordMoves(s, t, a.path, row, s');
    RecordIsOwn(s, t, a.path, row, s');
    MovedKeepsTx(s, t, s'.owners[t], s');
    MovedKeepsScans(s, t, s'.owners[t], s');
    RecordKeepsFiles(s, t, a.path, row, s');
  }

  lemma RecordMoves(s: State, t: TxId, path: Path, row: Row, s': State)
    requires TxInv(s) && Recorded(s, t, path, row, s')
    ensures OwnerMoved(s, t, s'.owners[t], s')
  {
  }

  lemma RecordIsOwn(s: State, t: TxId, path: Path, row: Row, s': State)
    requires TxInv(s) && Recorded(s, t, path, row, s')
    ensures OwnRows(s'.owners[t], s'.recorded) && SavesInv(s'.owners[t], HasLock(s'.locks, t, s'.owners[t].op))
  {
    var o := s.owners[t];
    assert SavesInv(o, HasLock(s.locks, t, o.op));
    assert OwnRows(o, s.recorded);
    RowsStillOwn(o, s.recorded, s'.recorded);
  }

  lemma RecordKeepsFiles(s: State, t: TxId, path: Path, row: Row, s': State)
    requires TxInv(s) && FileInv(s) && Recorded(s, t, path, row, s') && OwnerMoved(s, t, s'.owners[t], s')
    requires forall f :: f in s.written ==> !Covers(path, row, f)
    ensures FileInv(s')
  {
    assert CoverInv(s'.written, s'.recorded, s'.opOwner);
    forall f | f in s.written
      ensures Covered(s'.rows, f) <==> Covered(s.rows, f)
    {
      CoveredMore(s.rows, s'.rows, f);
    }
    assert OwnRows(s.owners[t], s.recorded);
    forall f | f in s.written && Backed(s'.owners[t].own, s'.recorded, f)
      ensures Backed(s.owners[t].own, s.recorded, f)
    {
      var p :| p in s'.owners[t].own && p in s'.recorded && Covers(p, s'.recorded[p], f);
      assert p != path && p in s.owners[t].own && p in s.recorded;
    }
    MovedKeepsFiles(s, t, s'.owners[t], s');
  }

  lemma CoveredMore(rows: map<Path, Row>, rows': map<Path, Row>, f: Path)
    requires Extends(rows, rows')
    ensures Covered(rows, f) ==> Covered(rows', f)
  {
    if Covered(rows, f) {
      var p :| p in rows && Covers(p, rows[p], f);
      assert p in rows' && Covers(p, rows'[p], f);
    }
  }

  // ----- writing a file -----

  /** A transaction with records that are not rolled back holds its lock. */
  lemma OwnerHolds(s: State, t: TxId)
    requires TxInv(s) && t in s.owners && s.owners[t].own != {}
    ensures HasLock(s.locks, t, s.owners[t].op)
  {
    assert SavesInv(s.owners[t], HasLock(s.locks, t, s.owners[t].op));
  }

  lemma WriteEffect(s: State, t: TxId, f: Path)
    requires t in s.usedTx && OwnerEnabled(s, t, OWrite(f))
    ensures OwnerStep(s, t, OWrite(f)) == s.(remote := s.remote + {f}, written := s.written[f := s.owners[t].op])
  {
    assert s.recorded + map[] == s.recorded;
    assert s.owners[t := s.owners[t]] == s.owners;
    assert s.usedTx + {t} == s.usedTx;
  }

  lemma WriteKeepsInv(s: State, t: TxId, f: Path)
    requires Inv(s) && OwnerEnabled(s, t, OWrite(f))
    ensures Inv(OwnerStep(s, t, OWrite(f)))
  {
    var s' := OwnerStep(s, t, OWrite(f));
    WriteEffect(s, t, f);
    OwnerHolds(s, t);
    WriteKeepsFiles(s, s.owners[t].op, f, s');
    WriteKeepsScans(s, t, f, s');
  }

  lemma WriteKeepsFiles(s: State, op: Op, f: Path, s': State)
    requires RowInv(s.rows, s.recorded, s.opOwner) && FileInv(s) && f !in s.written && op in s.opOwner
    requires Covered(s.rows, f)
    requires forall p :: p in s.recorded && Covers(p, s.recorded[p], f) ==> s.recorded[p].op == op
    requires s' == s.(remote := s.remote + {f}, written := s.written[f := op])
    ensures FileInv(s')
  {
    assert CoverInv(s'.written, s'.recorded, s'.opOwner);
    assert KeptInv(s'.kept, s'.written, s'.remote, s'.rows, s'.owners, s'.opOwner);
  }

  lemma WriteKeepsScans(s: State, t: TxId, f: Path, s': State)
    requires TxInv(s) && ScanInv(s) && OwnerEnabled(s, t, OWrite(f)) && s' == OwnerStep(s, t, OWrite(f))
    requires HasLock(s.locks, t, s.owners[t].op)
    ensures ScanInv(s')
  {
    WriteEffect(s, t, f);
    forall c | c in s.cleaners
      ensures RemovedInv(s'.cleaners[c], c, s'.locks, s'.recorded, s'.remote)
    {
      StillEmptied(s, t, c, f);
    }
  }

  /** What a cleaner has emptied is of another operation than the file. */
  lemma StillEmptied(s: State, t: TxId, c: TxId, f: Path)
    requires TxInv(s) && ScanInv(s) && OwnerEnabled(s, t, OWrite(f)) && HasLock(s.locks, t, s.owners[t].op)
    requires c in s.cleaners
    ensures RemovedInv(s.cleaners[c], c, s.locks, s.recorded, s.remote + {f})
  {
    assert RemovedInv(s.cleaners[c], c, s.locks, s.recorded, s.remote);
    assert forall p :: p in s.cleaners[c].removed ==> !Covers(p, s.recorded[p], f);
  }

  // ----- expanding a prefix -----

  lemma ReplaceEffect(s: State, t: TxId, a: OwnerAct)
    requires t in s.usedTx && a.OReplace? && OwnerEnabled(s, t, a)
    ensures var s' := OwnerStep(s, t, a);
      if ReplaceFinds(s, s.owners[t], a.prefix)
      then s' == s.(owners := s.owners[t := OwnerAfter(s, t, a)],
                    recorded := s.recorded + FullRows(s.owners[t].op, a.fullPaths))
      else s' == s
  {
    assert s.usedTx + {t} == s.usedTx;
    assert s.recorded + map[] == s.recorded;
    assert s.owners[t := s.owners[t]] == s.owners;
  }

  lemma ReplaceKeepsInv(s: State, t: TxId, a: OwnerAct)
    requires Inv(s) && a.OReplace? && OwnerEnabled(s, t, a)
    ensures Inv(OwnerStep(s, t, a))
  {
    var s' := OwnerStep(s, t, a);
    ReplaceEffect(s, t, a);
    if ReplaceFinds(s, s.owners[t], a.prefix) {
      OwnerHolds(s, t);
      ReplaceIsOwn(s, t, a, s'.owners[t], s'.recorded);
      MovedKeepsTx(s, t, s'.owners[t], s');
      MovedKeepsScans(s, t, s'.owners[t], s');
      ReplaceKeepsCover(s, t, a, s');
    }
  }

  lemma ReplaceIsOwn(s: State, t: TxId, a: OwnerAct, o: Owner, rec: map<Path, Row>)
    requires TxInv(s) && a.OReplace? && OwnerEnabled(s, t, a) && ReplaceFinds(s, s.owners[t], a.prefix)
    requires o == OwnerAfter(s, t, a) && rec == s.recorded + FullRows(s.owners[t].op, a.fullPaths)
    requires HasLock(s.locks, t, o.op)
    ensures OwnRows(o, rec) && SavesInv(o, true) && Extends(s.recorded, rec)
  {
    var was := s.owners[t];
    assert SavesInv(was, true);
    assert OwnRows(was, s.recorded);
    RowsStillOwn(was, s.recorded, rec);
    MoreOwn(was, o, rec);
    ReplacedRows(was, a.prefix, a.fullPaths, s.recorded, o, rec);
  }

  lemma ReplacedRows(was: Owner, prefix: Path, full: set<Path>, recorded: map<Path, Row>, o: Owner, rec: map<Path, Row>)
    requires RowsOf(was.op, was.deleted, was.inserted, was.own, recorded) && prefix in was.own
    requires rec == recorded + FullRows(was.op, full) && forall p :: p in full ==> p !in recorded
    requires o.op == was.op && o.deleted == was.deleted + {prefix} && o.own == was.own + full
    requires o.inserted == (was.inserted - {prefix}) + FullRows(was.op, full)
    ensures RowsOf(o.op, o.deleted, o.inserted, o.own, rec)
  {
  }

  lemma MoreOwn(o: Owner, o': Owner, rec: map<Path, Row>)
    requires SavesInv(o, true) && OwnRows(o, rec) && o'.op == o.op && o'.saves == o.saves && o.own <= o'.own
    ensures SavesInv(o', true) && forall i :: 0 <= i < |o'.saves| ==> SavedRows(o'.op, o'.saves[i], rec)
  {
  }

  lemma PrefixIsOwn(s: State, t: TxId, prefix: Path)
    requires TxInv(s) && t in s.owners && ReplaceFinds(s, s.owners[t], prefix) && prefix in s.owners[t].own
    ensures prefix in s.recorded && s.recorded[prefix].op == s.owners[t].op && s.recorded[prefix].isPrefix
  {
    assert OwnRows(s.owners[t], s.recorded);
  }

  /** The expanded paths lie under the prefix, so they cover only files that the prefix covered. */
  lemma ReplaceKeepsCover(s: State, t: TxId, a: OwnerAct, s': State)
    requires TxInv(s) && FileInv(s) && a.OReplace? && OwnerEnabled(s, t, a) && ReplaceFinds(s, s.owners[t], a.prefix)
    requires s' == s.(owners := s.owners[t := OwnerAfter(s, t, a)],
                      recorded := s.recorded + FullRows(s.owners[t].op, a.fullPaths))
    requires OwnerMoved(s, t, s'.owners[t], s')
    ensures FileInv(s')
  {
    PrefixIsOwn(s, t, a.prefix);
    forall f, p | f in s.written && p in s'.recorded && Covers(p, s'.recorded[p], f)
      ensures s'.recorded[p].op == s.written[f]
    {
      if p in a.fullPaths {
        assert Covers(a.prefix, s.recorded[a.prefix], f);
      } else {
        assert Covers(p, s.recorded[p], f);
      }
    }
    assert OwnRows(s.owners[t], s.recorded);
    forall f | f in s.written && Backed(s'.owners[t].own, s'.recorded, f)
      ensures Backed(s.owners[t].own, s.recorded, f)
    {
      var p :| p in s'.owners[t].own && p in s'.recorded && Covers(p, s'.recorded[p], f);
      if p in a.fullPaths {
        assert Covers(a.prefix, s.recorded[a.prefix], f);
      } else {
        assert p in s.owners[t].own && p in s.recorded && Covers(p, s.recorded[p], f);
      }
    }
    MovedKeepsFiles(s, t, s'.owners[t], s');
  }

  // ----- the end of an owner transaction -----

  lemma EndKeepsTx(s: State, t: TxId, s': State)
    requires TxInv(s) && t in s.owners
    requires s'.owners == s.owners - {t} && s'.locks == ReleaseLocks(s.locks, t)
    requires s'.opOwner == s.opOwner && s'.nextOp == s.nextOp && s'.usedTx == s.usedTx && s'.cleaners == s.cleaners
    requires s'.recorded == s.recorded && RowInv(s'.rows, s'.recorded, s'.opOwner)
    ensures TxInv(s')
  {
    assert OpInv(s'.owners, s'.opOwner, s'.nextOp, s'.usedTx);
    assert LockInv(s'.owners, s'.locks) by {
      forall u | u in s'.owners
        ensures SavesInv(s'.owners[u], HasLock(s'.locks, u, s'.owners[u].op))
      {
        assert SavesInv(s.owners[u], HasLock(s.locks, u, s.owners[u].op));
      }
    }
    assert OwnerRowsInv(s'.owners, s'.recorded);
  }

  lemma AbortKeepsInv(s: State, t: TxId)
    requires Inv(s) && t in s.owners
    ensures Inv(DoOwnerAbort(s, t))
  {
    var s' := DoOwnerAbort(s, t);
    EndKeepsTx(s, t, s');
    assert HoldsStay(s, s');
    ScansUntouched(s, s');
    AbortKeepsFiles(s, t, s');
  }

  lemma AbortKeepsFiles(s: State, t: TxId, s': State)
    requires FileInv(s) && s' == DoOwnerAbort(s, t)
    ensures FileInv(s')
  {
  }

  /** A commit changes only rows of the committing operation. */
  lemma CommitRows(s: State, t: TxId, p: Path)
    requires TxInv(s) && t in s.owners
    requires p in s.rows || p in Visible(s, s.owners[t])
    ensures p in s.recorded
    ensures p in Visible(s, s.owners[t]) ==> Visible(s, s.owners[t])[p] == s.recorded[p]
    ensures s.recorded[p].op != s.owners[t].op ==> p in s.rows && p in Visible(s, s.owners[t])
  {
    assert OwnRows(s.owners[t], s.recorded);
  }

  lemma CommitKeepsRows(s: State, t: TxId)
    requires TxInv(s) && t in s.owners
    ensures RowInv(Visible(s, s.owners[t]), s.recorded, s.opOwner)
  {
    forall p | p in Visible(s, s.owners[t])
      ensures p in s.recorded && s.recorded[p] == Visible(s, s.owners[t])[p]
    {
      CommitRows(s, t, p);
    }
  }

  lemma CommitKeepsInv(s: State, t: TxId)
    requires Inv(s) && t in s.owners
    ensures Inv(DoOwnerCommit(s, t))
  {
    var s' := DoOwnerCommit(s, t);
    CommitKeepsRows(s, t);
    EndKeepsTx(s, t, s');
    CommitKeepsScans(s, t, s');
    CommitKeepsFiles(s, t, s');
  }

  lemma CommitKeepsScans(s: State, t: TxId, s': State)
    requires TxInv(s) && ScanInv(s) && t in s.owners && s' == DoOwnerCommit(s, t)
    ensures ScanInv(s')
  {
    forall c | c in s.cleaners
      ensures PhaseInv(s'.cleaners[c].phase, c, s'.rows, s'.locks, s'.recorded)
    {
      var ph := s.cleaners[c].phase;
      assert PhaseInv(ph, c, s.rows, s.locks, s.recorded);
      if ph.Confirmed? {
        ConfirmedStays(s, t, c);
      }
    }
    forall c | c in s.cleaners
      ensures RemovedInv(s'.cleaners[c], c, s'.locks, s'.recorded, s'.remote)
    {
      assert RemovedInv(s.cleaners[c], c, s.locks, s.recorded, s.remote);
    }
  }

  /** A row whose operation a cleaner has locked is not deleted by its owner. */
  lemma ConfirmedStays(s: State, t: TxId, c: TxId)
    requires TxInv(s) && t in s.owners && c in s.cleaners && s.cleaners[c].phase.Confirmed?
    requires PhaseInv(s.cleaners[c].phase, c, s.rows, s.locks, s.recorded)
    ensures s.cleaners[c].phase.e.path in Visible(s, s.owners[t])
  {
    var p := s.cleaners[c].phase.e.path;
    if p in s.owners[t].deleted {
      assert OwnRows(s.owners[t], s.recorded);
      assert s.owners[t].own != {};
      OwnerHolds(s, t);
      assert false;
    }
  }

  /** Files of other operations stay covered exactly as they were. */
  lemma CommitCovers(s: State, t: TxId, f: Path)
    requires TxInv(s) && CoverInv(s.written, s.recorded, s.opOwner) && t in s.owners
    requires f in s.written && s.written[f] != s.owners[t].op
    ensures Covered(Visible(s, s.owners[t]), f) <==> Covered(s.rows, f)
  {
    var rows' := Visible(s, s.owners[t]);
    if Covered(s.rows, f) {
      var p :| p in s.rows && Covers(p, s.rows[p], f);
      CommitRows(s, t, p);
      assert p in rows' && Covers(p, rows'[p], f);
    }
    if Covered(rows', f) {
      var p :| p in rows' && Covers(p, rows'[p], f);
      CommitRows(s, t, p);
      assert p in s.rows && Covers(p, s.rows[p], f);
    }
  }

  /** A file that a commit keeps belongs to the committing transaction. */
  lemma BackedIsOwn(s: State, t: TxId, f: Path)
    requires TxInv(s) && CoverInv(s.written, s.recorded, s.opOwner) && t in s.owners
    requires f in s.written && Backed(s.owners[t].own, s.recorded, f)
    ensures s.written[f] == s.owners[t].op && s.owners[t].op != 0 && s.opOwner[s.written[f]] == t
  {
    assert OwnRows(s.owners[t], s.recorded);
    OwnerHolds(s, t);
  }

  /** A file that stays in remote storage stays covered, or is kept. */
  lemma CommitForgetsNothing(s: State, t: TxId, f: Path)
    requires TxInv(s) && t in s.owners && Covered(s.rows, f)
    ensures Covered(Visible(s, s.owners[t]), f) || Backed(s.owners[t].own, s.recorded, f)
  {
    var rows' := Visible(s, s.owners[t]);
    var p :| p in s.rows && Covers(p, s.rows[p], f);
    assert OwnRows(s.owners[t], s.recorded);
    if p in s.owners[t].deleted {
      assert p in s.owners[t].own && p in s.recorded && Covers(p, s.recorded[p], f);
    } else {
      CommitRows(s, t, p);
      assert p in rows' && Covers(p, rows'[p], f);
    }
  }

  lemma CommitKeepsLive(s: State, t: TxId, s': State)
    requires TxInv(s) && FileInv(s) && t in s.owners
    requires s'.owners == s.owners - {t} && s'.rows == Visible(s, s.owners[t])
    requires s'.remote == s.remote && s'.written == s.written && s'.recorded == s.recorded
    ensures LiveFiles(s'.written, s'.remote, s'.rows, s'.owners, s'.recorded)
  {
    forall u, f | u in s'.owners && f in s'.written && Backed(s'.owners[u].own, s'.recorded, f)
      ensures f in s'.remote && Covered(s'.rows, f)
    {
      assert s'.owners[u] == s.owners[u];
      OthersFile(s, t, u, f);
    }
  }

  lemma OthersFile(s: State, t: TxId, u: TxId, f: Path)
    requires TxInv(s) && FileInv(s) && t in s.owners && u in s.owners && u != t
    requires f in s.written && Backed(s.owners[u].own, s.recorded, f)
    ensures f in s.remote && Covered(Visible(s, s.owners[t]), f)
  {
    BackedIsOwn(s, u, f);
    assert s.owners[t].op != s.written[f];
    CommitCovers(s, t, f);
  }

  lemma CommitKeepsKept(s: State, t: TxId, s': State)
    requires TxInv(s) && FileInv(s) && t in s.owners && s' == DoOwnerCommit(s, t)
    ensures KeptInv(s'.kept, s'.written, s'.remote, s'.rows, s'.owners, s'.opOwner)
  {
    forall f | f in s'.kept
      ensures f in s'.written && f in s'.remote && !Live(s'.owners, s'.opOwner, s'.written[f]) && !Covered(s'.rows, f)
    {
      if f in s.kept {
        KeptStays(s, t, f);
      } else {
        BackedIsOwn(s, t, f);
      }
    }
  }

  lemma KeptStays(s: State, t: TxId, f: Path)
    requires TxInv(s) && FileInv(s) && t in s.owners && f in s.kept
    ensures f in s.written && f in s.remote && !Live(s.owners, s.opOwner, s.written[f])
    ensures !Covered(Visible(s, s.owners[t]), f)
  {
    assert s.written[f] != s.owners[t].op;
    CommitCovers(s, t, f);
  }

  lemma CommitKeepsFiles(s: State, t: TxId, s': State)
    requires TxInv(s) && FileInv(s) && t in s.owners && s' == DoOwnerCommit(s, t)
    ensures FileInv(s')
  {
    CommitKeepsLive(s, t, s');
    CommitKeepsKept(s, t, s');
    forall f | f in s'.remote
      ensures f in s'.kept || Covered(s'.rows, f)
    {
      if f !in s.kept {
        CommitForgetsNothing(s, t, f);
      }
    }
  }
}
