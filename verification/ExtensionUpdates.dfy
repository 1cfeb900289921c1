/** ALTER EXTENSION .. UPDATE with dependencies: what is created and updated, and in which order. */
module ExtensionUpdates {

  type Name = string

  datatype Event = Created(name: Name) | Updated(name: Name)

  type Graph = map<Name, seq<Name>>

  /** The requires lists are known for every extension involved and have no cycle. */
  ghost predicate Acyclic(g: Graph, rank: map<Name, nat>) {
    forall n :: n in g ==>
      n in rank && forall i :: 0 <= i < |g[n]| ==> g[n][i] in g && g[n][i] in rank && rank[g[n][i]] < rank[n]
  }

  function CreatedIn(ev: seq<Event>): set<Name> {
    set e | e in ev && e.Created? :: e.name
  }

  /** How `n` stands after `ev`, having started from `installed`: a dependency that was there has been
      updated, one that was missing has been created. */
  predicate Settled(d: Name, installed: set<Name>, ev: seq<Event>) {
    if d in installed then Updated(d) in ev else Created(d) in ev
  }

  predicate Present(d: Name, installed: set<Name>, ev: seq<Event>) {
    d in installed || Created(d) in ev
  }

  /** Every update comes after its dependencies were settled, every creation after they were present. */
  predicate Ordered(g: Graph, installed: set<Name>, ev: seq<Event>) {
    forall i :: 0 <= i < |ev| ==> EventOk(g, installed, ev, i)
  }

  predicate EventOk(g: Graph, installed: set<Name>, ev: seq<Event>, i: nat)
    requires i < |ev|
  {
    && ev[i].name in g
    && (ev[i].Updated? ==> forall k :: 0 <= k < |g[ev[i].name]| ==> Settled(g[ev[i].name][k], installed, ev[..i]))
    && (ev[i].Created? ==> forall k :: 0 <= k < |g[ev[i].name]| ==> Present(g[ev[i].name][k], installed, ev[..i]))
    && (ev[i].Created? ==> ev[i].name !in installed)
  }

  lemma SettledBefore(d: Name, installed: set<Name>, ev: seq<Event>, more: seq<Event>)
    requires Settled(d, installed + CreatedIn(ev), more)
    ensures Settled(d, installed, ev + more)
  {
  }

  lemma PresentBefore(d: Name, installed: set<Name>, ev: seq<Event>, more: seq<Event>)
    requires Present(d, installed + CreatedIn(ev), more)
    ensures Present(d, installed, ev + more)
  {
  }

  lemma OrderedConcat(g: Graph, installed: set<Name>, ev: seq<Event>, more: seq<Event>)
    requires Ordered(g, installed, ev) && Ordered(g, installed + CreatedIn(ev), more)
    ensures Ordered(g, installed, ev + more)
  {
    var all := ev + more;
    forall i | 0 <= i < |all|
      ensures EventOk(g, installed, all, i)
    {
      if i < |ev| {
        assert all[..i] == ev[..i] && EventOk(g, installed, ev, i);
      } else {
        ConcatLater(g, installed, ev, more, i - |ev|);
      }
    }
  }

  lemma ConcatLater(g: Graph, installed: set<Name>, ev: seq<Event>, more: seq<Event>, i: nat)
    requires i < |more| && EventOk(g, installed + CreatedIn(ev), more, i)
    ensures EventOk(g, installed, ev + more, |ev| + i)
  {
    var all := ev + more;
    assert all[|ev| + i] == more[i] && all[..|ev| + i] == ev + more[..i];
    var deps := g[more[i].name];
    if more[i].Updated? {
      forall k | 0 <= k < |deps|
        ensures Settled(deps[k], installed, all[..|ev| + i])
      {
        SettledBefore(deps[k], installed, ev, more[..i]);
      }
    } else {
      forall k | 0 <= k < |deps|
        ensures Present(deps[k], installed, all[..|ev| + i])
      {
        PresentBefore(deps[k], installed, ev, more[..i]);
      }
    }
  }

  lemma OrderedEnd(g: Graph, installed: set<Name>, ev: seq<Event>, e: Event)
    requires Ordered(g, installed, ev) && EventOk(g, installed, ev + [e], |ev|)
    ensures Ordered(g, installed, ev + [e])
  {
    var all := ev + [e];
    forall i | 0 <= i < |all|
      ensures EventOk(g, installed, all, i)
    {
      if i < |ev| {
        assert all[..i] == ev[..i] && EventOk(g, installed, ev, i);
      }
    }
  }

  lemma CreatedConcat(ev: seq<Event>, more: seq<Event>)
    ensures CreatedIn(ev + more) == CreatedIn(ev) + CreatedIn(more)
  {
  }

  // ----- everything reachable is updated -----

  /** A chain of dependencies through installed extensions. */
  predicate InstalledPath(g: Graph, installed: set<Name>, p: seq<Name>) {
    p != [] && p[0] in g && (|p| == 1 || (p[1] in g[p[0]] && p[1] in installed && InstalledPath(g, installed, p[1..])))
  }

  /** A log that respects the order and updates the head of a chain updates all of it. */
  lemma {:induction false} ReachableUpdated(g: Graph, installed: set<Name>, ev: seq<Event>, p: seq<Name>)
    requires Ordered(g, installed, ev) && InstalledPath(g, installed, p) && Updated(p[0]) in ev
    ensures Updated(p[|p| - 1]) in ev
    decreases |p|
  {
    if |p| > 1 {
      var i :| 0 <= i < |ev| && ev[i] == Updated(p[0]);
      assert EventOk(g, installed, ev, i);
      var k :| 0 <= k < |g[p[0]]| && g[p[0]][k] == p[1];
      assert Settled(g[p[0]][k], installed, ev[..i]);
      ReachableUpdated(g, installed, ev, p[1..]);
    }
  }

  /** Everything reachable from `n` through installed extensions is updated. */
  ghost predicate ChainsUpdated(g: Graph, installed: set<Name>, n: Name, ev: seq<Event>) {
    forall p :: InstalledPath(g, installed, p) && p[0] == n ==> Updated(p[|p| - 1]) in ev
  }

  lemma AllChainsUpdated(g: Graph, installed: set<Name>, n: Name, ev: seq<Event>)
    requires Ordered(g, installed, ev) && Updated(n) in ev
    ensures ChainsUpdated(g, installed, n, ev)
  {
    forall p | InstalledPath(g, installed, p) && p[0] == n
      ensures Updated(p[|p| - 1]) in ev
    {
      ReachableUpdated(g, installed, ev, p);
    }
  }

  /** Some extension that requires `x` is updated. */
  predicate UpdatedAbove(g: Graph, x: Name, ev: seq<Event>) {
    exists y :: y in g && x in g[y] && Updated(y) in ev
  }

  lemma AboveConcat(g: Graph, ev: seq<Event>, more: seq<Event>)
    ensures forall x :: UpdatedAbove(g, x, ev) || UpdatedAbove(g, x, more) ==> UpdatedAbove(g, x, ev + more)
  {
    forall x | UpdatedAbove(g, x, ev) || UpdatedAbove(g, x, more)
      ensures UpdatedAbove(g, x, ev + more)
    {
      var y :| y in g && x in g[y] && (Updated(y) in ev || Updated(y) in more);
      assert Updated(y) in ev + more;
    }
  }

  /** What an updated extension requires is updated if it was there. */
  lemma BelowUpdated(g: Graph, installed: set<Name>, ev: seq<Event>)
    requires Ordered(g, installed, ev)
    ensures forall d :: d in installed && UpdatedAbove(g, d, ev) ==> Updated(d) in ev
  {
    forall d | d in installed && UpdatedAbove(g, d, ev)
      ensures Updated(d) in ev
    {
      var y :| y in g && d in g[y] && Updated(y) in ev;
      var i :| 0 <= i < |ev| && ev[i] == Updated(y);
      assert EventOk(g, installed, ev, i);
      var k :| 0 <= k < |g[y]| && g[y][k] == d;
      assert Settled(g[y][k], installed, ev[..i]);
    }
  }

  /** Events concern extensions of rank below `r`. */
  ghost predicate Below(ev: seq<Event>, rank: map<Name, nat>, r: nat) {
    forall e :: e in ev ==> e.name in rank && rank[e.name] < r
  }

  /** The extension and everything it depends on, directly or not, is installed. */
  ghost predicate AllInstalled(g: Graph, rank: map<Name, nat>, installed: set<Name>, n: Name)
    requires Acyclic(g, rank) && n in g
    decreases rank[n]
  {
    n in installed && forall k :: 0 <= k < |g[n]| ==> AllInstalled(g, rank, installed, g[n][k])
  }

  // ----- one dependency after the other -----

  datatype Settings = Settings(createOn: bool, updateOn: bool, hasVersion: bool)

  predicate OnlyCreated(ev: seq<Event>) {
    forall e :: e in ev ==> e.Created?
  }

  /** The first `i` dependencies of `n` have been dealt with. */
  ghost predicate DependenciesDone(g: Graph, rank: map<Name, nat>, n: Name, i: nat, was: set<Name>, ev: seq<Event>,
    how: Settings)
    requires Acyclic(g, rank) && n in g && i <= |g[n]|
  {
    && Ordered(g, was, ev) && (i == 0 ==> ev == [])
    && (!how.createOn ==> CreatedIn(ev) == {})
    && (!how.createOn && how.updateOn && !how.hasVersion ==>
          forall k :: 0 <= k < i ==> AllInstalled(g, rank, was, g[n][k]))
    && (how.hasVersion || !how.updateOn ==> OnlyCreated(ev))
    && (how.updateOn && !how.hasVersion ==> forall k :: 0 <= k < i ==> Settled(g[n][k], was, ev))
    && (how.createOn ==> forall k :: 0 <= k < i ==> Present(g[n][k], was, ev))
    && (how.createOn && |g[n]| == 1 && g[n][0] !in was ==> OnlyCreated(ev))
    && (forall x :: Updated(x) in ev ==> x in g[n] || UpdatedAbove(g, x, ev))
  }

  /** What dealing with dependency `d` does. */
  ghost predicate DependencyDone(g: Graph, rank: map<Name, nat>, d: Name, was: set<Name>, ev: seq<Event>, ok: bool,
    how: Settings)
    requires Acyclic(g, rank) && d in g
  {
    && Ordered(g, was, ev)
    && (how.createOn ==> ok && Present(d, was, ev))
    && (!how.createOn ==> CreatedIn(ev) == {})
    && (ok && how.updateOn && !how.hasVersion ==> Settled(d, was, ev))
    && (!how.createOn && how.updateOn && !how.hasVersion ==> (ok <==> AllInstalled(g, rank, was, d)))
    && (how.hasVersion || !how.updateOn ==> ok)
    && (how.hasVersion || !how.updateOn || (how.createOn && d !in was) ==> OnlyCreated(ev))
    && (ok ==> forall x :: Updated(x) in ev ==> x == d || UpdatedAbove(g, x, ev))
  }

  lemma AboveStep(g: Graph, n: Name, d: Name, ev: seq<Event>, more: seq<Event>)
    requires n in g && d in g[n]
    requires forall x :: Updated(x) in ev ==> x in g[n] || UpdatedAbove(g, x, ev)
    requires forall x :: Updated(x) in more ==> x == d || UpdatedAbove(g, x, more)
    ensures forall x :: Updated(x) in ev + more ==> x in g[n] || UpdatedAbove(g, x, ev + more)
  {
    AboveConcat(g, ev, more);
  }

  lemma PresentStep(g: Graph, n: Name, i: nat, was: set<Name>, ev: seq<Event>, more: seq<Event>)
    requires n in g && i < |g[n]| && forall k :: 0 <= k < i ==> Present(g[n][k], was, ev)
    requires Present(g[n][i], was + CreatedIn(ev), more)
    ensures forall k :: 0 <= k < i + 1 ==> Present(g[n][k], was, ev + more)
  {
    PresentBefore(g[n][i], was, ev, more);
  }

  lemma SettledStep(g: Graph, n: Name, i: nat, was: set<Name>, ev: seq<Event>, more: seq<Event>)
    requires n in g && i < |g[n]| && forall k :: 0 <= k < i ==> Settled(g[n][k], was, ev)
    requires Settled(g[n][i], was + CreatedIn(ev), more)
    ensures forall k :: 0 <= k < i + 1 ==> Settled(g[n][k], was, ev + more)
  {
    SettledBefore(g[n][i], was, ev, more);
  }

  lemma OnlyCreatedConcat(ev: seq<Event>, more: seq<Event>)
    requires OnlyCreated(ev) && OnlyCreated(more)
    ensures OnlyCreated(ev + more)
  {
  }

  lemma InstalledStep(g: Graph, rank: map<Name, nat>, n: Name, i: nat, was: set<Name>)
    requires Acyclic(g, rank) && n in g && i < |g[n]| && AllInstalled(g, rank, was, g[n][i])
    requires forall k :: 0 <= k < i ==> AllInstalled(g, rank, was, g[n][k])
    ensures forall k :: 0 <= k < i + 1 ==> AllInstalled(g, rank, was, g[n][k])
  {
  }

  /** A dependency that fails is missing something. */
  lemma DependencyFails(g: Graph, rank: map<Name, nat>, n: Name, i: nat, was: set<Name>, ev: seq<Event>,
    more: seq<Event>, how: Settings)
    requires Acyclic(g, rank) && n in g && i < |g[n]| && DependenciesDone(g, rank, n, i, was, ev, how)
    requires DependencyDone(g, rank, g[n][i], was + CreatedIn(ev), more, false, how)
    ensures !how.createOn && how.updateOn && !how.hasVersion && !AllInstalled(g, rank, was, g[n][i])
  {
    assert was + CreatedIn(ev) == was;
  }

  lemma CreateStep(g: Graph, rank: map<Name, nat>, n: Name, i: nat, was: set<Name>, ev: seq<Event>,
    more: seq<Event>, how: Settings)
    requires Acyclic(g, rank) && n in g && i < |g[n]| && DependenciesDone(g, rank, n, i, was, ev, how)
    requires DependencyDone(g, rank, g[n][i], was + CreatedIn(ev), more, true, how) && how.createOn
    ensures forall k :: 0 <= k < i + 1 ==> Present(g[n][k], was, ev + more)
    ensures |g[n]| == 1 && g[n][0] !in was ==> OnlyCreated(ev + more)
  {
    PresentStep(g, n, i, was, ev, more);
    if |g[n]| == 1 && g[n][0] !in was {
      assert ev == [] && CreatedIn(ev) == {};
      OnlyCreatedConcat(ev, more);
    }
  }

  lemma NoCreateStep(g: Graph, rank: map<Name, nat>, n: Name, i: nat, was: set<Name>, ev: seq<Event>,
    more: seq<Event>, how: Settings)
    requires Acyclic(g, rank) && n in g && i < |g[n]| && DependenciesDone(g, rank, n, i, was, ev, how)
    requires DependencyDone(g, rank, g[n][i], was + CreatedIn(ev), more, true, how) && !how.createOn
    ensures CreatedIn(ev + more) == {}
    ensures how.updateOn && !how.hasVersion ==> forall k :: 0 <= k < i + 1 ==> AllInstalled(g, rank, was, g[n][k])
  {
    CreatedConcat(ev, more);
    assert was + CreatedIn(ev) == was;
    if how.updateOn && !how.hasVersion {
      InstalledStep(g, rank, n, i, was);
    }
  }

  lemma DependenciesStep(g: Graph, rank: map<Name, nat>, n: Name, i: nat, was: set<Name>, ev: seq<Event>,
    more: seq<Event>, ok: bool, how: Settings)
    requires Acyclic(g, rank) && n in g && i < |g[n]| && DependenciesDone(g, rank, n, i, was, ev, how)
    requires DependencyDone(g, rank, g[n][i], was + CreatedIn(ev), more, ok, how)
    ensures Ordered(g, was, ev + more) && CreatedIn(ev + more) == CreatedIn(ev) + CreatedIn(more)
    ensures !ok ==> !how.createOn && how.updateOn && !how.hasVersion && !AllInstalled(g, rank, was, g[n][i])
    ensures ok ==> DependenciesDone(g, rank, n, i + 1, was, ev + more, how)
  {
    OrderedConcat(g, was, ev, more);
    CreatedConcat(ev, more);
    if !ok {
      DependencyFails(g, rank, n, i, was, ev, more, how);
      return;
    }
    AboveStep(g, n, g[n][i], ev, more);
    if how.createOn {
      CreateStep(g, rank, n, i, was, ev, more, how);
    } else {
      NoCreateStep(g, rank, n, i, was, ev, more, how);
    }
    if how.updateOn && !how.hasVersion {
      SettledStep(g, n, i, was, ev, more);
    } else {
      OnlyCreatedConcat(ev, more);
    }
  }

  // ----- the statements -----

  class Catalog {

    const g: Graph
    const createOn: bool          // create missing dependencies
    const updateOn: bool          // update existing dependencies
    var installed: set<Name>
    var log: seq<Event>

    constructor (g: Graph, createOn: bool, updateOn: bool, installed: set<Name>)
      ensures this.g == g && this.createOn == createOn && this.updateOn == updateOn
      ensures this.installed == installed && log == []
    {
      this.g, this.createOn, this.updateOn := g, createOn, updateOn;
      this.installed, log := installed, [];
    }

    /** `ev` happened since the catalog held `was` and the log was `before`. */
    ghost predicate Since(was: set<Name>, before: seq<Event>, ev: seq<Event>)
      reads this
    {
      log == before + ev && installed == was + CreatedIn(ev)
    }

    /** CREATE EXTENSION IF NOT EXISTS .. CASCADE: missing dependencies first, nothing is updated. */
    method EnsureExtensionExists(n: Name, ghost rank: map<Name, nat>) returns (ghost ev: seq<Event>)
      requires Acyclic(g, rank) && n in g
      modifies this
      ensures Since(old(installed), old(log), ev) && Ordered(g, old(installed), ev)
      ensures forall e :: e in ev ==> e.Created?
      ensures n in installed && (n !in old(installed) ==> Created(n) in ev)
      ensures Below(ev, rank, rank[n] + 1)
      decreases rank[n]
    {
      ghost var was, before := installed, log;
      ev := [];
      if n in installed {
        return;
      }
      for i := 0 to |g[n]|
        invariant Since(was, before, ev) && Ordered(g, was, ev) && Below(ev, rank, rank[n])
        invariant forall e :: e in ev ==> e.Created?
        invariant forall k :: 0 <= k < i ==> Present(g[n][k], was, ev)
      {
        if g[n][i] !in installed {
          ghost var more := EnsureExtensionExists(g[n][i], rank);
          OrderedConcat(g, was, ev, more);
          CreatedConcat(ev, more);
          ev := ev + more;
        }
      }
      installed, log := installed + {n}, log + [Created(n)];
      OrderedEnd(g, was, ev, Created(n));
      CreatedConcat(ev, [Created(n)]);
      ev := ev + [Created(n)];
    }

    /** One dependency of an extension that is about to be altered. */
    method HandleDependency(d: Name, hasVersion: bool, ghost rank: map<Name, nat>)
      returns (ok: bool, ghost ev: seq<Event>)
      requires Acyclic(g, rank) && d in g
      modifies this
      ensures Since(old(installed), old(log), ev) && Below(ev, rank, rank[d] + 1)
      ensures DependencyDone(g, rank, d, old(installed), ev, ok, Settings(createOn, updateOn, hasVersion))
      decreases rank[d], 2
    {
      ok, ev := true, [];
      if d !in installed && createOn {
        ev := EnsureExtensionExists(d, rank);
      } else if !hasVersion && updateOn {
        ok, ev := EnsureExtensionIsUpdated(d, rank);
      }
    }

    /** Before ALTER EXTENSION: missing dependencies are created, existing ones updated unless a
        version was asked for. */
    method HandleAlterExtensionStmt(n: Name, hasVersion: bool, ghost rank: map<Name, nat>)
      returns (ok: bool, ghost ev: seq<Event>)
      requires Acyclic(g, rank) && n in g
      modifies this
      ensures Since(old(installed), old(log), ev) && Below(ev, rank, rank[n]) && Ordered(g, old(installed), ev)
      ensures createOn ==> ok
      ensures !createOn ==> CreatedIn(ev) == {}
      ensures !createOn && updateOn && !hasVersion && n in old(installed) ==>
        (ok <==> forall k :: 0 <= k < |g[n]| ==> AllInstalled(g, rank, old(installed), g[n][k]))
      ensures hasVersion || !updateOn ==> ok && OnlyCreated(ev)
      ensures ok && updateOn && !hasVersion && n in old(installed) ==>
        forall k :: 0 <= k < |g[n]| ==> Settled(g[n][k], old(installed), ev)
      ensures createOn && n in old(installed) ==> forall k :: 0 <= k < |g[n]| ==> Present(g[n][k], old(installed), ev)
      // a single dependency that is missing is created, and nothing below it is updated
      ensures createOn && |g[n]| == 1 && g[n][0] !in old(installed) ==> OnlyCreated(ev)
      ensures ok ==> forall x :: Updated(x) in ev ==> x in g[n] || UpdatedAbove(g, x, ev)
      decreases rank[n], 0
    {
      ghost var was, before := installed, log;
      ok, ev := true, [];
      if (!createOn && !updateOn) || n !in installed {
        return;
      }
      ghost var how := Settings(createOn, updateOn, hasVersion);
      for i := 0 to |g[n]|
        invariant Since(was, before, ev) && Below(ev, rank, rank[n]) && ok
        invariant DependenciesDone(g, rank, n, i, was, ev, how)
      {
        ghost var more;
        ok, more := HandleDependency(g[n][i], hasVersion, rank);
        DependenciesStep(g, rank, n, i, was, ev, more, ok, how);
        ev := ev + more;
        if !ok {
          return;
        }
      }
    }

    /** ALTER EXTENSION .. UPDATE on `n`, its dependencies first. */
    method EnsureExtensionIsUpdated(n: Name, ghost rank: map<Name, nat>) returns (ok: bool, ghost ev: seq<Event>)
      requires Acyclic(g, rank) && n in g
      modifies this
      ensures Since(old(installed), old(log), ev) && Below(ev, rank, rank[n] + 1)
      ensures ok ==> n in old(installed) && Updated(n) in ev
      ensures createOn ==> (ok <==> n in old(installed))
      ensures !createOn ==> CreatedIn(ev) == {}
      ensures !createOn && updateOn ==> (ok <==> AllInstalled(g, rank, old(installed), n))
      ensures updateOn ==> Ordered(g, old(installed), ev)
      ensures updateOn && ok ==> ChainsUpdated(g, old(installed), n, ev)
      // an installed extension is updated if and only if one that requires it is
      ensures updateOn && ok ==> forall d :: d in old(installed) && d != n ==>
        (Updated(d) in ev <==> UpdatedAbove(g, d, ev))
      ensures ok ==> forall x :: Updated(x) in ev ==> x == n || UpdatedAbove(g, x, ev)
      // below a single dependency that was missing, installed extensions keep their version
      ensures createOn && ok && |g[n]| == 1 && g[n][0] !in old(installed) ==>
        forall x :: Updated(x) in ev <==> x == n
      decreases rank[n], 1
    {
      ghost var was := installed;
      ok, ev := HandleAlterExtensionStmt(n, false, rank);
      if !ok || n !in installed {
        return false, ev;
      }
      log := log + [Updated(n)];
      CreatedConcat(ev, [Updated(n)]);
      AboveConcat(g, ev, [Updated(n)]);
      assert Updated(n) in ev + [Updated(n)];
      if updateOn {
        OrderedEnd(g, was, ev, Updated(n));
        AllChainsUpdated(g, was, n, ev + [Updated(n)]);
        BelowUpdated(g, was, ev + [Updated(n)]);
      }
      ev := ev + [Updated(n)];
    }

    /** One dependency of an extension that is about to be created. */
    method UpdateInstalled(d: Name, ghost rank: map<Name, nat>) returns (ok: bool, ghost ev: seq<Event>)
      requires Acyclic(g, rank) && d in g && updateOn
      modifies this
      ensures Since(old(installed), old(log), ev) && Ordered(g, old(installed), ev)
      ensures createOn ==> ok
      ensures !createOn ==> CreatedIn(ev) == {}
      ensures !createOn ==> (ok <==> (d in old(installed) ==> AllInstalled(g, rank, old(installed), d)))
      ensures ok && d in old(installed) ==> Updated(d) in ev
    {
      ok, ev := true, [];
      if d in installed {
        ok, ev := EnsureExtensionIsUpdated(d, rank);
      }
    }

    /** Before CREATE EXTENSION: installed dependencies are updated, missing ones are left to it. */
    method HandleCreateExtensionStmt(n: Name, hasVersion: bool, ghost rank: map<Name, nat>)
      returns (ok: bool, ghost ev: seq<Event>)
      requires Acyclic(g, rank) && n in g
      modifies this
      ensures Since(old(installed), old(log), ev) && Ordered(g, old(installed), ev)
      ensures hasVersion || !updateOn ==> ok && ev == []
      ensures createOn ==> ok
      ensures !createOn && updateOn && !hasVersion ==>
        (ok <==> forall k :: 0 <= k < |g[n]| && g[n][k] in old(installed) ==>
          AllInstalled(g, rank, old(installed), g[n][k]))
      ensures ok && updateOn && !hasVersion ==>
        forall k :: 0 <= k < |g[n]| && g[n][k] in old(installed) ==> Updated(g[n][k]) in ev
    {
      ghost var was, before := installed, log;
      ok, ev := true, [];
      if !updateOn || hasVersion {
        return;
      }
      for i := 0 to |g[n]|
        invariant Since(was, before, ev) && ok && Ordered(g, was, ev)
        invariant !createOn ==> CreatedIn(ev) == {}
        invariant !createOn ==>
          forall k :: 0 <= k < i && g[n][k] in was ==> AllInstalled(g, rank, was, g[n][k])
        invariant forall k :: 0 <= k < i && g[n][k] in was ==> Updated(g[n][k]) in ev
      {
        ghost var more;
        ok, more := UpdateInstalled(g[n][i], rank);
        CreatedConcat(ev, more);
        OrderedConcat(g, was, ev, more);
        ev := ev + more;
        if !ok {
          return;
        }
      }
    }
  }
}
