/** Least-recently-used eviction of the file cache. Whether a per-path lock can be taken, whether a
    candidate already has a file and whether a download succeeds are inputs. */
module CacheEviction {

  datatype Item = Item(path: string, size: nat, time: int, isCandidate: bool, needsDownload: bool)

  datatype ActionType = Added | AddSkipped | Removed | TooOld | TooLarge | Concurrent

  datatype Action = Action(path: string, size: nat, action: ActionType)

  // ----- age -----

  predicate LexLess(a: string, b: string) {
    if b == [] then false
    else if a == [] then true
    else a[0] < b[0] || (a[0] == b[0] && LexLess(a[1..], b[1..]))
  }

  /** `a` is older than `b`; equal access times are ordered by path. */
  predicate Older(a: Item, b: Item) {
    a.time < b.time || (a.time == b.time && LexLess(a.path, b.path))
  }

  lemma {:induction false} LexTransitive(a: string, b: string, c: string)
    requires !LexLess(b, a) && !LexLess(c, b)
    ensures !LexLess(c, a)
  {
    if a != [] && c != [] && b != [] {
      if a[0] == b[0] == c[0] {
        LexTransitive(a[1..], b[1..], c[1..]);
      }
    }
  }

  lemma {:induction false} LexAsymmetric(a: string, b: string)
    ensures !(LexLess(a, b) && LexLess(b, a))
  {
    if a != [] && b != [] {
      LexAsymmetric(a[1..], b[1..]);
    }
  }

  lemma OlderTransitive(a: Item, b: Item, c: Item)
    requires !Older(b, a) && !Older(c, b)
    ensures !Older(c, a)
  {
    if !LexLess(b.path, a.path) && !LexLess(c.path, b.path) {
      LexTransitive(a.path, b.path, c.path);
    }
  }

  predicate Sorted(files: seq<Item>) {
    forall i, j :: 0 <= i < j < |files| ==> !Older(files[j], files[i])
  }

  function Insert(f: Item, files: seq<Item>): seq<Item> {
    if files == [] then [f]
    else if Older(f, files[0]) then [f] + files
    else [files[0]] + Insert(f, files[1..])
  }

  function SortByAge(files: seq<Item>): seq<Item> {
    if files == [] then [] else Insert(files[0], SortByAge(files[1..]))
  }

  lemma {:induction false} InsertSorted(f: Item, files: seq<Item>)
    requires Sorted(files)
    ensures Sorted(Insert(f, files)) && multiset(Insert(f, files)) == multiset{f} + multiset(files)
  {
    if files != [] {
      assert files == [files[0]] + files[1..];
      if Older(f, files[0]) {
        InsertFront(f, files);
      } else {
        InsertSorted(f, files[1..]);
        InsertLater(files[0], f, files[1..]);
      }
    }
  }

  lemma InsertFront(f: Item, files: seq<Item>)
    requires Sorted(files) && files != [] && Older(f, files[0])
    ensures Sorted([f] + files)
  {
    LexAsymmetric(f.path, files[0].path);
    forall j | 0 <= j < |files|
      ensures !Older(files[j], f)
    {
      if j > 0 {
        OlderTransitive(f, files[0], files[j]);
      }
    }
  }

  lemma InsertLater(first: Item, f: Item, rest: seq<Item>)
    requires Sorted([first] + rest) && Sorted(Insert(f, rest)) && !Older(f, first)
    requires multiset(Insert(f, rest)) == multiset{f} + multiset(rest)
    ensures Sorted([first] + Insert(f, rest))
  {
    var r := Insert(f, rest);
    forall j | 0 <= j < |r|
      ensures !Older(r[j], first)
    {
      assert r[j] in multiset(r);
      if r[j] != f {
        assert r[j] in rest;
        var k :| 0 <= k < |rest| && rest[k] == r[j];
        var all := [first] + rest;
        assert all[0] == first && all[k + 1] == r[j];
      }
    }
  }

  lemma {:induction false} SortIsSorted(files: seq<Item>)
    ensures Sorted(SortByAge(files)) && multiset(SortByAge(files)) == multiset(files)
  {
    if files != [] {
      SortIsSorted(files[1..]);
      InsertSorted(files[0], SortByAge(files[1..]));
      assert files == [files[0]] + files[1..];
    }
  }

  // ----- bytes -----

  /** Cached files, candidates to download, and the items eviction can act on. */
  datatype Kind = Cached | Pending | Removable | Stuck | Active

  predicate Is(k: Kind, f: Item, locked: set<string>) {
    match k
    case Cached => !f.isCandidate
    case Pending => f.isCandidate && f.needsDownload
    case Removable => !f.isCandidate && f.path !in locked
    case Stuck => !f.isCandidate && f.path in locked
    case Active => if f.isCandidate then f.needsDownload else f.path !in locked
  }

  function Weight(k: Kind, f: Item, locked: set<string>): nat {
    if Is(k, f, locked) then f.size else 0
  }

  function Bytes(k: Kind, files: seq<Item>, locked: set<string>): nat {
    if files == [] then 0 else Bytes(k, files[..|files| - 1], locked) + Weight(k, files[|files| - 1], locked)
  }

  lemma {:induction false} BytesSplit(k: Kind, files: seq<Item>, locked: set<string>, n: nat)
    requires n <= |files|
    ensures Bytes(k, files, locked) == Bytes(k, files[..n], locked) + Bytes(k, files[n..], locked)
    decreases |files|
  {
    if n == |files| {
      assert files[..n] == files;
    } else {
      var init := files[..|files| - 1];
      BytesSplit(k, init, locked, n);
      assert init[..n] == files[..n] && init[n..] == files[n..][..|files[n..]| - 1];
    }
  }

  /** Active bytes are the removable and the pending ones. */
  lemma {:induction false} BytesPartition(files: seq<Item>, locked: set<string>)
    ensures Bytes(Active, files, locked) == Bytes(Removable, files, locked) + Bytes(Pending, files, locked)
    ensures Bytes(Cached, files, locked) == Bytes(Removable, files, locked) + Bytes(Stuck, files, locked)
  {
    if files != [] {
      BytesPartition(files[..|files| - 1], locked);
    }
  }

  // ----- what eviction does -----

  /** The size test. The sum is unsigned, so a negative limit is compared as a very large one. */
  predicate Fits(bytes: nat, limit: int) {
    bytes < if limit < 0 then limit + 0x1_0000_0000_0000_0000 else limit
  }

  /** Bytes cached or still to be downloaded once the `n` oldest items have been dealt with. */
  function Left(files: seq<Item>, n: nat, locked: set<string>): nat
    requires n <= |files|
  {
    Bytes(Stuck, files[..n], locked) + Bytes(Cached, files[n..], locked) + Bytes(Pending, files[n..], locked)
  }

  /** The first position from `i` on at which what is left fits, or the end. */
  function Cut(files: seq<Item>, i: nat, limit: int, locked: set<string>): (n: nat)
    requires i <= |files|
    ensures i <= n <= |files|
    decreases |files| - i
  {
    if i == |files| || Fits(Left(files, i, locked), limit) then i else Cut(files, i + 1, limit, locked)
  }

  lemma {:induction false} CutIsFirst(files: seq<Item>, i: nat, limit: int, locked: set<string>)
    requires i <= |files|
    ensures var n := Cut(files, i, limit, locked);
      && (forall m :: i <= m < n ==> !Fits(Left(files, m, locked), limit))
      && (n < |files| ==> Fits(Left(files, n, locked), limit))
    decreases |files| - i
  {
    if i < |files| && !Fits(Left(files, i, locked), limit) {
      CutIsFirst(files, i + 1, limit, locked);
    }
  }

  /** What the running sums hold at position `n`. */
  lemma LeftSums(files: seq<Item>, n: nat, locked: set<string>)
    requires n <= |files|
    ensures Bytes(Cached, files, locked) - Bytes(Removable, files[..n], locked) ==
      Bytes(Stuck, files[..n], locked) + Bytes(Cached, files[n..], locked)
    ensures Bytes(Pending, files, locked) - Bytes(Pending, files[..n], locked) == Bytes(Pending, files[n..], locked)
  {
    BytesSplit(Cached, files, locked, n);
    BytesSplit(Pending, files, locked, n);
    BytesPartition(files[..n], locked);
  }

  function ActionFor(f: Item, locked: set<string>): seq<Action> {
    if Is(Removable, f, locked) then [Action(f.path, f.size, Removed)]
    else if Is(Stuck, f, locked) then [Action(f.path, f.size, Concurrent)]
    else if Is(Pending, f, locked) then [Action(f.path, f.size, TooOld)]
    else []
  }

  function EvictionActions(files: seq<Item>, locked: set<string>): seq<Action> {
    if files == [] then []
    else EvictionActions(files[..|files| - 1], locked) + ActionFor(files[|files| - 1], locked)
  }

  /** The result of the eviction loop: where it stopped, the sums, and what it reported. */
  datatype Eviction = Eviction(n: nat, totalCacheSize: nat, queueSize: nat, actions: seq<Action>)

  /** The eviction loop, over items sorted from oldest to newest. The sums it keeps are the sizes of
      what is still cached and of what is still to be downloaded. */
  method EvictOldest(files: seq<Item>, total: nat, queue: nat, limit: int, locked: set<string>) returns (r: Eviction)
    requires total == Bytes(Cached, files, locked) && queue == Bytes(Pending, files, locked)
    ensures r.n == Cut(files, 0, limit, locked)
    ensures r.totalCacheSize == Bytes(Stuck, files[..r.n], locked) + Bytes(Cached, files[r.n..], locked)
    ensures r.queueSize == Bytes(Pending, files[r.n..], locked)
    ensures r.actions == EvictionActions(files[..r.n], locked)
  {
    var i, totalCacheSize, queueSize, actions := 0, total, queue, [];
    assert files[..0] == [] && files[0..] == files;
    while i < |files| && !Fits(totalCacheSize + queueSize, limit)
      invariant 0 <= i <= |files| && Cut(files, i, limit, locked) == Cut(files, 0, limit, locked)
      invariant totalCacheSize == Bytes(Cached, files, locked) - Bytes(Removable, files[..i], locked)
      invariant queueSize == Bytes(Pending, files, locked) - Bytes(Pending, files[..i], locked)
      invariant totalCacheSize + queueSize == Left(files, i, locked)
      invariant actions == EvictionActions(files[..i], locked)
    {
      var f := files[i];
      assert files[..i + 1][..i] == files[..i] && files[..i + 1][i] == f;
      LeftSums(files, i + 1, locked);
      if !f.isCandidate {
        if f.path in locked {
          actions := actions + [Action(f.path, f.size, Concurrent)];
        } else {
          totalCacheSize := totalCacheSize - f.size;
          actions := actions + [Action(f.path, f.size, Removed)];
        }
      } else if f.needsDownload {
        queueSize := queueSize - f.size;
        actions := actions + [Action(f.path, f.size, TooOld)];
      }
      i := i + 1;
    }
    LeftSums(files, i, locked);
    r := Eviction(i, totalCacheSize, queueSize, actions);
  }

  // ----- the whole pass -----

  predicate TooBig(f: Item, limit: int) {
    f.size >= limit
  }

  /** A candidate is downloaded if it fits in the cache at all and has no file yet. */
  function Marked(candidates: seq<Item>, existing: set<string>, limit: int): (r: seq<Item>)
    ensures |r| == |candidates|
  {
    if candidates == [] then []
    else
      var f := candidates[|candidates| - 1];
      Marked(candidates[..|candidates| - 1], existing, limit) +
      [f.(needsDownload := f.needsDownload || (!TooBig(f, limit) && f.path !in existing))]
  }

  function TooLargeActions(candidates: seq<Item>, limit: int): seq<Action> {
    if candidates == [] then []
    else
      var f := candidates[|candidates| - 1];
      TooLargeActions(candidates[..|candidates| - 1], limit)
      + if TooBig(f, limit) then [Action(f.path, f.size, TooLarge)] else []
  }

  /** Candidates as they leave the queue. */
  predicate Fresh(candidates: seq<Item>) {
    forall i :: 0 <= i < |candidates| ==> candidates[i].isCandidate && !candidates[i].needsDownload
  }

  method MarkCandidates(candidates: seq<Item>, existing: set<string>, limit: int, locked: set<string>)
    returns (marked: seq<Item>, queueSize: nat, actions: seq<Action>)
    requires Fresh(candidates)
    ensures marked == Marked(candidates, existing, limit)
    ensures queueSize == Bytes(Pending, marked, locked)
    ensures actions == TooLargeActions(candidates, limit)
  {
    marked, queueSize, actions := [], 0, [];
    for i := 0 to |candidates|
      invariant marked == Marked(candidates[..i], existing, limit)
      invariant queueSize == Bytes(Pending, marked, locked)
      invariant actions == TooLargeActions(candidates[..i], limit)
    {
      var f := candidates[i];
      assert candidates[..i + 1][..i] == candidates[..i] && candidates[..i + 1][i] == f;
      if f.size >= limit {
        actions := actions + [Action(f.path, f.size, TooLarge)];
      } else if f.path !in existing {
        queueSize := queueSize + f.size;
        f := f.(needsDownload := true);
      }
      assert (marked + [f])[..i] == marked;
      marked := marked + [f];
    }
    assert candidates[..|candidates|] == candidates;
  }

  function DownloadFor(f: Item, failing: set<string>): seq<Action> {
    if !(f.isCandidate && f.needsDownload) then []
    else [Action(f.path, f.size, if f.path in failing then AddSkipped else Added)]
  }

  function DownloadActions(files: seq<Item>, failing: set<string>): seq<Action> {
    if files == [] then []
    else DownloadActions(files[..|files| - 1], failing) + DownloadFor(files[|files| - 1], failing)
  }

  method Download(files: seq<Item>, failing: set<string>) returns (actions: seq<Action>)
    ensures actions == DownloadActions(files, failing)
  {
    actions := [];
    for i := 0 to |files|
      invariant actions == DownloadActions(files[..i], failing)
    {
      var f := files[i];
      assert files[..i + 1][..i] == files[..i];
      if f.isCandidate && f.needsDownload {
        actions := actions + [Action(f.path, f.size, if f.path in failing then AddSkipped else Added)];
      }
    }
    assert files[..|files|] == files;
  }

  /** The items of one pass, oldest first. */
  function Ordered(candidates: seq<Item>, existing: set<string>, cached: seq<Item>, limit: int): seq<Item> {
    SortByAge(Marked(candidates, existing, limit) + cached)
  }

  predicate OnDisk(cached: seq<Item>) {
    forall i :: 0 <= i < |cached| ==> !cached[i].isCandidate && !cached[i].needsDownload
  }

  /** One cache management pass: filter the candidates, evict from the oldest item on until the rest
      fits, download what is left. `totalCacheSize` is the size of what is still counted as cached. */
  method ManageCache(candidates: seq<Item>, existing: set<string>, cached: seq<Item>, locked: set<string>,
    failing: set<string>, limit: int)
    returns (actions: seq<Action>, totalCacheSize: nat)
    requires Fresh(candidates) && OnDisk(cached)
    ensures PassResult(candidates, existing, cached, locked, failing, limit, actions, totalCacheSize)
  {
    var marked, queueSize, large := MarkCandidates(candidates, existing, limit, locked);
    var total := DiskSize(cached, locked);
    var files := SortByAge(marked + cached);
    MarkedKinds(candidates, existing, limit, locked);
    OnDiskKinds(cached, locked);
    BytesAppend(Cached, marked, cached, locked);
    BytesAppend(Pending, marked, cached, locked);
    SortBytes(Cached, marked + cached, locked);
    SortBytes(Pending, marked + cached, locked);
    var e := EvictOldest(files, total, queueSize, limit, locked);
    var downloads := Download(files[e.n..], failing);
    actions, totalCacheSize := large + e.actions + downloads, e.totalCacheSize;
  }

  method DiskSize(cached: seq<Item>, locked: set<string>) returns (total: nat)
    requires OnDisk(cached)
    ensures total == Bytes(Cached, cached, locked)
  {
    total := 0;
    for i := 0 to |cached|
      invariant total == Bytes(Cached, cached[..i], locked)
    {
      assert cached[..i + 1][..i] == cached[..i];
      total := total + cached[i].size;
    }
    assert cached[..|cached|] == cached;
  }

  lemma {:induction false} MarkedKinds(candidates: seq<Item>, existing: set<string>, limit: int, locked: set<string>)
    requires Fresh(candidates)
    ensures Bytes(Cached, Marked(candidates, existing, limit), locked) == 0
  {
    if candidates != [] {
      var r := Marked(candidates, existing, limit);
      MarkedKinds(candidates[..|candidates| - 1], existing, limit, locked);
      assert r[..|r| - 1] == Marked(candidates[..|candidates| - 1], existing, limit);
    }
  }

  lemma {:induction false} OnDiskKinds(cached: seq<Item>, locked: set<string>)
    requires OnDisk(cached)
    ensures Bytes(Pending, cached, locked) == 0
  {
    if cached != [] {
      OnDiskKinds(cached[..|cached| - 1], locked);
    }
  }

  lemma {:induction false} BytesAppend(k: Kind, a: seq<Item>, b: seq<Item>, locked: set<string>)
    ensures Bytes(k, a + b, locked) == Bytes(k, a, locked) + Bytes(k, b, locked)
  {
    BytesSplit(k, a + b, locked, |a|);
    assert (a + b)[..|a|] == a && (a + b)[|a|..] == b;
  }

  lemma {:induction false} InsertBytes(k: Kind, f: Item, files: seq<Item>, locked: set<string>)
    ensures Bytes(k, Insert(f, files), locked) == Weight(k, f, locked) + Bytes(k, files, locked)
  {
    OneBytes(k, f, locked);
    if files != [] {
      assert files == [files[0]] + files[1..];
      if Older(f, files[0]) {
        BytesAppend(k, [f], files, locked);
      } else {
        InsertBytes(k, f, files[1..], locked);
        BytesAppend(k, [files[0]], Insert(f, files[1..]), locked);
        BytesAppend(k, [files[0]], files[1..], locked);
      }
    }
  }

  lemma OneBytes(k: Kind, f: Item, locked: set<string>)
    ensures Bytes(k, [f], locked) == Weight(k, f, locked)
  {
    assert [f][..0] == [];
  }

  lemma {:induction false} SortBytes(k: Kind, files: seq<Item>, locked: set<string>)
    ensures Bytes(k, SortByAge(files), locked) == Bytes(k, files, locked)
  {
    if files != [] {
      SortBytes(k, files[1..], locked);
      InsertBytes(k, files[0], SortByAge(files[1..]), locked);
      OneBytes(k, files[0], locked);
      BytesAppend(k, [files[0]], files[1..], locked);
      assert files == [files[0]] + files[1..];
    }
  }

  // ----- what the pass guarantees -----

  function ActionBytes(actions: seq<Action>, t: ActionType): nat {
    if actions == [] then 0
    else
      var last := actions[|actions| - 1];
      ActionBytes(actions[..|actions| - 1], t) + if last.action == t then last.size else 0
  }

  lemma {:induction false} ActionBytesAppend(a: seq<Action>, b: seq<Action>, t: ActionType)
    ensures ActionBytes(a + b, t) == ActionBytes(a, t) + ActionBytes(b, t)
  {
    if b == [] {
      assert a + b == a;
    } else {
      assert (a + b)[..|a + b| - 1] == a + b[..|b| - 1];
      ActionBytesAppend(a, b[..|b| - 1], t);
    }
  }

  lemma OneActionBytes(a: Action, t: ActionType)
    ensures ActionBytes([a], t) == if a.action == t then a.size else 0
  {
    assert [a][..0] == [];
  }

  lemma ActionForBytes(f: Item, locked: set<string>)
    ensures ActionBytes(ActionFor(f, locked), Removed) == Weight(Removable, f, locked)
    ensures ActionBytes(ActionFor(f, locked), Added) == 0
  {
    if ActionFor(f, locked) != [] {
      OneActionBytes(ActionFor(f, locked)[0], Removed);
      OneActionBytes(ActionFor(f, locked)[0], Added);
    }
  }

  lemma {:induction false} EvictionBytes(files: seq<Item>, locked: set<string>)
    ensures ActionBytes(EvictionActions(files, locked), Removed) == Bytes(Removable, files, locked)
    ensures ActionBytes(EvictionActions(files, locked), Added) == 0
  {
    if files != [] {
      var init, last := files[..|files| - 1], files[|files| - 1];
      EvictionBytes(init, locked);
      ActionForBytes(last, locked);
      ActionBytesAppend(EvictionActions(init, locked), ActionFor(last, locked), Removed);
      ActionBytesAppend(EvictionActions(init, locked), ActionFor(last, locked), Added);
    }
  }

  lemma {:induction false} TooLargeBytes(candidates: seq<Item>, limit: int, t: ActionType)
    requires t != TooLarge
    ensures ActionBytes(TooLargeActions(candidates, limit), t) == 0
  {
    if candidates != [] {
      var init, f := candidates[..|candidates| - 1], candidates[|candidates| - 1];
      TooLargeBytes(init, limit, t);
      if TooBig(f, limit) {
        ActionBytesAppend(TooLargeActions(init, limit), [Action(f.path, f.size, TooLarge)], t);
        OneActionBytes(Action(f.path, f.size, TooLarge), t);
      } else {
        assert TooLargeActions(candidates, limit) == TooLargeActions(init, limit);
      }
    }
  }

  lemma DownloadForBytes(f: Item, failing: set<string>, locked: set<string>)
    ensures ActionBytes(DownloadFor(f, failing), Added) == if f.path in failing then 0 else Weight(Pending, f, locked)
    ensures ActionBytes(DownloadFor(f, failing), Removed) == 0
  {
    if DownloadFor(f, failing) != [] {
      OneActionBytes(DownloadFor(f, failing)[0], Added);
      OneActionBytes(DownloadFor(f, failing)[0], Removed);
    }
  }

  /** Downloads never add more than was counted for them. */
  lemma {:induction false} DownloadBytes(files: seq<Item>, failing: set<string>, locked: set<string>)
    ensures ActionBytes(DownloadActions(files, failing), Added) <= Bytes(Pending, files, locked)
    ensures failing == {} ==> ActionBytes(DownloadActions(files, failing), Added) == Bytes(Pending, files, locked)
    ensures ActionBytes(DownloadActions(files, failing), Removed) == 0
  {
    if files != [] {
      var init, f := files[..|files| - 1], files[|files| - 1];
      DownloadBytes(init, failing, locked);
      DownloadForBytes(f, failing, locked);
      ActionBytesAppend(DownloadActions(init, failing), DownloadFor(f, failing), Added);
      ActionBytesAppend(DownloadActions(init, failing), DownloadFor(f, failing), Removed);
    }
  }

  /** The actions and the size a pass ends with. */
  ghost predicate PassResult(candidates: seq<Item>, existing: set<string>, cached: seq<Item>, locked: set<string>,
    failing: set<string>, limit: int, actions: seq<Action>, totalCacheSize: nat)
  {
    var files := Ordered(candidates, existing, cached, limit);
    var n := Cut(files, 0, limit, locked);
    && totalCacheSize == Bytes(Stuck, files[..n], locked) + Bytes(Cached, files[n..], locked)
    && actions == TooLargeActions(candidates, limit) + EvictionActions(files[..n], locked) +
      DownloadActions(files[n..], failing)
  }

  /** The sums the pass starts from, and the bytes its actions report. */
  lemma PassBytes(candidates: seq<Item>, existing: set<string>, cached: seq<Item>, locked: set<string>,
    failing: set<string>, limit: int, actions: seq<Action>, totalCacheSize: nat, files: seq<Item>, n: nat)
    requires Fresh(candidates) && OnDisk(cached)
    requires PassResult(candidates, existing, cached, locked, failing, limit, actions, totalCacheSize)
    requires files == Ordered(candidates, existing, cached, limit) && n == Cut(files, 0, limit, locked)
    ensures Bytes(Cached, files, locked) == Bytes(Cached, cached, locked)
    ensures ActionBytes(actions, Removed) == Bytes(Removable, files[..n], locked)
    ensures ActionBytes(actions, Added) <= Bytes(Pending, files[n..], locked)
    ensures failing == {} ==> ActionBytes(actions, Added) == Bytes(Pending, files[n..], locked)
  {
    var marked := Marked(candidates, existing, limit);
    MarkedKinds(candidates, existing, limit, locked);
    BytesAppend(Cached, marked, cached, locked);
    SortBytes(Cached, marked + cached, locked);
    ThreeParts(TooLargeActions(candidates, limit), EvictionActions(files[..n], locked),
      DownloadActions(files[n..], failing), Removed);
    ThreeParts(TooLargeActions(candidates, limit), EvictionActions(files[..n], locked),
      DownloadActions(files[n..], failing), Added);
    TooLargeBytes(candidates, limit, Removed);
    TooLargeBytes(candidates, limit, Added);
    EvictionBytes(files[..n], locked);
    DownloadBytes(files[n..], failing, locked);
  }

  lemma ThreeParts(a: seq<Action>, b: seq<Action>, c: seq<Action>, t: ActionType)
    ensures ActionBytes(a + b + c, t) == ActionBytes(a, t) + ActionBytes(b, t) + ActionBytes(c, t)
  {
    ActionBytesAppend(a + b, c, t);
    ActionBytesAppend(a, b, t);
  }

  /** Counted bytes are conserved: what was listed is still counted or was reported as removed. */
  lemma BytesConserved(candidates: seq<Item>, existing: set<string>, cached: seq<Item>, locked: set<string>,
    failing: set<string>, limit: int, actions: seq<Action>, totalCacheSize: nat)
    requires Fresh(candidates) && OnDisk(cached)
    requires PassResult(candidates, existing, cached, locked, failing, limit, actions, totalCacheSize)
    ensures Bytes(Cached, cached, locked) == totalCacheSize + ActionBytes(actions, Removed)
  {
    var files := Ordered(candidates, existing, cached, limit);
    var n := Cut(files, 0, limit, locked);
    PassBytes(candidates, existing, cached, locked, failing, limit, actions, totalCacheSize, files, n);
    LeftSums(files, n, locked);
  }

  /** If the cache and its downloads do not end below a positive limit, nothing was downloaded and
      only files whose removal was skipped are left. */
  lemma OverrunIsSkippedFiles(candidates: seq<Item>, existing: set<string>, cached: seq<Item>, locked: set<string>,
    failing: set<string>, limit: int, actions: seq<Action>, totalCacheSize: nat)
    requires Fresh(candidates) && OnDisk(cached) && limit > 0
    requires PassResult(candidates, existing, cached, locked, failing, limit, actions, totalCacheSize)
    requires totalCacheSize + ActionBytes(actions, Added) >= limit
    ensures ActionBytes(actions, Added) == 0
    ensures totalCacheSize == Bytes(Stuck, cached, locked)
  {
    var files := Ordered(candidates, existing, cached, limit);
    var n := Cut(files, 0, limit, locked);
    PassBytes(candidates, existing, cached, locked, failing, limit, actions, totalCacheSize, files, n);
    CutIsFirst(files, 0, limit, locked);
    assert n == |files| && files[..n] == files && files[n..] == [];
    MarkedStuck(candidates, existing, limit, locked);
    BytesAppend(Stuck, Marked(candidates, existing, limit), cached, locked);
    SortBytes(Stuck, Marked(candidates, existing, limit) + cached, locked);
  }

  lemma MarkedStuck(candidates: seq<Item>, existing: set<string>, limit: int, locked: set<string>)
    requires Fresh(candidates)
    ensures Bytes(Stuck, Marked(candidates, existing, limit), locked) == 0
  {
    MarkedKinds(candidates, existing, limit, locked);
    BytesPartition(Marked(candidates, existing, limit), locked);
  }

  lemma {:induction false} NoLocksNoneStuck(files: seq<Item>)
    ensures Bytes(Stuck, files, {}) == 0
  {
    if files != [] {
      NoLocksNoneStuck(files[..|files| - 1]);
    }
  }

  /** With a positive limit and no lock failure the count, downloads included, ends below the limit. */
  lemma BudgetHolds(candidates: seq<Item>, existing: set<string>, cached: seq<Item>, failing: set<string>,
                    limit: int, actions: seq<Action>, totalCacheSize: nat)
    requires Fresh(candidates) && OnDisk(cached) && limit > 0
    requires PassResult(candidates, existing, cached, {}, failing, limit, actions, totalCacheSize)
    ensures totalCacheSize + ActionBytes(actions, Added) < limit
  {
    if totalCacheSize + ActionBytes(actions, Added) >= limit {
      OverrunIsSkippedFiles(candidates, existing, cached, {}, failing, limit, actions, totalCacheSize);
      NoLocksNoneStuck(cached);
      assert false;
    }
  }

  /** Strictly increasing positions of a sequence of length `n`. */
  predicate Positions(idx: seq<nat>, n: nat) {
    (forall i :: 0 <= i < |idx| ==> idx[i] < n) && forall i, j :: 0 <= i < j < |idx| ==> idx[i] < idx[j]
  }

  /** `actions` are the reports of single items, in order: the i-th is the one of the item at the i-th
      of the positions `idx`, and no other item has one. */
  ghost predicate InOrder(rs: seq<seq<Action>>, actions: seq<Action>, idx: seq<nat>) {
    && Positions(idx, |rs|) && |idx| == |actions|
    && (forall i :: 0 <= i < |idx| ==> rs[idx[i]] == [actions[i]])
    && (forall j :: 0 <= j < |rs| && rs[j] != [] ==> j in idx)
  }

  lemma InOrderSkips(rs: seq<seq<Action>>, actions: seq<Action>, idx: seq<nat>)
    requires InOrder(rs, actions, idx)
    ensures InOrder(rs + [[]], actions, idx)
  {
  }

  lemma InOrderGrows(rs: seq<seq<Action>>, actions: seq<Action>, idx: seq<nat>, a: Action)
    requires InOrder(rs, actions, idx)
    ensures InOrder(rs + [[a]], actions + [a], idx + [|rs|])
  {
    var rs', idx' := rs + [[a]], idx + [|rs|];
    assert idx'[|idx|] == |rs|;
    assert forall i :: 0 <= i < |idx| ==> idx'[i] == idx[i] && rs'[idx[i]] == rs[idx[i]];
    forall j | 0 <= j < |rs'| && rs'[j] != []
      ensures j in idx'
    {
      if j < |rs| {
        assert j in idx;
      }
    }
  }

  function EvictionReport(files: seq<Item>, locked: set<string>): seq<seq<Action>> {
    if files == [] then [] else EvictionReport(files[..|files| - 1], locked) + [ActionFor(files[|files| - 1], locked)]
  }

  function DownloadReport(files: seq<Item>, failing: set<string>): seq<seq<Action>> {
    if files == [] then []
    else DownloadReport(files[..|files| - 1], failing) + [DownloadFor(files[|files| - 1], failing)]
  }

  /** Eviction reports once, in order, on exactly the items it acts on. */
  lemma {:induction false} EvictionReports(files: seq<Item>, locked: set<string>) returns (idx: seq<nat>)
    ensures InOrder(EvictionReport(files, locked), EvictionActions(files, locked), idx)
  {
    idx := [];
    if files != [] {
      var init, r := files[..|files| - 1], ActionFor(files[|files| - 1], locked);
      idx := EvictionReports(init, locked);
      if r == [] {
        InOrderSkips(EvictionReport(init, locked), EvictionActions(init, locked), idx);
        assert EvictionActions(files, locked) == EvictionActions(init, locked);
      } else {
        InOrderGrows(EvictionReport(init, locked), EvictionActions(init, locked), idx, r[0]);
        idx := idx + [|EvictionReport(init, locked)|];
      }
    }
  }

  /** Eviction is exact: `n` oldest items are passed over, no shorter prefix would do, and nothing left
      is older than anything evicted. */
  lemma ExactLru(files: seq<Item>, all: seq<Item>, limit: int, n: nat, locked: set<string>)
    requires files == SortByAge(all) && n == Cut(files, 0, limit, locked)
    ensures multiset(files) == multiset(all)
    ensures forall m :: 0 <= m < n ==> !Fits(Left(files, m, locked), limit)
    ensures n < |files| ==> Fits(Left(files, n, locked), limit)
    ensures forall i, j :: 0 <= i < n <= j < |files| ==> !Older(files[j], files[i])
  {
    SortIsSorted(all);
    CutIsFirst(files, 0, limit, locked);
  }

  /** A candidate is marked for download exactly if it fits below the limit and has no file yet;
      nothing else about it changes. */
  lemma {:induction false} MarkedExactly(candidates: seq<Item>, existing: set<string>, limit: int, i: nat)
    requires Fresh(candidates) && i < |candidates|
    ensures var r, c := Marked(candidates, existing, limit)[i], candidates[i];
      r == c.(needsDownload := r.needsDownload) && (r.needsDownload <==> c.size < limit && c.path !in existing)
    decreases |candidates|
  {
    if i < |candidates| - 1 {
      MarkedExactly(candidates[..|candidates| - 1], existing, limit, i);
    }
  }

  /** Every item still marked after eviction is attempted once, in order, and nothing else is. */
  lemma {:induction false} DownloadReports(files: seq<Item>, failing: set<string>) returns (idx: seq<nat>)
    ensures InOrder(DownloadReport(files, failing), DownloadActions(files, failing), idx)
  {
    idx := [];
    if files != [] {
      var init, r := files[..|files| - 1], DownloadFor(files[|files| - 1], failing);
      idx := DownloadReports(init, failing);
      if r == [] {
        InOrderSkips(DownloadReport(init, failing), DownloadActions(init, failing), idx);
        assert DownloadActions(files, failing) == DownloadActions(init, failing);
      } else {
        InOrderGrows(DownloadReport(init, failing), DownloadActions(init, failing), idx, r[0]);
        idx := idx + [|DownloadReport(init, failing)|];
      }
    }
  }

  /** A negative limit evicts nothing: it is compared as a very large number. */
  lemma NegativeLimitEvictsNothing(files: seq<Item>, limit: int, locked: set<string>)
    requires -0x8000_0000_0000_0000 <= limit < 0
    requires Bytes(Cached, files, locked) + Bytes(Pending, files, locked) < 0x8000_0000_0000_0000
    ensures Cut(files, 0, limit, locked) == 0
  {
    assert files[..0] == [] && files[0..] == files;
  }
}
