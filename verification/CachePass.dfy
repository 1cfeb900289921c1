/** A cache management pass as it changes the directory: listing, eviction and downloads. */
module CachePass {

  import opened Basics
  import opened CacheBound
  import opened CacheDirectory
  import opened CacheEviction
  import opened CacheListing
  import opened CachePaths

  // ----- the listing -----

  /** The paths that the glob returns: every file once. */
  predicate Globbed(paths: seq<string>, disk: Disk) {
    && (forall i, j :: 0 <= i < j < |paths| ==> paths[i] != paths[j])
    && (forall p :: p in paths ==> p in disk)
    && (forall p :: p in disk ==> p in paths)
  }

  function SweptPaths(paths: seq<string>, locked: set<string>): set<string> {
    set i | 0 <= i < |paths| && IsStaging(paths[i]) && FinalPath(paths[i]) !in locked :: paths[i]
  }

  function ItemFor(p: string, size: nat, time: int): seq<Item> {
    if IsListed(p) then [Item(p, size, time, false, false)] else []
  }

  function ListedItems(paths: seq<string>, disk: Disk, times: string -> int): seq<Item>
    requires forall p :: p in paths ==> p in disk
  {
    if paths == [] then []
    else
      var p := paths[|paths| - 1];
      ListedItems(paths[..|paths| - 1], disk, times) + ItemFor(p, disk[p], times(p))
  }

  /** An unfinished download that another session is working on is reported, with size 0. */
  function ReportFor(p: string, locked: set<string>): seq<Action> {
    if IsStaging(p) && FinalPath(p) in locked then [Action(FinalPath(p), 0, Concurrent)] else []
  }

  function StagingReports(paths: seq<string>, locked: set<string>): seq<Action> {
    if paths == [] then []
    else StagingReports(paths[..|paths| - 1], locked) + ReportFor(paths[|paths| - 1], locked)
  }

  lemma SweptEnd(paths: seq<string>, n: nat, locked: set<string>)
    requires n < |paths|
    ensures paths[..n + 1][..n] == paths[..n] && paths[..n + 1][n] == paths[n]
    ensures SweptPaths(paths[..n + 1], locked) == SweptPaths(paths[..n], locked) +
      if IsStaging(paths[n]) && FinalPath(paths[n]) !in locked then {paths[n]} else {}
  {
    var a, b := paths[..n + 1], paths[..n];
    forall p | p in SweptPaths(b, locked)
      ensures p in SweptPaths(a, locked)
    {
      var i :| 0 <= i < |b| && IsStaging(b[i]) && FinalPath(b[i]) !in locked && b[i] == p;
      assert a[i] == p;
    }
    forall p | p in SweptPaths(a, locked)
      ensures p in SweptPaths(b, locked) || p == paths[n]
    {
      var i :| 0 <= i < |a| && IsStaging(a[i]) && FinalPath(a[i]) !in locked && a[i] == p;
      if i < n {
        assert b[i] == p;
      }
    }
    assert IsStaging(a[n]) && FinalPath(a[n]) !in locked ==> a[n] in SweptPaths(a, locked);
  }

  lemma NotYetSwept(paths: seq<string>, n: nat, locked: set<string>)
    requires n < |paths| && forall i, j :: 0 <= i < j < |paths| ==> paths[i] != paths[j]
    ensures paths[n] !in SweptPaths(paths[..n], locked)
  {
  }

  lemma AllSwept(paths: seq<string>, disk: Disk, locked: set<string>)
    requires Globbed(paths, disk)
    ensures disk - SweptPaths(paths, locked) == Scanned(disk, locked)
  {
    forall p | p in disk
      ensures p in SweptPaths(paths, locked) <==> IsStaging(p) && FinalPath(p) !in locked
    {
      assert p in paths;
      var i :| 0 <= i < |paths| && paths[i] == p;
    }
  }

  /** Each item is one of the paths, each listed path has an item, and no path has two. */
  lemma {:induction false} ItemsOfPaths(paths: seq<string>, disk: Disk, times: string -> int)
    requires forall p :: p in paths ==> p in disk
    requires forall i, j :: 0 <= i < j < |paths| ==> paths[i] != paths[j]
    ensures var r := ListedItems(paths, disk, times);
      && OnDisk(r) && Stored(r, disk)
      && (forall i :: 0 <= i < |r| ==> r[i].path in paths && IsListed(r[i].path))
      && (forall p :: p in paths && IsListed(p) ==> HasItem(r, p))
  {
    if paths != [] {
      var init, p := paths[..|paths| - 1], paths[|paths| - 1];
      assert forall i :: 0 <= i < |init| ==> init[i] == paths[i];
      ItemsOfPaths(init, disk, times);
      OneMoreItem(ListedItems(init, disk, times), init, p, disk, times);
    }
  }

  lemma OneMoreItem(r: seq<Item>, init: seq<string>, p: string, disk: Disk, times: string -> int)
    requires p in disk && p !in init && OnDisk(r) && Stored(r, disk)
    requires forall i :: 0 <= i < |r| ==> r[i].path in init && IsListed(r[i].path)
    requires forall q :: q in init && IsListed(q) ==> HasItem(r, q)
    ensures var r' := r + ItemFor(p, disk[p], times(p));
      && OnDisk(r') && Stored(r', disk)
      && (forall i :: 0 <= i < |r'| ==> r'[i].path in init + [p] && IsListed(r'[i].path))
      && (forall q :: q in init + [p] && IsListed(q) ==> HasItem(r', q))
  {
    var r' := r + ItemFor(p, disk[p], times(p));
    assert forall i :: 0 <= i < |r| ==> r'[i] == r[i];
    forall q | q in init + [p] && IsListed(q)
      ensures HasItem(r', q)
    {
      if q in init {
        assert HasItem(r, q);
        var i :| 0 <= i < |r| && !r[i].isCandidate && r[i].path == q;
        assert r'[i].path == q;
      } else {
        assert r'[|r|].path == q;
      }
    }
  }

  /** The items of the listing are exactly the listed files of the directory that is left. */
  lemma ListingLists(paths: seq<string>, disk: Disk, times: string -> int, locked: set<string>)
    requires Globbed(paths, disk)
    ensures Lists(ListedItems(paths, disk, times), Scanned(disk, locked)) && OnDisk(ListedItems(paths, disk, times))
  {
    ItemsOfPaths(paths, disk, times);
  }

  /** The listing has gone through the first `i` paths. */
  ghost predicate ListedTo(cacheDir: string, was: Disk, paths: seq<string>, times: string -> int, locked: set<string>,
    i: nat, disk: Disk, items: seq<Item>, total: nat, reports: seq<Action>)
    requires i <= |paths| && Globbed(paths, was)
  {
    && disk == was - SweptPaths(paths[..i], locked)
    && (forall k :: 0 <= k < i ==> !NoUrl(cacheDir, paths[k], locked))
    && items == ListedItems(paths[..i], was, times) && total == Bytes(Cached, items, locked)
    && reports == StagingReports(paths[..i], locked)
  }

  lemma ListedNone(cacheDir: string, was: Disk, paths: seq<string>, times: string -> int, locked: set<string>)
    requires Globbed(paths, was)
    ensures ListedTo(cacheDir, was, paths, times, locked, 0, was, [], 0, [])
  {
    assert was - SweptPaths(paths[..0], locked) == was;
  }

  lemma StillThere(cacheDir: string, was: Disk, paths: seq<string>, times: string -> int, locked: set<string>,
    i: nat, disk: Disk, items: seq<Item>, total: nat, reports: seq<Action>)
    requires Globbed(paths, was) && i < |paths|
    requires ListedTo(cacheDir, was, paths, times, locked, i, disk, items, total, reports)
    ensures paths[i] in disk && paths[i] in was && disk[paths[i]] == was[paths[i]]
  {
    NotYetSwept(paths, i, locked);
  }

  lemma ListedOne(cacheDir: string, was: Disk, paths: seq<string>, times: string -> int, locked: set<string>,
    i: nat, disk: Disk, items: seq<Item>, total: nat, reports: seq<Action>, disk': Disk)
    requires Globbed(paths, was) && i < |paths| && !NoUrl(cacheDir, paths[i], locked) && paths[i] in was
    requires ListedTo(cacheDir, was, paths, times, locked, i, disk, items, total, reports)
    requires disk' == if IsStaging(paths[i]) && FinalPath(paths[i]) !in locked then disk - {paths[i]} else disk
    ensures var item := ItemFor(paths[i], was[paths[i]], times(paths[i]));
      ListedTo(cacheDir, was, paths, times, locked, i + 1, disk', items + item,
        total + (if item == [] then 0 else item[0].size), reports + ReportFor(paths[i], locked))
  {
    SweptEnd(paths, i, locked);
    OneItemBytes(items, ItemFor(paths[i], was[paths[i]], times(paths[i])), locked);
  }

  lemma OneItemBytes(items: seq<Item>, item: seq<Item>, locked: set<string>)
    requires item == [] || (|item| == 1 && !item[0].isCandidate)
    ensures Bytes(Cached, items + item, locked) ==
      Bytes(Cached, items, locked) + if item == [] then 0 else item[0].size
  {
    BytesAppend(Cached, items, item, locked);
    if item != [] {
      assert item == [item[0]];
      OneBytes(Cached, item[0], locked);
    }
  }

  lemma ListedAll(cacheDir: string, was: Disk, paths: seq<string>, times: string -> int, locked: set<string>,
    disk: Disk, items: seq<Item>, total: nat, reports: seq<Action>)
    requires Globbed(paths, was)
    requires ListedTo(cacheDir, was, paths, times, locked, |paths|, disk, items, total, reports)
    ensures !ListingThrows(cacheDir, was, locked) && disk == Scanned(was, locked)
    ensures items == ListedItems(paths, was, times) && total == Bytes(Cached, items, locked)
    ensures reports == StagingReports(paths, locked) && Lists(items, disk) && OnDisk(items)
  {
    assert paths[..|paths|] == paths;
    AllSwept(paths, was, locked);
    ListingLists(paths, was, times, locked);
  }

  // ----- the listing among the candidates, in order of age -----

  lemma Without(s: seq<Item>, i: nat)
    requires i < |s|
    ensures multiset(s) == multiset{s[i]} + multiset(s[..i] + s[i + 1..])
  {
    assert s == s[..i] + ([s[i]] + s[i + 1..]);
  }

  lemma TwoPlacesCountTwice(s: seq<Item>, i: nat, j: nat)
    requires i < j < |s| && s[i] == s[j]
    ensures multiset(s)[s[i]] >= 2
  {
    Without(s, i);
    assert (s[..i] + s[i + 1..])[j - 1] == s[j];
  }

  lemma CountedTwiceTwoPlaces(s: seq<Item>, f: Item) returns (i: nat, j: nat)
    requires multiset(s)[f] >= 2
    ensures i < |s| && j < |s| && i != j && s[i] == f == s[j]
  {
    assert f in multiset(s);
    i :| 0 <= i < |s| && s[i] == f;
    Without(s, i);
    var rest := s[..i] + s[i + 1..];
    assert f in multiset(rest);
    var k :| 0 <= k < |rest| && rest[k] == f;
    j := if k < i then k else k + 1;
  }

  lemma DistinctRearranged(a: seq<Item>, b: seq<Item>)
    requires Distinct(a) && multiset(a) == multiset(b)
    ensures Distinct(b)
  {
    forall i, j | 0 <= i < j < |b| && !b[i].isCandidate && !b[j].isCandidate
      ensures b[i].path != b[j].path
    {
      var x, y: nat;
      if b[i] == b[j] {
        TwoPlacesCountTwice(b, i, j);
        x, y := CountedTwiceTwoPlaces(a, b[i]);
      } else {
        assert b[i] in multiset(b) && b[j] in multiset(b);
        x :| 0 <= x < |a| && a[x] == b[i];
        y :| 0 <= y < |a| && a[y] == b[j];
      }
      assert a[x].path != a[y].path;
    }
  }

  lemma ListsRearranged(a: seq<Item>, b: seq<Item>, disk: Disk)
    requires Lists(a, disk) && multiset(a) == multiset(b)
    ensures Lists(b, disk)
  {
    DistinctRearranged(a, b);
    forall i | 0 <= i < |b|
      ensures b[i] in a
    {
      assert b[i] in multiset(b);
    }
    forall p | p in disk && IsListed(p)
      ensures HasItem(b, p)
    {
      assert HasItem(a, p);
      var i :| 0 <= i < |a| && !a[i].isCandidate && a[i].path == p;
      assert a[i] in multiset(b);
      var k :| 0 <= k < |b| && b[k] == a[i];
    }
  }

  lemma CandidatesFirst(marked: seq<Item>, items: seq<Item>, disk: Disk)
    requires Lists(items, disk) && forall i :: 0 <= i < |marked| ==> marked[i].isCandidate
    ensures Lists(marked + items, disk)
  {
    var all := marked + items;
    forall p | p in disk && IsListed(p)
      ensures HasItem(all, p)
    {
      assert HasItem(items, p);
      var i :| 0 <= i < |items| && !items[i].isCandidate && items[i].path == p;
      assert all[|marked| + i].path == p;
    }
  }

  lemma {:induction false} MarkedAreCandidates(candidates: seq<Item>, existing: set<string>, limit: int)
    requires Fresh(candidates)
    ensures forall i :: 0 <= i < |candidates| ==> Marked(candidates, existing, limit)[i].isCandidate
  {
    forall i | 0 <= i < |candidates|
      ensures Marked(candidates, existing, limit)[i].isCandidate
    {
      MarkedExactly(candidates, existing, limit, i);
    }
  }

  /** The items of a pass, in order, list the directory. */
  lemma OrderedLists(candidates: seq<Item>, existing: set<string>, items: seq<Item>, limit: int, disk: Disk)
    requires Fresh(candidates) && Lists(items, disk)
    ensures Lists(Ordered(candidates, existing, items, limit), disk)
  {
    var marked := Marked(candidates, existing, limit);
    MarkedAreCandidates(candidates, existing, limit);
    CandidatesFirst(marked, items, disk);
    SortIsSorted(marked + items);
    ListsRearranged(marked + items, SortByAge(marked + items), disk);
  }

  lemma OrderedBytes(candidates: seq<Item>, existing: set<string>, items: seq<Item>, limit: int, locked: set<string>)
    requires Fresh(candidates) && OnDisk(items)
    ensures var files := Ordered(candidates, existing, items, limit);
      && Bytes(Cached, files, locked) == Bytes(Cached, items, locked)
      && Bytes(Pending, files, locked) == Bytes(Pending, Marked(candidates, existing, limit), locked)
  {
    var marked := Marked(candidates, existing, limit);
    MarkedKinds(candidates, existing, limit, locked);
    OnDiskKinds(items, locked);
    BytesAppend(Cached, marked, items, locked);
    BytesAppend(Pending, marked, items, locked);
    SortBytes(Cached, marked + items, locked);
    SortBytes(Pending, marked + items, locked);
  }

  // ----- the pass -----

  datatype Outcome = Threw | Skipped | Counted

  /** A removal that throws ends every longer pass. */
  lemma {:induction false} SweepStops(target: Target, disk: Disk, files: seq<Item>, n: nat, m: nat, locked: set<string>)
    requires n < m <= |files| && Sweep(target, disk, files[..n + 1], locked).None?
    ensures Sweep(target, disk, files[..m], locked).None?
    decreases m
  {
    if n + 1 < m {
      SweepStops(target, disk, files, n, m - 1, locked);
      assert files[..m][..m - 1] == files[..m - 1];
    }
  }

  /** The sums and reports of the loop at position `n`. */
  predicate InSums(files: seq<Item>, n: nat, limit: int, locked: set<string>, left: nat, reports: seq<Action>) {
    && n <= |files| && left == Left(files, n, locked)
    && Cut(files, n, limit, locked) == Cut(files, 0, limit, locked)
    && reports == EvictionActions(files[..n], locked)
  }

  lemma SumsStart(files: seq<Item>, limit: int, locked: set<string>)
    ensures InSums(files, 0, limit, locked, Bytes(Cached, files, locked) + Bytes(Pending, files, locked), [])
  {
    assert files[..0] == [] && files[0..] == files;
  }

  lemma SumsStep(files: seq<Item>, n: nat, limit: int, locked: set<string>, left: nat, reports: seq<Action>)
    requires n < |files| && InSums(files, n, limit, locked, left, reports) && !Fits(left, limit)
    ensures var left' := left - Weight(Removable, files[n], locked) - Weight(Pending, files[n], locked);
      left' >= 0 && InSums(files, n + 1, limit, locked, left', reports + ActionFor(files[n], locked))
  {
    PrefixGrows(files, n, locked);
  }

  lemma SumsEnd(files: seq<Item>, n: nat, limit: int, locked: set<string>, left: nat, reports: seq<Action>)
    requires InSums(files, n, limit, locked, left, reports) && (n == |files| || Fits(left, limit))
    ensures n == Cut(files, 0, limit, locked)
  {
  }

  lemma SweepNext(target: Target, was: Disk, files: seq<Item>, n: nat, disk: Disk, locked: set<string>)
    requires n < |files| && Sweep(target, was, files[..n], locked) == Some(disk)
    ensures Sweep(target, was, files[..n + 1], locked) == RemoveOne(target, disk, files[n], locked)
  {
    assert files[..n + 1][..n] == files[..n] && files[..n + 1][n] == files[n];
  }

  lemma HitsSweep(target: Target, was: Disk, files: seq<Item>, n: nat, locked: set<string>)
    requires n <= |files|
    ensures AllHit(target, files) ==>
      Sweep(target, was, files[..n], locked) == Some(was - RemovedPaths(files[..n], locked))
  {
    if AllHit(target, files) {
      assert AllHit(target, files[..n]);
      SweepHits(target, was, files[..n], locked);
    }
  }

  function FailingPaths(items: seq<Item>, ends: Downloads): set<string> {
    set i | 0 <= i < |items| && !ends(items[i].path).Finished? :: items[i].path
  }

  class CacheFolder {

    const cacheDir: string
    const target: Target
    var disk: Disk

    constructor (cacheDir: string, disk: Disk)
      ensures Valid() && this.cacheDir == cacheDir && this.disk == disk
    {
      this.cacheDir, this.target, this.disk := cacheDir, ByUrl(cacheDir), disk;
    }

    ghost predicate Valid() {
      target == ByUrl(cacheDir)
    }

    /** One path of the glob. */
    method ListOne(p: string, time: int, locked: set<string>)
      returns (ok: bool, item: seq<Item>, report: seq<Action>)
      requires p in disk
      modifies this`disk
      ensures ok <==> !NoUrl(cacheDir, p, locked)
      ensures disk == if IsStaging(p) && FinalPath(p) !in locked then old(disk) - {p} else old(disk)
      ensures ok ==> item == ItemFor(p, old(disk)[p], time) && report == ReportFor(p, locked)
    {
      ok, item, report := true, [], [];
      if IsStaging(p) {
        if FinalPath(p) !in locked {
          disk := disk - {p};
        } else if GetURLForCacheFilePath(cacheDir, FinalPath(p)).NotACachePath? {
          ok := false;
        } else {
          report := [Action(FinalPath(p), 0, Concurrent)];
        }
      } else if IsFinalizedCachePath(p) {
        if GetURLForCacheFilePath(cacheDir, p).NotACachePath? {
          ok := false;
        } else {
          item := [Item(p, disk[p], time, false, false)];
        }
      }
    }

    /** Goes through the glob: removes unfinished downloads and lists the files named like cache files.
        It throws exactly if one of the files it asks for a URL has none. */
    method ListCache(paths: seq<string>, times: string -> int, locked: set<string>)
      returns (ok: bool, items: seq<Item>, total: nat, reports: seq<Action>)
      requires Globbed(paths, disk)
      modifies this`disk
      ensures ok <==> !ListingThrows(cacheDir, old(disk), locked)
      ensures ok ==> disk == Scanned(old(disk), locked) && Lists(items, disk) && OnDisk(items)
      ensures ok ==> items == ListedItems(paths, old(disk), times) && total == Bytes(Cached, items, locked)
      ensures ok ==> reports == StagingReports(paths, locked)
      ensures !ok ==> exists k :: 0 <= k < |paths| && NoUrl(cacheDir, paths[k], locked)
                                  && disk == old(disk) - SweptPaths(paths[..k], locked)
    {
      ok, items, total, reports := true, [], 0, [];
      ghost var was := disk;
      ListedNone(cacheDir, was, paths, times, locked);
      for i := 0 to |paths|
        invariant ok && ListedTo(cacheDir, was, paths, times, locked, i, disk, items, total, reports)
      {
        StillThere(cacheDir, was, paths, times, locked, i, disk, items, total, reports);
        ghost var before := disk;
        var item, report;
        ok, item, report := ListOne(paths[i], times(paths[i]), locked);
        if !ok {
          assert NoUrl(cacheDir, paths[i], locked);
          return;
        }
        ListedOne(cacheDir, was, paths, times, locked, i, before, items, total, reports, disk);
        total := total + if item == [] then 0 else item[0].size;
        items, reports := items + item, reports + report;
      }
      ListedAll(cacheDir, was, paths, times, locked, disk, items, total, reports);
    }

    /** Removal of one listed file. It counts as removed unless the lock was not taken, whether or not
        a file was found. */
    method RemoveListed(f: Item, locked: set<string>) returns (r: Outcome)
      requires !f.isCandidate
      modifies this`disk
      ensures r.Threw? <==> target(f.path).Throws?
      ensures r.Threw? ==> disk == old(disk)
      ensures !r.Threw? ==> RemoveOne(target, old(disk), f, locked) == Some(disk)
      ensures Hits(target, f.path) ==> r == if f.path in locked then Skipped else Counted
      ensures locked == {} ==> !r.Skipped?
    {
      match target(f.path)
      case Throws => r := Threw;
      case Removes(p) =>
        if p in locked {
          r := Skipped;
        } else {
          disk := disk - {p};
          r := Counted;
        }
    }

    /** One round of the loop: a listed file is removed, a pending candidate dropped. */
    method EvictItem(f: Item, total: nat, queue: nat, locked: set<string>)
      returns (ok: bool, total': nat, queue': nat, reports: seq<Action>)
      requires total >= Weight(Cached, f, locked) && queue >= Weight(Pending, f, locked)
      modifies this`disk
      ensures ok ==> RemoveOne(target, old(disk), f, locked) == Some(disk)
      ensures !ok ==> !f.isCandidate && target(f.path) == Throws && disk == old(disk)
      ensures total' + Weight(Cached, f, locked) >= total && queue' == queue - Weight(Pending, f, locked)
      ensures f.isCandidate || Hits(target, f.path) ==> ok
      ensures ok && (f.isCandidate || Hits(target, f.path) || locked == {}) ==>
        total' == total - Weight(Removable, f, locked) && reports == ActionFor(f, locked)
    {
      ok, total', queue', reports := true, total, queue, [];
      if !f.isCandidate {
        var r := RemoveListed(f, locked);
        if r.Threw? {
          ok := false;
        } else if r.Counted? {
          total', reports := total - f.size, [Action(f.path, f.size, Removed)];
        } else {
          reports := [Action(f.path, f.size, Concurrent)];
        }
      } else if f.needsDownload {
        queue', reports := queue - f.size, [Action(f.path, f.size, TooOld)];
      }
    }

    /** The eviction loop with its removals. A removal that throws ends the pass. If no lock is held, or
        every URL leads back, the loop stops where it should and reports what it counts; in the second
        case the directory is what its counters say. */
    method EvictOldest(files: seq<Item>, total: nat, queue: nat, limit: int, locked: set<string>)
      returns (ok: bool, n: nat, totalCacheSize: nat, queueSize: nat, reports: seq<Action>)
      requires total == Bytes(Cached, files, locked) && queue == Bytes(Pending, files, locked)
      modifies this`disk
      ensures n <= |files|
      ensures Sweep(target, old(disk), files[..n], locked) == Some(disk)
      ensures !ok ==> n < |files| && !files[n].isCandidate && target(files[n].path) == Throws
      ensures AllHit(target, files) ==> ok && disk == old(disk) - RemovedPaths(files[..n], locked)
      ensures ok && (AllHit(target, files) || locked == {}) ==>
        && n == Cut(files, 0, limit, locked) && totalCacheSize + queueSize == Left(files, n, locked)
        && reports == EvictionActions(files[..n], locked)
      ensures !ok && locked == {} ==> n < Cut(files, 0, limit, locked)
    {
      ok, n, totalCacheSize, queueSize, reports := true, 0, total, queue, [];
      assert files[..0] == [] && files[0..] == files;
      SumsStart(files, limit, locked);
      ghost var exact := AllHit(target, files) || locked == {};
      while n < |files| && !Fits(totalCacheSize + queueSize, limit)
        invariant 0 <= n <= |files| && ok
        invariant Sweep(target, old(disk), files[..n], locked) == Some(disk)
        invariant totalCacheSize >= Bytes(Cached, files[n..], locked) && queueSize == Bytes(Pending, files[n..], locked)
        invariant exact ==> InSums(files, n, limit, locked, totalCacheSize + queueSize, reports)
      {
        PrefixGrows(files, n, locked);
        SweepNext(target, old(disk), files, n, disk, locked);
        if exact {
          SumsStep(files, n, limit, locked, totalCacheSize + queueSize, reports);
        }
        var more;
        ok, totalCacheSize, queueSize, more := EvictItem(files[n], totalCacheSize, queueSize, locked);
        if !ok {
          return;
        }
        reports := reports + more;
        n := n + 1;
      }
      if exact {
        SumsEnd(files, n, limit, locked, totalCacheSize + queueSize, reports);
      }
      HitsSweep(target, old(disk), files, n, locked);
    }

    method DownloadRest(items: seq<Item>, ends: Downloads) returns (reports: seq<Action>)
      modifies this`disk
      ensures disk == DownloadAll(old(disk), items, ends)
      ensures reports == DownloadActions(items, FailingPaths(items, ends))
    {
      reports := Download(items, FailingPaths(items, ends));
      for i := 0 to |items|
        invariant disk == DownloadAll(old(disk), items[..i], ends)
      {
        assert items[..i + 1][..i] == items[..i];
        disk := DownloadOne(disk, items[i], ends);
      }
      assert items[..|items|] == items;
    }

    /** The whole pass. With no lock held it is `Pass`, over the listed files and the candidates. */
    method ManageCache(paths: seq<string>, times: string -> int, candidates: seq<Item>, limit: int, ends: Downloads,
      locked: set<string>)
      returns (ok: bool, actions: seq<Action>, ghost files: seq<Item>)
      requires Valid() && Globbed(paths, disk) && Fresh(candidates)
      modifies this`disk
      ensures files == Ordered(candidates, old(disk).Keys, ListedItems(paths, old(disk), times), limit)
      ensures Lists(files, Scanned(old(disk), locked))
      ensures locked == {} ==>
        Pass(cacheDir, old(disk), files, limit, ends) == if ok then Some(disk) else None
      ensures ok && (locked == {} || AllHit(target, files)) ==>
        var n := Cut(files, 0, limit, locked);
        actions == TooLargeActions(candidates, limit) + StagingReports(paths, locked)
                   + EvictionActions(files[..n], locked) + DownloadActions(files[n..], FailingPaths(files[n..], ends))
    {
      ghost var before := disk;
      var marked, queueSize, large := MarkCandidates(candidates, disk.Keys, limit, locked);
      ListingLists(paths, disk, times, locked);
      files := Ordered(candidates, disk.Keys, ListedItems(paths, disk, times), limit);
      OrderedLists(candidates, disk.Keys, ListedItems(paths, disk, times), limit, Scanned(disk, locked));
      OrderedBytes(candidates, disk.Keys, ListedItems(paths, disk, times), limit, locked);
      var items, total, staged;
      ok, items, total, staged := ListCache(paths, times, locked);
      if !ok {
        return false, [], files;
      }
      var sorted := SortByAge(marked + items);
      var n, left, queue, evicted;
      ok, n, left, queue, evicted := EvictOldest(sorted, total, queueSize, limit, locked);
      if !ok {
        SweepStopped(target, Scanned(before, locked), sorted, n, locked);
        if locked == {} {
          SweepStops(target, Scanned(before, locked), sorted, n, Cut(sorted, 0, limit, locked), locked);
        }
        return false, [], files;
      }
      var downloads := DownloadRest(sorted[n..], ends);
      actions := large + staged + evicted + downloads;
    }
  }

  lemma SweepStopped(target: Target, disk: Disk, files: seq<Item>, n: nat, locked: set<string>)
    requires n < |files| && !files[n].isCandidate && target(files[n].path) == Throws
    ensures Sweep(target, disk, files[..n + 1], locked).None?
  {
    assert files[..n + 1][..n] == files[..n] && files[..n + 1][n] == files[n];
  }
}
