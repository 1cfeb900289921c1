/** The cache directory under a pass. The pass removes unfinished downloads, lists the files that are
    named like cache files, counts them and removes them by URL. The directory agrees with what is
    counted and reported exactly if every such URL leads back to the listed path; files that are not
    listed come on top. `target` says which file the removal of a listed path deletes. */
module CacheDirectory {

  import opened Basics
  import opened CacheEviction
  import opened CacheListing
  import opened CachePaths

  /** File sizes by path. */
  type Disk = map<string, nat>

  type Target = string -> Removal

  predicate Hits(target: Target, path: string) {
    target(path) == Removes(path)
  }

  // ----- bytes on disk -----

  ghost function DiskBytes(disk: Disk): nat
    decreases |disk|
  {
    if disk == map[] then 0
    else
      var p :| p in disk;
      assert |disk - {p}| < |disk|;
      disk[p] + DiskBytes(disk - {p})
  }

  lemma {:induction false} DiskBytesWithout(disk: Disk, p: string)
    requires p in disk
    ensures DiskBytes(disk) == disk[p] + DiskBytes(disk - {p})
    decreases |disk|
  {
    var q :| q in disk && DiskBytes(disk) == disk[q] + DiskBytes(disk - {q});
    if q != p {
      assert |disk - {q}| < |disk| && |disk - {p}| < |disk|;
      DiskBytesWithout(disk - {q}, p);
      DiskBytesWithout(disk - {p}, q);
      assert disk - {q} - {p} == disk - {p} - {q};
    }
  }

  // ----- what a pass does to the directory -----

  predicate Distinct(files: seq<Item>) {
    forall i, j :: 0 <= i < j < |files| && !files[i].isCandidate && !files[j].isCandidate ==>
      files[i].path != files[j].path
  }

  /** The cached items are files of the directory, each listed once. */
  predicate Stored(files: seq<Item>, disk: Disk) {
    && Distinct(files)
    && forall i :: 0 <= i < |files| && !files[i].isCandidate ==>
      files[i].path in disk && disk[files[i].path] == files[i].size
  }

  predicate HasItem(files: seq<Item>, p: string) {
    exists i :: 0 <= i < |files| && !files[i].isCandidate && files[i].path == p
  }

  /** The cached items are exactly the files of the directory that a pass lists. */
  predicate Lists(files: seq<Item>, disk: Disk) {
    && Stored(files, disk)
    && (forall i :: 0 <= i < |files| && !files[i].isCandidate ==> IsListed(files[i].path))
    && (forall p :: p in disk && IsListed(p) ==> HasItem(files, p))
  }

  /** The files that are not listed. */
  function Unlisted(disk: Disk): Disk {
    map p | p in disk && !IsListed(p) :: disk[p]
  }

  function RemovedPaths(items: seq<Item>, locked: set<string>): set<string> {
    set i | 0 <= i < |items| && Is(Removable, items[i], locked) :: items[i].path
  }

  /** One item: nothing for a candidate, otherwise the file its URL leads to, found or not. */
  function RemoveOne(target: Target, disk: Disk, f: Item, locked: set<string>): Option<Disk> {
    if f.isCandidate then Some(disk)
    else
      match target(f.path)
      case Throws => None
      case Removes(p) => Some(if p in locked then disk else disk - {p})
  }

  /** The directory after eviction has gone through `items`; None if it threw. */
  function Sweep(target: Target, disk: Disk, items: seq<Item>, locked: set<string>): Option<Disk> {
    if items == [] then Some(disk)
    else
      match Sweep(target, disk, items[..|items| - 1], locked)
      case None => None
      case Some(d) => RemoveOne(target, d, items[|items| - 1], locked)
  }

  predicate AllHit(target: Target, items: seq<Item>) {
    forall i :: 0 <= i < |items| && !items[i].isCandidate ==> Hits(target, items[i].path)
  }

  lemma RemovedPathsEnd(items: seq<Item>, locked: set<string>)
    requires items != []
    ensures var f := items[|items| - 1];
      RemovedPaths(items, locked) ==
      RemovedPaths(items[..|items| - 1], locked) + if Is(Removable, f, locked) then {f.path} else {}
  {
    var init, f := items[..|items| - 1], items[|items| - 1];
    assert forall i :: 0 <= i < |init| ==> init[i] == items[i];
    forall p | p in RemovedPaths(items, locked)
      ensures p in RemovedPaths(init, locked) || (Is(Removable, f, locked) && p == f.path)
    {
      var i :| 0 <= i < |items| && Is(Removable, items[i], locked) && items[i].path == p;
      if i < |init| {
        assert init[i].path == p;
      }
    }
    forall p | p in RemovedPaths(init, locked)
      ensures p in RemovedPaths(items, locked)
    {
      var i :| 0 <= i < |init| && Is(Removable, init[i], locked) && init[i].path == p;
      assert items[i].path == p;
    }
    if Is(Removable, f, locked) {
      assert items[|items| - 1].path in RemovedPaths(items, locked);
    }
  }

  /** If every URL leads back, exactly the files reported as removed are gone. */
  lemma {:induction false} SweepHits(target: Target, disk: Disk, items: seq<Item>, locked: set<string>)
    requires AllHit(target, items)
    ensures Sweep(target, disk, items, locked) == Some(disk - RemovedPaths(items, locked))
  {
    if items == [] {
      assert disk - RemovedPaths(items, locked) == disk;
    } else {
      var init, f := items[..|items| - 1], items[|items| - 1];
      SweepHits(target, disk, init, locked);
      RemovedPathsEnd(items, locked);
      if Is(Removable, f, locked) {
        assert disk - RemovedPaths(init, locked) - {f.path} == disk - RemovedPaths(items, locked);
      } else {
        assert disk - RemovedPaths(init, locked) == disk - RemovedPaths(items, locked);
      }
    }
  }

  /** After each item the directory holds what was not yet reported as removed. */
  predicate InStep(target: Target, disk: Disk, items: seq<Item>) {
    forall m :: 0 <= m <= |items| ==>
      Sweep(target, disk, items[..m], {}) == Some(disk - RemovedPaths(items[..m], {}))
  }

  /** The directory is in step with the reports if and only if the URL of every evicted file leads
      back to it. */
  lemma InStepIffAllHit(target: Target, disk: Disk, items: seq<Item>)
    requires Stored(items, disk)
    ensures InStep(target, disk, items) <==> AllHit(target, items)
  {
    if AllHit(target, items) {
      forall m | 0 <= m <= |items|
        ensures Sweep(target, disk, items[..m], {}) == Some(disk - RemovedPaths(items[..m], {}))
      {
        SweepHits(target, disk, items[..m], {});
      }
    }
    if InStep(target, disk, items) {
      forall i | 0 <= i < |items| && !items[i].isCandidate
        ensures Hits(target, items[i].path)
      {
        StepHits(target, disk, items, i);
      }
    }
  }

  lemma NotYetRemoved(disk: Disk, items: seq<Item>, i: nat)
    requires Stored(items, disk) && i < |items| && !items[i].isCandidate
    ensures items[i].path in disk - RemovedPaths(items[..i], {})
  {
    assert forall j :: 0 <= j < i ==> items[..i][j] == items[j];
  }

  lemma StepHits(target: Target, disk: Disk, items: seq<Item>, i: nat)
    requires Stored(items, disk) && InStep(target, disk, items) && i < |items| && !items[i].isCandidate
    ensures Hits(target, items[i].path)
  {
    var upTo := items[..i + 1];
    assert upTo[..i] == items[..i] && upTo[i] == items[i];
    RemovedPathsEnd(upTo, {});
    NotYetRemoved(disk, items, i);
    assert Sweep(target, disk, items[..i], {}) == Some(disk - RemovedPaths(items[..i], {}));
    assert Sweep(target, disk, upTo, {}) == Some(disk - RemovedPaths(upTo, {}));
    assert items[i].path !in disk - RemovedPaths(upTo, {});
  }

  // ----- conservation and budget -----

  lemma StoredInit(items: seq<Item>, disk: Disk)
    requires Stored(items, disk) && items != []
    ensures Stored(items[..|items| - 1], disk)
  {
    var init := items[..|items| - 1];
    assert forall i :: 0 <= i < |init| ==> init[i] == items[i];
  }

  /** Removing listed files takes exactly their sizes off the directory. */
  lemma {:induction false} RemovedBytes(disk: Disk, items: seq<Item>, locked: set<string>)
    requires Stored(items, disk)
    ensures DiskBytes(disk - RemovedPaths(items, locked)) + Bytes(Removable, items, locked) == DiskBytes(disk)
  {
    if items == [] {
      assert disk - RemovedPaths(items, locked) == disk;
    } else {
      var init, f := items[..|items| - 1], items[|items| - 1];
      StoredInit(items, disk);
      RemovedBytes(disk, init, locked);
      RemovedPathsEnd(items, locked);
      var d := disk - RemovedPaths(init, locked);
      if Is(Removable, f, locked) {
        LastStays(disk, items, locked);
        DiskBytesWithout(d, f.path);
        assert d - {f.path} == disk - RemovedPaths(items, locked);
      } else {
        assert d == disk - RemovedPaths(items, locked);
      }
    }
  }

  lemma LastStays(disk: Disk, items: seq<Item>, locked: set<string>)
    requires Stored(items, disk) && items != [] && !items[|items| - 1].isCandidate
    ensures items[|items| - 1].path in disk - RemovedPaths(items[..|items| - 1], locked)
  {
    assert forall j :: 0 <= j < |items| - 1 ==> items[..|items| - 1][j] == items[j];
  }

  lemma {:induction false} CachedBytesAnyLocks(files: seq<Item>, a: set<string>, b: set<string>)
    ensures Bytes(Cached, files, a) == Bytes(Cached, files, b)
  {
    if files != [] {
      CachedBytesAnyLocks(files[..|files| - 1], a, b);
    }
  }

  lemma ListedAreItems(disk: Disk, files: seq<Item>)
    requires Lists(files, disk)
    ensures disk - RemovedPaths(files, {}) == Unlisted(disk)
  {
    forall p | p in disk
      ensures p in RemovedPaths(files, {}) <==> IsListed(p)
    {
      if IsListed(p) {
        assert HasItem(files, p);
        var i :| 0 <= i < |files| && !files[i].isCandidate && files[i].path == p;
        assert Is(Removable, files[i], {});
      }
    }
  }

  /** The directory holds what is counted at the start of a pass, and what is not listed. */
  lemma CountedIsStored(disk: Disk, files: seq<Item>, locked: set<string>)
    requires Lists(files, disk)
    ensures DiskBytes(disk) == Bytes(Cached, files, locked) + DiskBytes(Unlisted(disk))
  {
    RemovedBytes(disk, files, {});
    ListedAreItems(disk, files);
    BytesPartition(files, {});
    NoLocksNoneStuck(files);
    CachedBytesAnyLocks(files, {}, locked);
  }

  lemma StoredPrefix(files: seq<Item>, n: nat, disk: Disk)
    requires Stored(files, disk) && n <= |files|
    ensures Stored(files[..n], disk)
  {
    assert forall i :: 0 <= i < n ==> files[..n][i] == files[i];
  }

  lemma UnlistedStay(disk: Disk, files: seq<Item>, locked: set<string>)
    requires forall i :: 0 <= i < |files| && !files[i].isCandidate ==> IsListed(files[i].path)
    ensures Unlisted(disk - RemovedPaths(files, locked)) == Unlisted(disk)
  {
  }

  /** If every URL leads back, the directory ends with the size that is still counted and with the
      files that were not listed, all of them. */
  lemma DirectoryConserved(target: Target, disk: Disk, files: seq<Item>, n: nat, locked: set<string>)
    requires Lists(files, disk) && n <= |files| && AllHit(target, files[..n])
    ensures var r := Sweep(target, disk, files[..n], locked);
      && r.Some? && Unlisted(r.value) == Unlisted(disk)
      && DiskBytes(r.value) ==
         Bytes(Stuck, files[..n], locked) + Bytes(Cached, files[n..], locked) + DiskBytes(Unlisted(disk))
  {
    SweepHits(target, disk, files[..n], locked);
    StoredPrefix(files, n, disk);
    RemovedBytes(disk, files[..n], locked);
    CountedIsStored(disk, files, locked);
    LeftSums(files, n, locked);
    UnlistedStay(disk, files[..n], locked);
  }

  /** How a download ends: a file of its size, nothing, or an unfinished file of at most its size. */
  datatype DownloadEnd = Finished | Nothing | Unfinished(size: nat)

  type Downloads = string -> DownloadEnd

  function DownloadOne(disk: Disk, f: Item, ends: Downloads): Disk {
    if !Is(Pending, f, {}) then disk
    else
      match ends(f.path)
      case Finished => disk[f.path := f.size]
      case Nothing => disk
      case Unfinished(size) => disk[f.path + STAGING_SUFFIX := if size < f.size then size else f.size]
  }

  /** The directory after the downloads. */
  function DownloadAll(disk: Disk, items: seq<Item>, ends: Downloads): Disk {
    if items == [] then disk
    else DownloadOne(DownloadAll(disk, items[..|items| - 1], ends), items[|items| - 1], ends)
  }

  lemma OneDownload(disk: Disk, p: string, size: nat)
    ensures DiskBytes(disk[p := size]) <= DiskBytes(disk) + size
  {
    DiskBytesWithout(disk[p := size], p);
    assert disk[p := size] - {p} == disk - {p};
    if p in disk {
      DiskBytesWithout(disk, p);
    } else {
      assert disk - {p} == disk;
    }
  }

  lemma {:induction false} DownloadsGrow(disk: Disk, items: seq<Item>, ends: Downloads)
    ensures DiskBytes(DownloadAll(disk, items, ends)) <= DiskBytes(disk) + Bytes(Pending, items, {})
  {
    if items != [] {
      var init, f := items[..|items| - 1], items[|items| - 1];
      DownloadsGrow(disk, init, ends);
      var d := DownloadAll(disk, init, ends);
      match ends(f.path)
      case Finished => OneDownload(d, f.path, f.size);
      case Nothing =>
      case Unfinished(size) => OneDownload(d, f.path + STAGING_SUFFIX, if size < f.size then size else f.size);
    }
  }

  /** For a positive limit, no lock failure and URLs that lead back, the directory without the files
      that were not listed ends below the limit. */
  lemma DirectoryBudget(target: Target, disk: Disk, files: seq<Item>, limit: int, ends: Downloads)
    requires limit > 0 && Lists(files, disk)
    requires AllHit(target, files[..Cut(files, 0, limit, {})])
    ensures var n := Cut(files, 0, limit, {});
      var r := Sweep(target, disk, files[..n], {});
      r.Some? && DiskBytes(DownloadAll(r.value, files[n..], ends)) < limit + DiskBytes(Unlisted(disk))
  {
    var n := Cut(files, 0, limit, {});
    DirectoryConserved(target, disk, files, n, {});
    DownloadsGrow(Sweep(target, disk, files[..n], {}).value, files[n..], ends);
    CutIsFirst(files, 0, limit, {});
    NoLocksNoneStuck(files[..n]);
    if n == |files| {
      assert files[n..] == [];
    }
  }

  // ----- removal by URL -----

  function ByUrl(cacheDir: string): Target {
    path => EvictionTarget(cacheDir, path)
  }

  /** The listed files are the cache files of `urls`. */
  predicate CacheFilesOf(cacheDir: string, items: seq<Item>, urls: seq<string>) {
    |items| == |urls| &&
    forall i :: 0 <= i < |items| ==> TryGetCacheFilePath(cacheDir, urls[i]) == Path(items[i].path)
  }

  /** With nothing but cached files evicted, the directory is in step with the reports if and only if
      no URL has a wildcard before its query, a slash in a kept query, or a dropped query behind "..". */
  lemma InStepIffEvictable(cacheDir: string, disk: Disk, items: seq<Item>, urls: seq<string>)
    requires Stored(items, disk) && CacheFilesOf(cacheDir, items, urls)
    requires forall i :: 0 <= i < |items| ==> !items[i].isCandidate && IsListed(items[i].path)
    ensures InStep(ByUrl(cacheDir), disk, items) <==> forall i :: 0 <= i < |urls| ==> Evictable(urls[i])
  {
    InStepIffAllHit(ByUrl(cacheDir), disk, items);
    forall i | 0 <= i < |items|
      ensures Hits(ByUrl(cacheDir), items[i].path) <==> Evictable(urls[i])
    {
      EvictionHitsIff(cacheDir, urls[i]);
    }
  }

  lemma PrefixGrows(files: seq<Item>, n: nat, locked: set<string>)
    requires n < |files|
    ensures files[..n + 1][..n] == files[..n] && files[..n + 1][n] == files[n]
    ensures Bytes(Cached, files[n..], locked) ==
      Weight(Cached, files[n], locked) + Bytes(Cached, files[n + 1..], locked)
    ensures Bytes(Pending, files[n..], locked) ==
      Weight(Pending, files[n], locked) + Bytes(Pending, files[n + 1..], locked)
    ensures Left(files, n + 1, locked) ==
      Left(files, n, locked) - Weight(Removable, files[n], locked) - Weight(Pending, files[n], locked)
  {
    assert files[n..] == [files[n]] + files[n + 1..];
    BytesAppend(Cached, [files[n]], files[n + 1..], locked);
    BytesAppend(Pending, [files[n]], files[n + 1..], locked);
    OneBytes(Cached, files[n], locked);
    OneBytes(Pending, files[n], locked);
  }
}
