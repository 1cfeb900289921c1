/** When a pass keeps the cache directory below its limit, whatever files of a set of URLs it holds. */
module CacheBound {

  import opened Basics
  import opened CacheDirectory
  import opened CacheEviction
  import opened CacheListing
  import opened CachePaths

  // ----- a pass on the directory, with no lock held elsewhere -----

  /** The directory once unfinished downloads are removed. */
  function Scanned(disk: Disk, locked: set<string>): Disk {
    map p | p in disk && !(IsStaging(p) && FinalPath(p) !in locked) :: disk[p]
  }

  /** The listing asks for the URL of a file that has none, and throws. */
  predicate NoUrl(cacheDir: string, p: string, locked: set<string>) {
    if IsStaging(p) then FinalPath(p) in locked && GetURLForCacheFilePath(cacheDir, FinalPath(p)).NotACachePath?
    else IsListed(p) && GetURLForCacheFilePath(cacheDir, p).NotACachePath?
  }

  predicate ListingThrows(cacheDir: string, disk: Disk, locked: set<string>) {
    exists p :: p in disk && NoUrl(cacheDir, p, locked)
  }

  /** The directory after a pass over `files`; None if the pass threw. */
  function Pass(cacheDir: string, disk: Disk, files: seq<Item>, limit: int, ends: Downloads): Option<Disk> {
    if ListingThrows(cacheDir, disk, {}) then None
    else
      var n := Cut(files, 0, limit, {});
      match Sweep(ByUrl(cacheDir), Scanned(disk, {}), files[..n], {})
      case None => None
      case Some(d) => Some(DownloadAll(d, files[n..], ends))
  }

  // ----- directories of a set of URLs -----

  predicate CameFrom(cacheDir: string, url: string, p: string)
    requires TryGetCacheFilePath(cacheDir, url).Path?
  {
    var path := TryGetCacheFilePath(cacheDir, url).path;
    p == path || p == path + STAGING_SUFFIX
  }

  predicate AllCached(cacheDir: string, urls: set<string>) {
    forall url :: url in urls ==> TryGetCacheFilePath(cacheDir, url).Path?
  }

  /** Every file is the cache file of one of the URLs, finished or not. */
  predicate FilesOf(cacheDir: string, urls: set<string>, disk: Disk)
    requires AllCached(cacheDir, urls)
  {
    forall p :: p in disk ==> IsFile(p) && exists url :: url in urls && CameFrom(cacheDir, url, p)
  }

  /** From any directory of files of these URLs, a pass ends, and ends below the limit. */
  ghost predicate KeptBelowLimit(cacheDir: string, urls: set<string>)
    requires AllCached(cacheDir, urls)
  {
    forall disk: Disk, files: seq<Item>, limit: int, ends: Downloads ::
      limit > 0 && FilesOf(cacheDir, urls, disk) && Lists(files, Scanned(disk, {})) ==>
        var r := Pass(cacheDir, disk, files, limit, ends);
        r.Some? && DiskBytes(r.value) < limit
  }

  /** The URL has no file, a file that every pass removes, or one that eviction reaches. */
  predicate Harmless(url: string) {
    NamesNoFile(url) || LooksStaged(url) || Evictable(url)
  }

  // ----- sufficient -----

  lemma StagingEnds(path: string)
    ensures IsStaging(path + STAGING_SUFFIX)
  {
    var p := path + STAGING_SUFFIX;
    assert p[|p| - |STAGING_SUFFIX|..] == STAGING_SUFFIX;
  }

  lemma HarmlessFile(cacheDir: string, url: string, p: string)
    requires TryGetCacheFilePath(cacheDir, url).Path? && Harmless(url) && CameFrom(cacheDir, url, p)
    requires IsFile(p) && !IsStaging(p)
    ensures IsListed(p) && EvictionHits(cacheDir, p)
  {
    var path := TryGetCacheFilePath(cacheDir, url).path;
    StagingEnds(path);
    ListingIff(cacheDir, url);
    EvictableIsListed(cacheDir, url);
    EvictionHitsIff(cacheDir, url);
  }

  lemma HarmlessDirectory(cacheDir: string, urls: set<string>, disk: Disk, p: string)
    requires AllCached(cacheDir, urls) && FilesOf(cacheDir, urls, disk)
    requires (forall url :: url in urls ==> Harmless(url)) && p in disk && !IsStaging(p)
    ensures IsListed(p) && EvictionHits(cacheDir, p)
  {
    var url :| url in urls && CameFrom(cacheDir, url, p);
    HarmlessFile(cacheDir, url, p);
  }

  lemma HitHasUrl(cacheDir: string, p: string)
    requires EvictionHits(cacheDir, p)
    ensures GetURLForCacheFilePath(cacheDir, p).Url?
  {
  }

  lemma HarmlessListing(cacheDir: string, urls: set<string>, disk: Disk)
    requires AllCached(cacheDir, urls) && FilesOf(cacheDir, urls, disk) && forall url :: url in urls ==> Harmless(url)
    ensures !ListingThrows(cacheDir, disk, {}) && Unlisted(Scanned(disk, {})) == map[]
  {
    forall p | p in disk && !IsStaging(p)
      ensures IsListed(p) && GetURLForCacheFilePath(cacheDir, p).Url?
    {
      HarmlessDirectory(cacheDir, urls, disk, p);
      HitHasUrl(cacheDir, p);
    }
  }

  lemma HarmlessItems(cacheDir: string, urls: set<string>, disk: Disk, files: seq<Item>)
    requires AllCached(cacheDir, urls) && FilesOf(cacheDir, urls, disk) && forall url :: url in urls ==> Harmless(url)
    requires Lists(files, Scanned(disk, {}))
    ensures AllHit(ByUrl(cacheDir), files)
  {
    forall i | 0 <= i < |files| && !files[i].isCandidate
      ensures Hits(ByUrl(cacheDir), files[i].path)
    {
      assert files[i].path in Scanned(disk, {}) && IsListed(files[i].path);
      HarmlessDirectory(cacheDir, urls, disk, files[i].path);
    }
  }

  lemma NoBytes()
    ensures DiskBytes(map[]) == 0
  {
  }

  lemma HarmlessPass(cacheDir: string, urls: set<string>, disk: Disk, files: seq<Item>, limit: int, ends: Downloads)
    requires AllCached(cacheDir, urls) && FilesOf(cacheDir, urls, disk) && forall url :: url in urls ==> Harmless(url)
    requires Lists(files, Scanned(disk, {})) && limit > 0
    ensures var r := Pass(cacheDir, disk, files, limit, ends);
      r.Some? && DiskBytes(r.value) < limit
  {
    HarmlessListing(cacheDir, urls, disk);
    HarmlessItems(cacheDir, urls, disk, files);
    DirectoryBudget(ByUrl(cacheDir), Scanned(disk, {}), files, limit, ends);
    NoBytes();
  }

  // ----- necessary -----

  function AlwaysFails(path: string): DownloadEnd {
    Nothing
  }

  /** One file as large as the limit, and its listing. */
  function Single(p: string, size: nat): Disk {
    map[p := size]
  }

  function SingleListing(p: string, size: nat): seq<Item> {
    if IsListed(p) then [Item(p, size, 0, false, false)] else []
  }

  lemma SingleLists(p: string, size: nat)
    requires !IsStaging(p)
    ensures Scanned(Single(p, size), {}) == Single(p, size)
    ensures Lists(SingleListing(p, size), Single(p, size))
  {
    if IsListed(p) {
      assert SingleListing(p, size)[0].path == p;
      assert HasItem(SingleListing(p, size), p);
    }
  }

  lemma SingleBytes(p: string, size: nat)
    ensures DiskBytes(Single(p, size)) == size
  {
    DiskBytesWithout(Single(p, size), p);
    assert Single(p, size) - {p} == map[];
    NoBytes();
  }

  lemma SingleCut(p: string, size: nat)
    requires size > 0
    ensures Cut(SingleListing(p, size), 0, size, {}) == |SingleListing(p, size)|
  {
    var files := SingleListing(p, size);
    if IsListed(p) {
      assert files[..0] == [] && files[0..] == files;
      OneBytes(Cached, files[0], {});
      assert Left(files, 0, {}) >= size;
      assert Cut(files, 1, size, {}) == 1;
    }
  }

  /** A file that eviction does not reach stays, or its pass throws. */
  lemma SingleStays(cacheDir: string, p: string, size: nat)
    requires !IsStaging(p) && !EvictionHits(cacheDir, p)
    ensures var files := SingleListing(p, size);
      var r := Sweep(ByUrl(cacheDir), Single(p, size), files[..|files|], {});
      r.Some? ==> r.value == Single(p, size)
  {
    var files := SingleListing(p, size);
    assert files[..|files|] == files;
    if IsListed(p) {
      var f := files[0];
      assert files[..0] == [];
      assert Sweep(ByUrl(cacheDir), Single(p, size), files, {}) ==
        RemoveOne(ByUrl(cacheDir), Single(p, size), f, {});
      if EvictionTarget(cacheDir, p).Removes? {
        var other := EvictionTarget(cacheDir, p).path;
        assert other != p;
        assert Single(p, size) - {other} == Single(p, size);
      }
    }
  }

  lemma SinglePass(cacheDir: string, p: string, size: nat)
    requires size > 0 && !IsStaging(p) && !EvictionHits(cacheDir, p)
    ensures var r := Pass(cacheDir, Single(p, size), SingleListing(p, size), size, AlwaysFails);
      r.Some? ==> DiskBytes(r.value) >= size
  {
    SingleLists(p, size);
    SingleCut(p, size);
    SingleStays(cacheDir, p, size);
    SingleBytes(p, size);
    var files := SingleListing(p, size);
    assert files[|files|..] == [];
  }

  lemma HarmfulPath(cacheDir: string, url: string)
    requires TryGetCacheFilePath(cacheDir, url).Path? && !Harmless(url)
    ensures var p := TryGetCacheFilePath(cacheDir, url).path;
      IsFile(p) && !IsStaging(p) && !EvictionHits(cacheDir, p)
  {
    ListingIff(cacheDir, url);
    EvictionHitsIff(cacheDir, url);
  }

  lemma SingleOf(cacheDir: string, urls: set<string>, url: string, p: string, size: nat)
    requires AllCached(cacheDir, urls) && url in urls && CameFrom(cacheDir, url, p) && IsFile(p)
    ensures FilesOf(cacheDir, urls, Single(p, size))
  {
  }

  lemma NotKept(cacheDir: string, urls: set<string>, disk: Disk, files: seq<Item>, limit: int, ends: Downloads)
    requires AllCached(cacheDir, urls) && FilesOf(cacheDir, urls, disk)
    requires limit > 0 && Lists(files, Scanned(disk, {}))
    requires var r := Pass(cacheDir, disk, files, limit, ends); r.Some? ==> DiskBytes(r.value) >= limit
    ensures !KeptBelowLimit(cacheDir, urls)
  {
    var r := Pass(cacheDir, disk, files, limit, ends);
    assert !(r.Some? && DiskBytes(r.value) < limit);
  }

  lemma HarmfulFile(cacheDir: string, urls: set<string>, url: string)
    requires AllCached(cacheDir, urls) && url in urls && !Harmless(url)
    ensures !KeptBelowLimit(cacheDir, urls)
  {
    var p := TryGetCacheFilePath(cacheDir, url).path;
    HarmfulPath(cacheDir, url);
    SingleOf(cacheDir, urls, url, p, 1);
    SingleLists(p, 1);
    SinglePass(cacheDir, p, 1);
    NotKept(cacheDir, urls, Single(p, 1), SingleListing(p, 1), 1, AlwaysFails);
  }

  /** An overlooked file stays through every pass that evicts what it lists, whatever its size. */
  lemma OverlookedStays(target: Target, disk: Disk, files: seq<Item>, n: nat, p: string)
    requires p in disk && IsOverlooked(p) && Lists(files, Scanned(disk, {})) && n <= |files|
    requires AllHit(target, files[..n])
    ensures var r := Sweep(target, Scanned(disk, {}), files[..n], {});
      r.Some? && p in r.value && r.value[p] == disk[p]
  {
    DirectoryConserved(target, Scanned(disk, {}), files, n, {});
    var r := Sweep(target, Scanned(disk, {}), files[..n], {});
    assert p in Unlisted(r.value) && Unlisted(r.value)[p] == disk[p];
  }

  /** A pass over the files of some URLs always ends below the limit if and only if none of the URLs has
      a slash in a kept query, a wildcard before it or a dropped query behind "..", unless it names no
      file or one that looks unfinished. */
  lemma DirectoryBoundedIff(cacheDir: string, urls: set<string>)
    requires AllCached(cacheDir, urls)
    ensures KeptBelowLimit(cacheDir, urls) <==> forall url :: url in urls ==> Harmless(url)
  {
    if url :| url in urls && !Harmless(url) {
      HarmfulFile(cacheDir, urls, url);
    } else {
      forall disk: Disk, files: seq<Item>, limit: int, ends: Downloads
        | limit > 0 && FilesOf(cacheDir, urls, disk) && Lists(files, Scanned(disk, {}))
        ensures var r := Pass(cacheDir, disk, files, limit, ends);
          r.Some? && DiskBytes(r.value) < limit
      {
        HarmlessPass(cacheDir, urls, disk, files, limit, ends);
      }
    }
  }
}
