/** Which files of the cache directory a pass lists. A file whose name does not start like that of a
    cache file is passed over: it is not counted, evicted or reported. */
module CacheListing {

  import opened Basics
  import opened CachePaths

  predicate EndsWith(s: string, t: string) {
    |t| <= |s| && s[|s| - |t|..] == t
  }

  /** A file that is taken for a download that did not finish, and removed. */
  predicate IsStaging(path: string) {
    EndsWith(path, STAGING_SUFFIX)
  }

  function FinalPath(path: string): string
    requires IsStaging(path)
  {
    path[..|path| - |STAGING_SUFFIX|]
  }

  predicate IsListed(path: string) {
    !IsStaging(path) && IsFinalizedCachePath(path)
  }

  predicate IsOverlooked(path: string) {
    !IsStaging(path) && !IsFinalizedCachePath(path)
  }

  /** The path names something other than a directory. */
  predicate IsFile(path: string) {
    var name := FileName(path);
    name != "" && name != "." && name != ".."
  }

  // ----- the same, seen from the URL -----

  /** The file name of the URL with the query that becomes part of it. */
  function KeptName(url: string): string {
    FileName(Before(url, '?')) + if "http" <= url then From(url, '?') else []
  }

  predicate SlashInKeptQuery(url: string) {
    "http" <= url && Has(From(url, '?'), '/')
  }

  predicate LooksStaged(url: string) {
    EndsWith("." + KeptName(url), STAGING_SUFFIX)
  }

  predicate NamesNoFile(url: string) {
    SlashInKeptQuery(url) && !IsFile(From(url, '?'))
  }

  /** The last part of a kept query with a slash does not look like a cache file. */
  predicate Overlooked(url: string) {
    SlashInKeptQuery(url) && !LooksStaged(url) && !(CACHE_FILE_PREFIX <= FileName(From(url, '?')))
  }

  lemma NameInParts(u: Parts)
    requires ValidParts(u)
    ensures KeptName(UrlOf(u)) == u.file + KeptQuery(u)
    ensures SlashInKeptQuery(UrlOf(u)) <==> Has(KeptQuery(u), '/')
    ensures IsHttp(u.protocol) ==> From(UrlOf(u), '?') == KeptQuery(u)
  {
    QueryInUrl(u);
    SplitsAtLastSlash(u.protocol + ":/" + u.dir, u.file);
    assert u.protocol + ":/" + (u.dir + u.file) == u.protocol + ":/" + u.dir + u.file;
  }

  /** A suffix that begins with a dot is not longer than the part behind the last dot before it. */
  lemma SuffixBehindDot(a: string, b: string, t: string)
    requires t != [] && t[0] == '.' && |t| <= |"pgl-cache" + b| && !Has("pgl-cache", '.')
    ensures EndsWith(a + ("pgl-cache" + b), t) <==> EndsWith(b, t)
  {
    var s := a + ("pgl-cache" + b);
    var k := |s| - |t|;
    assert forall i :: |s| - |b| <= i < |s| ==> s[i] == b[i - (|s| - |b|)];
    if |t| <= |b| {
      assert s[k..] == b[|b| - |t|..];
    } else {
      assert s[k..][0] == s[k] == "pgl-cache"[k - |a|] != '.';
    }
  }

  lemma StagingInParts(cacheDir: string, u: Parts)
    requires ValidParts(u)
    ensures IsStaging(PathOf(cacheDir, u)) <==> EndsWith("." + (u.file + KeptQuery(u)), STAGING_SUFFIX)
  {
    var a, b := cacheDir + (u.protocol + u.dir), "." + (u.file + KeptQuery(u));
    assert PathOf(cacheDir, u) == a + ("pgl-cache" + b);
    SuffixBehindDot(a, b, STAGING_SUFFIX);
  }

  lemma PrefixedName(s: string)
    requires CACHE_FILE_PREFIX <= s
    ensures s != "" && s != "." && s != ".."
  {
  }

  /** What a pass makes of the file of a URL. It is overlooked if and only if the URL is an http(s) one
      whose query has a slash, with a last part that does not look like a cache file. */
  lemma ListingIff(cacheDir: string, url: string)
    requires TryGetCacheFilePath(cacheDir, url).Path?
    ensures var path := TryGetCacheFilePath(cacheDir, url).path;
      && (IsStaging(path) <==> LooksStaged(url))
      && (IsFile(path) <==> !NamesNoFile(url))
      && (IsOverlooked(path) <==> Overlooked(url))
  {
    var u := PartsOf(url);
    PathInParts(cacheDir, u);
    NameInParts(u);
    StagingInParts(cacheDir, u);
    if Has(KeptQuery(u), '/') {
      SlashedName(cacheDir, u);
    } else {
      NameOfPath(cacheDir, u);
      PrefixedName(CachedName(u));
    }
  }

  /** A URL whose file eviction reaches has a file that is listed, or removed as unfinished. */
  lemma EvictableIsListed(cacheDir: string, url: string)
    requires TryGetCacheFilePath(cacheDir, url).Path? && Evictable(url) && !LooksStaged(url)
    ensures IsListed(TryGetCacheFilePath(cacheDir, url).path)
  {
    ListingIff(cacheDir, url);
  }

  // ----- examples -----

  /** The URL `http://h/a?x=/b`. */
  const OVERLOOKED_EXAMPLE := Parts("http", "/" + "h" + "/", "a", "?x=/" + "b")

  lemma OverlookedCacheable(u: Parts)
    requires u == OVERLOOKED_EXAMPLE
    ensures ValidParts(u) && IsCacheableURL("/c/", UrlOf(u)) && !NameTooLong(u)
  {
    assert u.query[0] == '?';
    OneSegment("a?x=");
    OneSegment("b");
    SegmentsOkSplit("a?x=", "b");
    assert u.file + u.query == "a?x=" + ("/" + "b");
    ShortUrlCacheable("/c/", u, "h");
  }

  /** Its file, named `b`, is never listed. */
  lemma SlashInQueryIsOverlooked(u: Parts)
    requires u == OVERLOOKED_EXAMPLE
    ensures TryGetCacheFilePath("/c/", UrlOf(u)) == Path(PathOf("/c/", u))
    ensures FileName(PathOf("/c/", u)) == "b" && IsFile(PathOf("/c/", u)) && IsOverlooked(PathOf("/c/", u))
  {
    OverlookedCacheable(u);
    PathInParts("/c/", u);
    assert KeptQuery(u)[3] == '/';
    SplitsAtLastSlash("?x=/", "b");
    SlashedName("/c/", u);
    StagingInParts("/c/", u);
    assert |"." + (u.file + KeptQuery(u))| < |STAGING_SUFFIX|;
    assert |"b"| < |CACHE_FILE_PREFIX|;
  }

  lemma StagedNameCacheable(u: Parts)
    requires u == Parts("s3", "/" + "b" + "/", "pgl-stage", "")
    ensures ValidParts(u) && IsCacheableURL("/c/", UrlOf(u)) && !NameTooLong(u) && KeptQuery(u) == []
  {
    OneSegment("pgl-stage");
    assert u.file + u.query == "pgl-stage";
    ShortUrlCacheable("/c/", u, "b");
  }

  lemma DottedName()
    ensures "." + ("pgl-stage" + "") == STAGING_SUFFIX
  {
  }

  lemma NamedLikeStaging(cacheDir: string, u: Parts)
    requires ValidParts(u) && "." + (u.file + KeptQuery(u)) == STAGING_SUFFIX
    ensures IsStaging(PathOf(cacheDir, u))
  {
    StagingInParts(cacheDir, u);
  }

  /** The URL `s3://b/pgl-stage`: its finished file is removed by every pass. */
  lemma FinishedFileLooksStaged(u: Parts)
    requires u == Parts("s3", "/" + "b" + "/", "pgl-stage", "")
    ensures TryGetCacheFilePath("/c/", UrlOf(u)) == Path(PathOf("/c/", u)) && IsStaging(PathOf("/c/", u))
  {
    StagedNameCacheable(u);
    PathInParts("/c/", u);
    DottedName();
    NamedLikeStaging("/c/", u);
  }

  /** The URL `http://h/a?x=/pgl-cache.y`, which is taken for `http://h/pgl-cache.a?x=/y`. */
  const OTHER_FILE_EXAMPLE := Parts("http", "/" + "h" + "/", "a", "?x=/" + (CACHE_FILE_PREFIX + "y"))

  const MISTAKEN_EXAMPLE := Parts("http", "/" + "h" + "/", CACHE_FILE_PREFIX + "a", "?x=/" + "y")

  lemma OtherFileCacheable(u: Parts)
    requires u == OTHER_FILE_EXAMPLE
    ensures ValidParts(u) && IsCacheableURL("/c/", UrlOf(u)) && !NameTooLong(u)
  {
    var last := CACHE_FILE_PREFIX + "y";
    assert u.query[0] == '?';
    OneSegment("a?x=");
    OneSegment(last);
    SegmentsOkSplit("a?x=", last);
    assert u.file + u.query == "a?x=" + ("/" + last);
    ShortUrlCacheable("/c/", u, "h");
  }

  lemma MistakenCacheable(v: Parts)
    requires v == MISTAKEN_EXAMPLE
    ensures ValidParts(v) && IsCacheableURL("/c/", UrlOf(v)) && !NameTooLong(v)
  {
    var first := CACHE_FILE_PREFIX + "a?x=";
    assert v.query[0] == '?';
    OneSegment(first);
    OneSegment("y");
    SegmentsOkSplit(first, "y");
    assert v.file + v.query == first + ("/" + "y");
    ShortUrlCacheable("/c/", v, "h");
  }

  lemma MistakenGlob(v: Parts)
    requires ValidParts(v) && v == MISTAKEN_EXAMPLE
    ensures !HasGlob(Before(UrlOf(v), '?'))
  {
    QueryInUrl(v);
    var before := v.protocol + ":/" + (v.dir + v.file);
    assert forall i :: 0 <= i < |before| ==> before[i] != '*' && before[i] != '[';
  }

  lemma OtherFileQuery(u: Parts)
    requires u == OTHER_FILE_EXAMPLE
    ensures Has(KeptQuery(u), '/') && FileName(KeptQuery(u)) == CACHE_FILE_PREFIX + "y"
    ensures Mistaken(u) == MISTAKEN_EXAMPLE
  {
    assert KeptQuery(u)[3] == '/';
    SplitsAtLastSlash("?x=/", CACHE_FILE_PREFIX + "y");
    assert (CACHE_FILE_PREFIX + "y")[|CACHE_FILE_PREFIX|..] == "y";
  }

  lemma MistakenName(v: Parts)
    requires ValidParts(v) && v == MISTAKEN_EXAMPLE
    ensures FileName(PathOf("/c/", v)) == "y"
  {
    assert KeptQuery(v)[3] == '/';
    SplitsAtLastSlash("?x=/", "y");
    SlashedName("/c/", v);
  }

  /** Its file, named `pgl-cache.y`, is listed, and eviction removes a file named `y` in its place. */
  lemma OtherFileExample(u: Parts)
    requires u == OTHER_FILE_EXAMPLE
    ensures TryGetCacheFilePath("/c/", UrlOf(u)) == Path(PathOf("/c/", u))
    ensures FileName(PathOf("/c/", u)) == CACHE_FILE_PREFIX + "y"
    ensures var r := EvictionTarget("/c/", PathOf("/c/", u));
      r == Removes(PathOf("/c/", MISTAKEN_EXAMPLE)) && r.path != PathOf("/c/", u) && FileName(r.path) == "y"
  {
    OtherFileCacheable(u);
    OtherFileQuery(u);
    MistakenCacheable(Mistaken(u));
    MistakenGlob(Mistaken(u));
    MistakenName(Mistaken(u));
    SlashedName("/c/", u);
    OtherFileIsRemoved("/c/", u);
  }
}
