/** URLs of cached files, the local paths they map to, and the way back from a path to its URL. */
module CachePaths {

  import opened Basics

  const CACHE_FILE_PREFIX: string := "pgl-cache."
  const STAGING_SUFFIX: string := ".pgl-stage"

  // ----- splitting strings -----

  predicate Has(s: string, c: char) {
    exists i :: 0 <= i < |s| && s[i] == c
  }

  /** Up to and including the last slash. */
  function DirName(path: string): string {
    if path == [] then [] else if path[|path| - 1] == '/' then path else DirName(path[..|path| - 1])
  }

  function FileName(path: string): string {
    if path == [] then []
    else if path[|path| - 1] == '/' then []
    else FileName(path[..|path| - 1]) + [path[|path| - 1]]
  }

  predicate IsDir(s: string) {
    s == [] || s[|s| - 1] == '/'
  }

  lemma {:induction false} DirAndFile(path: string)
    ensures DirName(path) + FileName(path) == path && IsDir(DirName(path)) && !Has(FileName(path), '/')
  {
    if path != [] && path[|path| - 1] != '/' {
      DirAndFile(path[..|path| - 1]);
      assert path == path[..|path| - 1] + [path[|path| - 1]];
    }
  }

  /** A directory part and a name without slashes are found again in their concatenation. */
  lemma {:induction false} SplitsAtLastSlash(a: string, b: string)
    requires IsDir(a) && !Has(b, '/')
    ensures DirName(a + b) == a && FileName(a + b) == b
  {
    if b == [] {
      assert a + b == a;
      if a != [] {
        assert a[|a| - 1] == '/';
      }
    } else {
      var init, last := b[..|b| - 1], b[|b| - 1];
      assert b == init + [last] && last != '/';
      assert (a + b)[..|a + b| - 1] == a + init;
      assert !Has(init, '/');
      SplitsAtLastSlash(a, init);
    }
  }

  /** Up to but excluding the first `c`, and from there on. */
  function Before(s: string, c: char): string {
    if s == [] || s[0] == c then [] else [s[0]] + Before(s[1..], c)
  }

  function From(s: string, c: char): string {
    if s == [] || s[0] == c then s else From(s[1..], c)
  }

  predicate StartsAt(s: string, c: char) {
    s == [] || s[0] == c
  }

  lemma {:induction false} BeforeAndFrom(s: string, c: char)
    ensures Before(s, c) + From(s, c) == s && !Has(Before(s, c), c) && StartsAt(From(s, c), c)
  {
    if s != [] && s[0] != c {
      BeforeAndFrom(s[1..], c);
      HasTail(s[0], Before(s[1..], c), c);
      assert s == [s[0]] + s[1..];
    }
  }

  lemma HasTail(x: char, t: string, c: char)
    requires x != c && !Has(t, c)
    ensures !Has([x] + t, c)
  {
  }

  lemma {:induction false} SplitsAtFirst(a: string, b: string, c: char)
    requires !Has(a, c) && StartsAt(b, c)
    ensures Before(a + b, c) == a && From(a + b, c) == b
  {
    if a == [] {
      assert a + b == b;
    } else {
      assert a[0] != c;
      assert (a + b)[1..] == a[1..] + b;
      assert !Has(a[1..], c);
      SplitsAtFirst(a[1..], b, c);
    }
  }

  // ----- the mapping -----

  /** The protocols that are cached. */
  predicate Protocol(p: string) {
    || p == "s3" || p == "gs" || p == "azure" || p == "az" || p == "abfss"
    || p == "https" || p == "http" || p == "hf" || p == "r2"
  }

  predicate HasCachedProtocol(url: string) {
    "s3://" <= url || "gs://" <= url || "azure://" <= url || "az://" <= url || "abfss://" <= url ||
    "https://" <= url || "http://" <= url || "hf://" <= url || "r2://" <= url
  }

  /** The parts between slashes. */
  function Segments(s: string): seq<string>
    decreases |s|
  {
    BeforeAndFrom(s, '/');
    var rest := From(s, '/');
    if rest == [] then [s] else [Before(s, '/')] + Segments(rest[1..])
  }

  predicate SegmentOk(s: string) {
    |s| <= 255 && s != ".."
  }

  predicate SegmentsOk(s: string) {
    var parts := Segments(s);
    forall i :: 0 <= i < |parts| ==> SegmentOk(parts[i])
  }

  predicate IsCacheableURL(cacheDir: string, url: string) {
    |cacheDir| + |url| < 4095 && SegmentsOk(url) && HasCachedProtocol(url)
  }

  /** The position of the first "://". */
  function FindScheme(url: string): Option<nat> {
    if |url| < 3 then None
    else if "://" <= url then Some(0)
    else match FindScheme(url[1..]) case None => None case Some(i) => Some(i + 1)
  }

  datatype PathResult = NotCacheable | InvalidURL | Path(path: string)

  predicate IsHttp(protocol: string) {
    "http" <= protocol
  }

  function TryGetCacheFilePath(cacheDir: string, url: string): PathResult {
    if !IsCacheableURL(cacheDir, url) then NotCacheable
    else
      match FindScheme(url)
      case None => InvalidURL
      case Some(colon) =>
        if colon + 2 > |url| then InvalidURL
        else
          var protocol, full := url[..colon], url[colon + 2..];
          if !("/" <= full) then InvalidURL
          else
            var query, path := From(full, '?'), Before(full, '?');
            var relative := protocol + path;
            var fileName := CACHE_FILE_PREFIX + FileName(relative) + if IsHttp(protocol) then query else [];
            if |fileName| + |CACHE_FILE_PREFIX| + |STAGING_SUFFIX| > 255 then NotCacheable
            else Path(cacheDir + DirName(relative) + fileName)
  }

  datatype UrlResult = NotACachePath | Url(url: string)

  predicate IsFinalizedCachePath(path: string) {
    CACHE_FILE_PREFIX <= FileName(path)
  }

  function GetURLForCacheFilePath(cacheDir: string, path: string): UrlResult {
    if !(cacheDir <= path) then NotACachePath
    else
      var relative := path[|cacheDir|..];
      if From(relative, '/') == [] || !IsFinalizedCachePath(path) then NotACachePath
      else
        var name := FileName(From(relative, '/'));
        if |name| < |CACHE_FILE_PREFIX| then NotACachePath
        else Url(Before(relative, '/') + ":/" + DirName(From(relative, '/')) + name[|CACHE_FILE_PREFIX|..])
  }

  // ----- URLs in parts -----

  /** Protocol, directory from the host on, file name and query of a cached URL. */
  datatype Parts = Parts(protocol: string, dir: string, file: string, query: string)

  predicate ValidParts(u: Parts) {
    && Protocol(u.protocol)
    && u.dir != [] && u.dir[0] == '/' && IsDir(u.dir) && !Has(u.dir, '?')
    && !Has(u.file, '/') && !Has(u.file, '?')
    && StartsAt(u.query, '?')
  }

  function UrlOf(u: Parts): string {
    u.protocol + ":/" + (u.dir + u.file + u.query)
  }

  /** The part of the query that becomes part of the file name. */
  function KeptQuery(u: Parts): string {
    if IsHttp(u.protocol) then u.query else []
  }

  function CachedName(u: Parts): string {
    CACHE_FILE_PREFIX + u.file + KeptQuery(u)
  }

  lemma ProtocolChars(p: string)
    requires Protocol(p)
    ensures !Has(p, ':') && !Has(p, '/') && !Has(p, '?') && p != []
  {
  }

  lemma WhichProtocol(url: string) returns (p: string)
    requires HasCachedProtocol(url)
    ensures Protocol(p) && p + "://" <= url
  {
    if "s3://" <= url { p := "s3"; assert p + "://" == "s3://"; }
    else if "gs://" <= url { p := "gs"; assert p + "://" == "gs://"; }
    else if "azure://" <= url { p := "azure"; assert p + "://" == "azure://"; }
    else if "az://" <= url { p := "az"; assert p + "://" == "az://"; }
    else if "abfss://" <= url { p := "abfss"; assert p + "://" == "abfss://"; }
    else if "https://" <= url { p := "https"; assert p + "://" == "https://"; }
    else if "http://" <= url { p := "http"; assert p + "://" == "http://"; }
    else if "hf://" <= url { p := "hf"; assert p + "://" == "hf://"; }
    else { p := "r2"; assert p + "://" == "r2://"; }
  }

  lemma {:induction false} SchemeFound(p: string, rest: string)
    requires !Has(p, ':')
    ensures FindScheme(p + ("://" + rest)) == Some(|p|)
  {
    var url := p + ("://" + rest);
    if p == [] {
      assert url == "://" + rest;
    } else {
      assert p[0] != ':' && !Has(p[1..], ':');
      assert url[0] == p[0] && "://"[0] == ':';
      assert url[1..] == p[1..] + ("://" + rest);
      SchemeFound(p[1..], rest);
    }
  }

  lemma PartsOf(url: string) returns (u: Parts)
    requires HasCachedProtocol(url)
    ensures ValidParts(u) && url == UrlOf(u)
  {
    var p := WhichProtocol(url);
    u := PartsOfFull(p, url[|p| + 2..]);
    assert url == p + ":/" + url[|p| + 2..];
  }

  lemma PartsOfFull(p: string, full: string) returns (u: Parts)
    requires Protocol(p) && full != [] && full[0] == '/'
    ensures ValidParts(u) && u.protocol == p && u.dir + u.file + u.query == full
  {
    BeforeAndFrom(full, '?');
    var head, query := Before(full, '?'), From(full, '?');
    DirAndFile(head);
    HeadParts(head);
    u := Parts(p, DirName(head), FileName(head), query);
  }

  lemma HeadParts(head: string)
    requires head != [] && head[0] == '/' && !Has(head, '?')
    ensures DirName(head) != [] && DirName(head)[0] == '/' && !Has(DirName(head), '?') && !Has(FileName(head), '?')
  {
    DirAndFile(head);
    var d, f := DirName(head), FileName(head);
    assert d == [] ==> f == head;
    assert forall i :: 0 <= i < |d| ==> d[i] == head[i];
    assert forall i :: 0 <= i < |f| ==> f[i] == head[|d| + i];
  }

  // ----- the mapping in parts -----

  lemma HeadFound(u: Parts)
    requires ValidParts(u)
    ensures Before(u.dir + u.file + u.query, '?') == u.dir + u.file && From(u.dir + u.file + u.query, '?') == u.query
  {
    SplitsAtFirst(u.dir + u.file, u.query, '?');
  }

  lemma RelativeFound(u: Parts)
    requires ValidParts(u)
    ensures DirName(u.protocol + (u.dir + u.file)) == u.protocol + u.dir &&
      FileName(u.protocol + (u.dir + u.file)) == u.file
  {
    SplitsAtLastSlash(u.protocol + u.dir, u.file);
    assert u.protocol + (u.dir + u.file) == u.protocol + u.dir + u.file;
  }

  predicate NameTooLong(u: Parts) {
    |CachedName(u)| + |CACHE_FILE_PREFIX| + |STAGING_SUFFIX| > 255
  }

  function PathOf(cacheDir: string, u: Parts): string {
    cacheDir + (u.protocol + u.dir) + CachedName(u)
  }

  /** The path is computed from the parts; no cacheable URL is rejected as invalid. */
  lemma PathInParts(cacheDir: string, u: Parts)
    requires ValidParts(u)
    ensures TryGetCacheFilePath(cacheDir, UrlOf(u)) ==
      if !IsCacheableURL(cacheDir, UrlOf(u)) || NameTooLong(u) then NotCacheable else Path(PathOf(cacheDir, u))
  {
    var url, full := UrlOf(u), u.dir + u.file + u.query;
    ProtocolChars(u.protocol);
    assert url == u.protocol + ("://" + full[1..]);
    SchemeFound(u.protocol, full[1..]);
    assert url[..|u.protocol|] == u.protocol && url[|u.protocol| + 2..] == full;
    HeadFound(u);
    RelativeFound(u);
  }

  // ----- two URLs with one path -----

  /** What identifies a cached file: the URL, without its query unless the protocol is http(s). */
  function Normalized(url: string): string {
    if "http" <= url then url else Before(url, '?')
  }

  function KeyParts(u: Parts): Parts {
    u.(query := KeptQuery(u))
  }

  lemma KeyIsNormalized(u: Parts)
    requires ValidParts(u)
    ensures UrlOf(KeyParts(u)) == Normalized(UrlOf(u)) && ValidParts(KeyParts(u))
  {
    QueryInUrl(u);
    if !IsHttp(u.protocol) {
      assert UrlOf(KeyParts(u)) == u.protocol + ":/" + (u.dir + u.file);
    }
  }

  lemma UrlSplits(u: Parts)
    requires ValidParts(u)
    ensures Before(UrlOf(u), ':') == u.protocol && From(UrlOf(u), ':') == ":/" + (u.dir + u.file + u.query)
  {
    ProtocolChars(u.protocol);
    SplitsAtFirst(u.protocol, ":/" + (u.dir + u.file + u.query), ':');
    assert UrlOf(u) == u.protocol + (":/" + (u.dir + u.file + u.query));
  }

  lemma RestDeterminesParts(u: Parts, v: Parts)
    requires ValidParts(u) && ValidParts(v) && u.dir + u.file + u.query == v.dir + v.file + v.query
    ensures u.dir == v.dir && u.file == v.file && u.query == v.query
  {
    HeadFound(u);
    HeadFound(v);
    SplitsAtLastSlash(u.dir, u.file);
    SplitsAtLastSlash(v.dir, v.file);
  }

  lemma UrlDeterminesParts(u: Parts, v: Parts)
    requires ValidParts(u) && ValidParts(v) && UrlOf(u) == UrlOf(v)
    ensures u == v
  {
    UrlSplits(u);
    UrlSplits(v);
    assert u.dir + u.file + u.query == (":/" + (u.dir + u.file + u.query))[2..];
    assert v.dir + v.file + v.query == (":/" + (v.dir + v.file + v.query))[2..];
    RestDeterminesParts(u, v);
  }

  lemma NamedParts(u: Parts)
    requires ValidParts(u)
    ensures Before(u.dir + CachedName(u), '?') == u.dir + (CACHE_FILE_PREFIX + u.file)
    ensures From(u.dir + CachedName(u), '?') == KeptQuery(u)
    ensures DirName(u.dir + (CACHE_FILE_PREFIX + u.file)) == u.dir
    ensures FileName(u.dir + (CACHE_FILE_PREFIX + u.file)) == CACHE_FILE_PREFIX + u.file
  {
    assert u.dir + CachedName(u) == u.dir + (CACHE_FILE_PREFIX + u.file) + KeptQuery(u);
    SplitsAtFirst(u.dir + (CACHE_FILE_PREFIX + u.file), KeptQuery(u), '?');
    SplitsAtLastSlash(u.dir, CACHE_FILE_PREFIX + u.file);
  }

  lemma PathSplits(cacheDir: string, u: Parts)
    requires ValidParts(u)
    ensures cacheDir <= PathOf(cacheDir, u)
    ensures var relative := PathOf(cacheDir, u)[|cacheDir|..];
      Before(relative, '/') == u.protocol && From(relative, '/') == u.dir + CachedName(u)
  {
    ProtocolChars(u.protocol);
    assert PathOf(cacheDir, u) == cacheDir + (u.protocol + (u.dir + CachedName(u)));
    SplitsAtFirst(u.protocol, u.dir + CachedName(u), '/');
  }

  lemma PathDeterminesKey(cacheDir: string, u: Parts, v: Parts)
    requires ValidParts(u) && ValidParts(v) && PathOf(cacheDir, u) == PathOf(cacheDir, v)
    ensures KeyParts(u) == KeyParts(v)
  {
    PathSplits(cacheDir, u);
    PathSplits(cacheDir, v);
    NamedParts(u);
    NamedParts(v);
    assert u.file == (CACHE_FILE_PREFIX + u.file)[|CACHE_FILE_PREFIX|..];
    assert v.file == (CACHE_FILE_PREFIX + v.file)[|CACHE_FILE_PREFIX|..];
  }

  /** Two cached URLs share a path exactly if they agree up to the query, or altogether for http(s). */
  lemma SamePathIffSameFile(cacheDir: string, a: string, b: string)
    requires TryGetCacheFilePath(cacheDir, a).Path? && TryGetCacheFilePath(cacheDir, b).Path?
    ensures TryGetCacheFilePath(cacheDir, a) == TryGetCacheFilePath(cacheDir, b) <==> Normalized(a) == Normalized(b)
  {
    var u := PartsOf(a);
    var v := PartsOf(b);
    PathInParts(cacheDir, u);
    PathInParts(cacheDir, v);
    KeyIsNormalized(u);
    KeyIsNormalized(v);
    if Normalized(a) == Normalized(b) {
      UrlDeterminesParts(KeyParts(u), KeyParts(v));
    } else if PathOf(cacheDir, u) == PathOf(cacheDir, v) {
      PathDeterminesKey(cacheDir, u, v);
      assert false;
    }
  }

  /** No URL that passes the cacheability test is rejected as malformed. */
  lemma CacheableIsNeverInvalid(cacheDir: string, url: string)
    ensures !TryGetCacheFilePath(cacheDir, url).InvalidURL?
  {
    if IsCacheableURL(cacheDir, url) {
      var u := PartsOf(url);
      PathInParts(cacheDir, u);
    }
  }

  // ----- from the path back to the URL -----

  lemma NameOfPath(cacheDir: string, u: Parts)
    requires ValidParts(u) && !Has(KeptQuery(u), '/')
    ensures DirName(u.dir + CachedName(u)) == u.dir && FileName(u.dir + CachedName(u)) == CachedName(u)
    ensures FileName(PathOf(cacheDir, u)) == CachedName(u)
  {
    SplitsAtLastSlash(u.dir, CachedName(u));
    SplitsAtLastSlash(cacheDir + (u.protocol + u.dir), CachedName(u));
  }

  lemma UrlComesBack(cacheDir: string, u: Parts)
    requires ValidParts(u) && !Has(KeptQuery(u), '/')
    ensures GetURLForCacheFilePath(cacheDir, PathOf(cacheDir, u)) == Url(UrlOf(KeyParts(u)))
  {
    PathSplits(cacheDir, u);
    NameOfPath(cacheDir, u);
    NamePrefix(u);
    RegroupUrl(u.protocol + ":/", u.dir, u.file, KeptQuery(u));
  }

  lemma NamePrefix(u: Parts)
    ensures CACHE_FILE_PREFIX <= CachedName(u) && CachedName(u)[|CACHE_FILE_PREFIX|..] == u.file + KeptQuery(u)
  {
  }

  lemma RegroupUrl(p: string, d: string, f: string, q: string)
    ensures p + d + (f + q) == p + (d + f + q)
  {
  }

  /** The kept query up to its last slash, and the rest. */
  lemma SlashedQuery(u: Parts)
    requires ValidParts(u) && Has(KeptQuery(u), '/')
    ensures var a, b := DirName(KeptQuery(u)), FileName(KeptQuery(u));
      KeptQuery(u) == a + b && a != [] && a[0] == '?' && IsDir(a) && !Has(b, '/')
  {
    DirAndFile(KeptQuery(u));
    var q, a, b := KeptQuery(u), DirName(KeptQuery(u)), FileName(KeptQuery(u));
    assert a == [] ==> b == q;
  }

  /** The URL that a path with a slash in its query is taken for, if it is taken for one at all. */
  function Mistaken(u: Parts): Parts {
    var q := KeptQuery(u);
    Parts(u.protocol, u.dir, CACHE_FILE_PREFIX + u.file,
          DirName(q) + if CACHE_FILE_PREFIX <= FileName(q) then FileName(q)[|CACHE_FILE_PREFIX|..] else [])
  }

  lemma SlashedName(cacheDir: string, u: Parts)
    requires ValidParts(u) && Has(KeptQuery(u), '/')
    ensures var a, b := DirName(KeptQuery(u)), FileName(KeptQuery(u));
      && DirName(u.dir + CachedName(u)) == u.dir + (CACHE_FILE_PREFIX + u.file + a)
      && FileName(u.dir + CachedName(u)) == b
      && FileName(PathOf(cacheDir, u)) == b
  {
    SlashedQuery(u);
    var a, b := DirName(KeptQuery(u)), FileName(KeptQuery(u));
    assert u.dir + CachedName(u) == u.dir + (CACHE_FILE_PREFIX + u.file + a) + b;
    SplitsAtLastSlash(u.dir + (CACHE_FILE_PREFIX + u.file + a), b);
    assert PathOf(cacheDir, u) == cacheDir + (u.protocol + u.dir) + (CACHE_FILE_PREFIX + u.file + a) + b;
    SplitsAtLastSlash(cacheDir + (u.protocol + u.dir) + (CACHE_FILE_PREFIX + u.file + a), b);
  }

  lemma SlashedUrl(cacheDir: string, u: Parts)
    requires ValidParts(u) && Has(KeptQuery(u), '/')
    ensures ValidParts(Mistaken(u))
    ensures GetURLForCacheFilePath(cacheDir, PathOf(cacheDir, u)) ==
      if CACHE_FILE_PREFIX <= FileName(KeptQuery(u)) then Url(UrlOf(Mistaken(u))) else NotACachePath
  {
    SlashedQuery(u);
    PathSplits(cacheDir, u);
    SlashedName(cacheDir, u);
    var a, b := DirName(KeptQuery(u)), FileName(KeptQuery(u));
    if CACHE_FILE_PREFIX <= b {
      Regroup(u.protocol + ":/", u.dir, CACHE_FILE_PREFIX + u.file, a, b[|CACHE_FILE_PREFIX|..]);
    }
  }

  lemma Regroup(p: string, d: string, f: string, a: string, b: string)
    ensures p + (d + (f + a)) + b == p + (d + f + (a + b))
  {
  }

  lemma MistakenIsOther(u: Parts)
    ensures Mistaken(u) != KeyParts(u)
  {
    assert |Mistaken(u).file| == |CACHE_FILE_PREFIX| + |u.file|;
  }

  /** A cached URL is found again from its path, up to a query that was dropped, exactly if no slash
      is in a query that was kept. */
  lemma UrlComesBackIffNoSlash(cacheDir: string, url: string)
    requires TryGetCacheFilePath(cacheDir, url).Path?
    ensures GetURLForCacheFilePath(cacheDir, TryGetCacheFilePath(cacheDir, url).path) == Url(Normalized(url))
      <==> !("http" <= url && Has(From(url, '?'), '/'))
  {
    var u := PartsOf(url);
    PathInParts(cacheDir, u);
    KeyIsNormalized(u);
    QueryInUrl(u);
    if Has(KeptQuery(u), '/') {
      SlashedUrl(cacheDir, u);
      MistakenIsOther(u);
      if UrlOf(Mistaken(u)) == UrlOf(KeyParts(u)) {
        UrlDeterminesParts(Mistaken(u), KeyParts(u));
        assert false;
      }
    } else {
      UrlComesBack(cacheDir, u);
    }
  }

  lemma HttpUrl(u: Parts)
    requires ValidParts(u)
    ensures "http" <= UrlOf(u) <==> IsHttp(u.protocol)
  {
    ProtocolChars(u.protocol);
    var url := UrlOf(u);
    assert url[0] == u.protocol[0] && url[1] == u.protocol[1];
    if IsHttp(u.protocol) {
      assert u.protocol <= url;
    } else {
      assert !(u.protocol[0] == 'h' && u.protocol[1] == 't');
      assert "http"[0] == 'h' && "http"[1] == 't';
    }
  }

  lemma QueryInUrl(u: Parts)
    requires ValidParts(u)
    ensures Before(UrlOf(u), '?') == u.protocol + ":/" + (u.dir + u.file) && From(UrlOf(u), '?') == u.query
    ensures "http" <= UrlOf(u) <==> IsHttp(u.protocol)
  {
    ProtocolChars(u.protocol);
    HttpUrl(u);
    SplitsAtFirst(u.protocol + ":/" + (u.dir + u.file), u.query, '?');
    assert UrlOf(u) == u.protocol + ":/" + (u.dir + u.file) + u.query;
  }

  /** The path is eight characters longer than directory and URL together. The length test compares
      the URL, so a path may be longer than the limit it is meant to keep. */
  lemma PathLength(cacheDir: string, url: string)
    requires TryGetCacheFilePath(cacheDir, url).Path?
    ensures |TryGetCacheFilePath(cacheDir, url).path| == |cacheDir| + |Normalized(url)| + 8
  {
    var u := PartsOf(url);
    PathInParts(cacheDir, u);
    KeyIsNormalized(u);
  }

  /** The name of a cache file leaves room for the staging suffix. */
  lemma NameFits(cacheDir: string, url: string)
    requires TryGetCacheFilePath(cacheDir, url).Path?
    ensures |FileName(TryGetCacheFilePath(cacheDir, url).path)| + |STAGING_SUFFIX| <= 245
  {
    var u := PartsOf(url);
    PathInParts(cacheDir, u);
    if Has(KeptQuery(u), '/') {
      SlashedName(cacheDir, u);
      DirAndFile(KeptQuery(u));
    } else {
      NameOfPath(cacheDir, u);
    }
  }

  // ----- eviction by URL -----

  lemma {:induction false} SegmentsSplit(a: string, b: string)
    ensures Segments(a + ("/" + b)) == Segments(a) + Segments(b)
    decreases |a|
  {
    BeforeAndFrom(a, '/');
    var first, rest := Before(a, '/'), From(a, '/');
    if rest == [] {
      SplitsAtFirst(a, "/" + b, '/');
      assert ("/" + b)[1..] == b;
    } else {
      SplitsAtFirst(first, rest + ("/" + b), '/');
      SlashTail(first, rest, a, b);
      SegmentsSplit(rest[1..], b);
      assert Segments(a + ("/" + b)) == [first] + Segments(rest[1..] + ("/" + b));
    }
  }

  lemma SlashTail(first: string, rest: string, a: string, b: string)
    requires a == first + rest && rest != []
    ensures first + (rest + ("/" + b)) == a + ("/" + b)
    ensures (rest + ("/" + b))[1..] == rest[1..] + ("/" + b)
  {
  }

  lemma SegmentsOkSplit(a: string, b: string)
    ensures SegmentsOk(a + ("/" + b)) <==> SegmentsOk(a) && SegmentsOk(b)
  {
    SegmentsSplit(a, b);
    var x, y := Segments(a), Segments(b);
    assert forall i :: 0 <= i < |x| ==> (x + y)[i] == x[i];
    assert forall i :: 0 <= i < |y| ==> (x + y)[|x| + i] == y[i];
  }

  lemma FileSegment(file: string, query: string)
    requires !Has(file, '/') && SegmentsOk(file + query)
    ensures SegmentsOk(file) <==> file != ".."
  {
    SplitsAtFirst(file, [], '/');
    assert file + [] == file;
    assert Segments(file) == [file];
    BeforeAndFrom(query, '/');
    var first := file + Before(query, '/');
    SplitsAtFirst(first, From(query, '/'), '/');
    assert first + From(query, '/') == file + query;
    FirstSegment(file + query);
    assert SegmentOk(Segments(file + query)[0]);
    assert SegmentsOk(file) <==> SegmentOk(Segments(file)[0]);
  }

  lemma FirstSegment(s: string)
    ensures Segments(s)[0] == Before(s, '/')
  {
    BeforeAndFrom(s, '/');
    if From(s, '/') == [] {
      assert Before(s, '/') + [] == Before(s, '/');
    }
  }

  /** Dropping the query keeps a URL cacheable exactly if that does not leave the name "..". */
  lemma WithoutQuery(cacheDir: string, u: Parts)
    requires ValidParts(u) && IsCacheableURL(cacheDir, UrlOf(u))
    ensures IsCacheableURL(cacheDir, UrlOf(u.(query := []))) <==> u.file != ".."
  {
    var dir := u.protocol + ":/" + u.dir[..|u.dir| - 1];
    assert u.dir == u.dir[..|u.dir| - 1] + "/";
    assert UrlOf(u) == dir + ("/" + (u.file + u.query));
    assert UrlOf(u.(query := [])) == dir + ("/" + u.file);
    SegmentsOkSplit(dir, u.file + u.query);
    SegmentsOkSplit(dir, u.file);
    FileSegment(u.file, u.query);
    ProtocolKept(u, u.(query := []));
  }

  lemma ProtocolKept(u: Parts, v: Parts)
    requires ValidParts(u) && ValidParts(v) && u.protocol == v.protocol && HasCachedProtocol(UrlOf(u))
    ensures HasCachedProtocol(UrlOf(v))
  {
    var rest := v.dir + v.file + v.query;
    assert UrlOf(v) == u.protocol + "://" + rest[1..];
    ProtocolUrl(u.protocol, rest[1..]);
  }

  lemma ProtocolUrl(p: string, rest: string)
    requires Protocol(p)
    ensures HasCachedProtocol(p + "://" + rest)
  {
    var url := p + "://" + rest;
    assert p + "://" <= url;
    if p == "s3" { assert p + "://" == "s3://"; }
    else if p == "gs" { assert p + "://" == "gs://"; }
    else if p == "azure" { assert p + "://" == "azure://"; }
    else if p == "az" { assert p + "://" == "az://"; }
    else if p == "abfss" { assert p + "://" == "abfss://"; }
    else if p == "https" { assert p + "://" == "https://"; }
    else if p == "http" { assert p + "://" == "http://"; }
    else if p == "hf" { assert p + "://" == "hf://"; }
    else { assert p + "://" == "r2://"; }
  }

  /** The wildcard characters of the file system interface. */
  predicate HasGlob(s: string) {
    Has(s, '*') || Has(s, '?') || Has(s, '[')
  }

  datatype Removal = Throws | Removes(path: string)

  /** The file that removal of a URL deletes, if it does not throw. */
  function RemoveTarget(cacheDir: string, url: string): Removal {
    match TryGetCacheFilePath(cacheDir, url)
    case Path(path) => if HasGlob(Before(url, '?')) then Throws else Removes(path)
    case _ => Throws
  }

  /** Eviction turns a listed path into a URL and removes the file of that URL. */
  function EvictionTarget(cacheDir: string, path: string): Removal {
    match GetURLForCacheFilePath(cacheDir, path)
    case NotACachePath => Throws
    case Url(url) => RemoveTarget(cacheDir, url)
  }

  predicate EvictionHits(cacheDir: string, path: string) {
    EvictionTarget(cacheDir, path) == Removes(path)
  }

  lemma GlobInParts(u: Parts)
    requires ValidParts(u)
    ensures Before(UrlOf(KeyParts(u)), '?') == Before(UrlOf(u), '?')
  {
    QueryInUrl(u);
    KeyIsNormalized(u);
    QueryInUrl(KeyParts(u));
  }

  lemma PlainTarget(cacheDir: string, u: Parts)
    requires ValidParts(u) && !Has(KeptQuery(u), '/') && IsCacheableURL(cacheDir, UrlOf(u)) && !NameTooLong(u)
    ensures EvictionTarget(cacheDir, PathOf(cacheDir, u)) ==
      if (IsHttp(u.protocol) || u.file != "..") && !HasGlob(Before(UrlOf(u), '?')) then Removes(PathOf(cacheDir, u))
      else Throws
  {
    UrlComesBack(cacheDir, u);
    PathInParts(cacheDir, KeyParts(u));
    GlobInParts(u);
    if !IsHttp(u.protocol) {
      WithoutQuery(cacheDir, u);
    }
  }

  lemma SlashedMisses(cacheDir: string, u: Parts)
    requires ValidParts(u) && Has(KeptQuery(u), '/')
    ensures !EvictionHits(cacheDir, PathOf(cacheDir, u))
  {
    SlashedUrl(cacheDir, u);
    MistakenIsOther(u);
    PathInParts(cacheDir, Mistaken(u));
    if PathOf(cacheDir, Mistaken(u)) == PathOf(cacheDir, u) {
      PathDeterminesKey(cacheDir, Mistaken(u), u);
      assert false;
    }
  }

  /** What a cached URL must look like for eviction to reach its file. */
  predicate Evictable(url: string) {
    && !HasGlob(Before(url, '?'))
    && if "http" <= url then !Has(From(url, '?'), '/') else FileName(Before(url, '?')) != ".."
  }

  lemma EvictableInParts(u: Parts)
    requires ValidParts(u)
    ensures Evictable(UrlOf(u)) <==>
      !HasGlob(Before(UrlOf(u), '?')) && !Has(KeptQuery(u), '/') && (IsHttp(u.protocol) || u.file != "..")
  {
    QueryInUrl(u);
    SplitsAtLastSlash(u.protocol + ":/" + u.dir, u.file);
    assert u.protocol + ":/" + (u.dir + u.file) == u.protocol + ":/" + u.dir + u.file;
  }

  /** Eviction removes the listed file exactly if the URL has no wildcard before its query, a kept
      query has no slash, and a dropped query does not leave a file named "..". */
  lemma EvictionHitsIff(cacheDir: string, url: string)
    requires TryGetCacheFilePath(cacheDir, url).Path?
    ensures EvictionHits(cacheDir, TryGetCacheFilePath(cacheDir, url).path) <==> Evictable(url)
  {
    var u := PartsOf(url);
    PathInParts(cacheDir, u);
    EvictableInParts(u);
    if Has(KeptQuery(u), '/') {
      SlashedMisses(cacheDir, u);
    } else {
      PlainTarget(cacheDir, u);
    }
  }

  /** Where no slash is in a kept query, a miss is an error that ends the whole pass. */
  lemma MissWithoutSlashThrows(cacheDir: string, url: string)
    requires TryGetCacheFilePath(cacheDir, url).Path? && !Evictable(url)
    requires !("http" <= url && Has(From(url, '?'), '/'))
    ensures EvictionTarget(cacheDir, TryGetCacheFilePath(cacheDir, url).path) == Throws
  {
    var u := PartsOf(url);
    PathInParts(cacheDir, u);
    EvictableInParts(u);
    QueryInUrl(u);
    PlainTarget(cacheDir, u);
  }

  // ----- URLs whose files are missed -----

  lemma OneSegment(s: string)
    requires !Has(s, '/')
    ensures SegmentsOk(s) <==> SegmentOk(s)
  {
    SplitsAtFirst(s, [], '/');
    assert s + [] == s;
    assert Segments(s) == [s];
    assert SegmentsOk(s) <==> SegmentOk(Segments(s)[0]);
  }

  lemma ProtocolSegments(protocol: string)
    requires Protocol(protocol)
    ensures SegmentsOk(protocol + ":/")
  {
    ProtocolChars(protocol);
    assert !Has(protocol + ":", '/');
    assert |protocol| <= 5;
    OneSegment(protocol + ":");
    assert !Has("", '/');
    OneSegment("");
    SegmentsOkSplit(protocol + ":", "");
    assert protocol + ":" + ("/" + "") == protocol + ":/";
  }

  /** A URL of a file directly below its host. */
  lemma ShortUrlCacheable(cacheDir: string, u: Parts, host: string)
    requires ValidParts(u) && u.dir == "/" + host + "/" && !Has(host, '/') && SegmentOk(host)
    requires |cacheDir| + |UrlOf(u)| < 4095 && SegmentsOk(u.file + u.query)
    ensures IsCacheableURL(cacheDir, UrlOf(u))
  {
    var tail := u.file + u.query;
    ProtocolSegments(u.protocol);
    OneSegment(host);
    SegmentsOkSplit(host, tail);
    SegmentsOkSplit(u.protocol + ":/", host + ("/" + tail));
    assert UrlOf(u) == u.protocol + ":/" + ("/" + (host + ("/" + tail)));
    ProtocolUrl(u.protocol, host + ("/" + tail));
    assert UrlOf(u) == u.protocol + "://" + (host + ("/" + tail));
  }

  lemma ParentExample(u: Parts)
    requires u == Parts("s3", "/" + "b" + "/", "..", "?x")
    ensures ValidParts(u) && IsCacheableURL("/c/", UrlOf(u)) && !NameTooLong(u) && KeptQuery(u) == []
  {
    OneSegment("..?x");
    assert u.file + u.query == "..?x";
    ShortUrlCacheable("/c/", u, "b");
  }

  /** A dropped query that leaves "..": the URL is rejected, and the pass ends. */
  lemma ParentNameThrows(u: Parts)
    requires u == Parts("s3", "/" + "b" + "/", "..", "?x")
    ensures UrlOf(u) == "s3://b/..?x"
    ensures TryGetCacheFilePath("/c/", UrlOf(u)).Path?
    ensures EvictionTarget("/c/", TryGetCacheFilePath("/c/", UrlOf(u)).path) == Throws
  {
    ParentExample(u);
    PathInParts("/c/", u);
    assert !IsHttp("s3");
    ParentThrows("/c/", u);
  }

  lemma ParentThrows(cacheDir: string, u: Parts)
    requires ValidParts(u) && !IsHttp(u.protocol) && u.file == ".."
    requires IsCacheableURL(cacheDir, UrlOf(u)) && !NameTooLong(u)
    ensures EvictionTarget(cacheDir, PathOf(cacheDir, u)) == Throws
  {
    PlainTarget(cacheDir, u);
  }

  lemma WildcardExample(u: Parts)
    requires u == Parts("s3", "/" + "b" + "/", "[", "")
    ensures ValidParts(u) && IsCacheableURL("/c/", UrlOf(u)) && !NameTooLong(u) && KeptQuery(u) == []
  {
    OneSegment("[");
    assert u.file + u.query == "[";
    ShortUrlCacheable("/c/", u, "b");
  }

  lemma NameGlob(u: Parts, i: nat)
    requires ValidParts(u) && i < |u.file| && u.file[i] == '['
    ensures HasGlob(Before(UrlOf(u), '?'))
  {
    QueryInUrl(u);
    var before := u.protocol + ":/" + (u.dir + u.file);
    assert before[|u.protocol| + 2 + |u.dir| + i] == '[';
  }

  /** A wildcard character in the name: the file may be cached on write, but eviction throws. */
  lemma WildcardThrows(u: Parts)
    requires u == Parts("s3", "/" + "b" + "/", "[", "")
    ensures UrlOf(u) == "s3://b/["
    ensures TryGetCacheFilePath("/c/", UrlOf(u)).Path?
    ensures EvictionTarget("/c/", TryGetCacheFilePath("/c/", UrlOf(u)).path) == Throws
  {
    WildcardExample(u);
    PathInParts("/c/", u);
    NameGlob(u, 0);
    PlainTarget("/c/", u);
  }

  /** A slash in a kept query, with a last part that looks like a cache file: eviction removes another
      file and reports this one as removed. */
  lemma OtherFileIsRemoved(cacheDir: string, u: Parts)
    requires ValidParts(u) && IsCacheableURL(cacheDir, UrlOf(u)) && !NameTooLong(u)
    requires Has(KeptQuery(u), '/') && CACHE_FILE_PREFIX <= FileName(KeptQuery(u))
    requires IsCacheableURL(cacheDir, UrlOf(Mistaken(u))) && !NameTooLong(Mistaken(u))
    requires !HasGlob(Before(UrlOf(Mistaken(u)), '?'))
    ensures TryGetCacheFilePath(cacheDir, UrlOf(u)) == Path(PathOf(cacheDir, u))
    ensures EvictionTarget(cacheDir, PathOf(cacheDir, u)) == Removes(PathOf(cacheDir, Mistaken(u)))
    ensures PathOf(cacheDir, Mistaken(u)) != PathOf(cacheDir, u)
  {
    PathInParts(cacheDir, u);
    SlashedUrl(cacheDir, u);
    PathInParts(cacheDir, Mistaken(u));
    SlashedMisses(cacheDir, u);
  }
}
