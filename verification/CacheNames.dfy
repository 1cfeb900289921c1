/** Which cached URLs share a file. The file system reads repeated slashes and `.` parts away, so
    different paths may name one file. */
module CacheNames {

  import opened CachePaths

  predicate Skipped(part: string) {
    part == "" || part == "."
  }

  function Kept(parts: seq<string>): seq<string> {
    if parts == [] then [] else (if Skipped(parts[0]) then [] else [parts[0]]) + Kept(parts[1..])
  }

  /** The parts of a path as the file system reads them. */
  function Canon(path: string): seq<string> {
    Kept(Segments(path))
  }

  lemma {:induction false} KeptConcat(a: seq<string>, b: seq<string>)
    ensures Kept(a + b) == Kept(a) + Kept(b)
  {
    if a == [] {
      assert a + b == b;
    } else {
      assert (a + b)[1..] == a[1..] + b;
      KeptConcat(a[1..], b);
    }
  }

  lemma CanonSplit(a: string, b: string)
    ensures Canon(a + ("/" + b)) == Canon(a) + Canon(b)
  {
    SegmentsSplit(a, b);
    KeptConcat(Segments(a), Segments(b));
  }

  lemma CanonOne(s: string)
    requires !Has(s, '/')
    ensures Canon(s) == if Skipped(s) then [] else [s]
  {
    SplitsAtFirst(s, [], '/');
    assert s + [] == s;
    assert Segments(s) == [s];
    assert [s][1..] == [] && Kept([s][1..]) == [];
  }

  lemma CanonEmpty()
    ensures Canon("") == [] && Canon(".") == []
  {
    assert !Has("", '/') && !Has(".", '/');
    CanonOne("");
    CanonOne(".");
  }

  lemma CanonLeading(b: string)
    ensures Canon("/" + b) == Canon(b) && Canon("." + ("/" + b)) == Canon(b)
  {
    CanonEmpty();
    CanonSplit("", b);
    CanonSplit(".", b);
    assert "" + ("/" + b) == "/" + b && [] + Canon(b) == Canon(b);
  }

  /** Repeated slashes and `.` parts make no difference. */
  lemma SlashesAndDots(a: string, b: string)
    ensures Canon(a + ("/" + ("/" + b))) == Canon(a + ("/" + b))
    ensures Canon(a + ("/" + ("." + ("/" + b)))) == Canon(a + ("/" + b))
  {
    CanonLeading(b);
    CanonSplit(a, b);
    CanonSplit(a, "/" + b);
    CanonSplit(a, "." + ("/" + b));
  }

  // ----- the parts of a cache path -----

  lemma CanonHead(p: string, rest: string)
    requires !Has(p, '/') && !Skipped(p)
    ensures Canon(p + ("/" + rest)) == [p] + Canon("/" + rest)
  {
    CanonSplit(p, rest);
    CanonOne(p);
    CanonLeading(rest);
  }

  lemma CanonDir(u: Parts)
    requires ValidParts(u)
    ensures Canon(u.protocol + u.dir) == [u.protocol] + Canon(u.dir)
  {
    ProtocolChars(u.protocol);
    assert u.protocol != ".";
    CanonHead(u.protocol, u.dir[1..]);
    assert u.dir == "/" + u.dir[1..];
  }

  lemma CanonTrailing(a: string)
    requires a != [] && a[|a| - 1] == '/'
    ensures Canon(a) == Canon(a[..|a| - 1])
  {
    var init := a[..|a| - 1];
    assert a == init + ("/" + "");
    CanonSplit(init, "");
    CanonEmpty();
    assert Canon(init) + [] == Canon(init);
  }

  lemma CanonAfterDir(a: string, b: string)
    requires a != [] && a[|a| - 1] == '/'
    ensures Canon(a + b) == Canon(a) + Canon(b)
  {
    var init := a[..|a| - 1];
    assert a + b == init + ("/" + b);
    CanonSplit(init, b);
    CanonTrailing(a);
  }

  lemma CanonPath(cacheDir: string, u: Parts)
    requires ValidParts(u) && cacheDir != [] && cacheDir[|cacheDir| - 1] == '/'
    ensures Canon(PathOf(cacheDir, u)) == Canon(cacheDir) + ([u.protocol] + (Canon(u.dir) + Canon(CachedName(u))))
  {
    var d := u.protocol + u.dir;
    CanonAfterDir(cacheDir + d, CachedName(u));
    CanonAfterDir(cacheDir, d);
    CanonDir(u);
    Regroup(Canon(cacheDir), [u.protocol], Canon(u.dir), Canon(CachedName(u)));
  }

  lemma Regroup(a: seq<string>, b: seq<string>, c: seq<string>, d: seq<string>)
    ensures a + (b + c) + d == a + (b + (c + d))
  {
  }

  // ----- where the directory ends -----

  /** The parts of a cached name: one, or several of which the first has the question mark. */
  predicate NameParts(x: seq<string>) {
    x != [] && (Has(x[0], '?') || |x| == 1)
  }

  predicate NoQuestion(a: seq<string>) {
    forall i :: 0 <= i < |a| ==> !Has(a[i], '?')
  }

  lemma SameSplit(a: seq<string>, x: seq<string>, b: seq<string>, y: seq<string>)
    requires NoQuestion(a) && NoQuestion(b) && NameParts(x) && NameParts(y) && a + x == b + y
    ensures a == b && x == y
  {
    assert (a + x)[|a|] == x[0] && (b + y)[|b|] == y[0];
    assert |a| == |b|;
    assert a == (a + x)[..|a|] && b == (b + y)[..|b|];
    assert x == (a + x)[|a|..] && y == (b + y)[|b|..];
  }

  lemma {:induction false} KeptFrom(parts: seq<string>, c: char)
    requires forall i :: 0 <= i < |parts| ==> !Has(parts[i], c)
    ensures forall i :: 0 <= i < |Kept(parts)| ==> !Has(Kept(parts)[i], c)
  {
    if parts != [] {
      KeptFrom(parts[1..], c);
    }
  }

  lemma HasNeither(a: string, b: string, c: char)
    requires !Has(a + b, c)
    ensures !Has(a, c) && !Has(b, c)
  {
    assert forall i :: 0 <= i < |a| ==> (a + b)[i] == a[i];
    assert forall i :: 0 <= i < |b| ==> (a + b)[|a| + i] == b[i];
  }

  lemma {:induction false} SegmentsWithout(s: string, c: char)
    requires !Has(s, c)
    ensures forall i :: 0 <= i < |Segments(s)| ==> !Has(Segments(s)[i], c)
    decreases |s|
  {
    BeforeAndFrom(s, '/');
    var first, rest := Before(s, '/'), From(s, '/');
    HasNeither(first, rest, c);
    if rest != [] {
      assert rest == [rest[0]] + rest[1..];
      HasNeither([rest[0]], rest[1..], c);
      SegmentsWithout(rest[1..], c);
    }
  }

  lemma DirHasNoQuestion(u: Parts)
    requires ValidParts(u)
    ensures NoQuestion(Canon(u.dir))
  {
    SegmentsWithout(u.dir, '?');
    KeptFrom(Segments(u.dir), '?');
  }

  lemma NameHasParts(u: Parts)
    requires ValidParts(u)
    ensures NameParts(Canon(CachedName(u)))
  {
    var head, q := CACHE_FILE_PREFIX + u.file, KeptQuery(u);
    if q == [] {
      assert CachedName(u) == head && !Has(head, '/');
      CanonOne(head);
    } else {
      BeforeAndFrom(q, '/');
      var first := head + Before(q, '/');
      assert Before(q, '/')[0] == '?';
      SplitsAtFirst(first, From(q, '/'), '/');
      assert first + From(q, '/') == CachedName(u);
      FirstSegment(CachedName(u));
      assert first[|head|] == '?' && !Skipped(first);
    }
  }

  /** Two cached URLs in parts share a file if and only if protocol, directory and name agree up to
      repeated slashes and `.` parts. */
  lemma SameFileInParts(cacheDir: string, u: Parts, v: Parts)
    requires ValidParts(u) && ValidParts(v) && cacheDir != [] && cacheDir[|cacheDir| - 1] == '/'
    ensures Canon(PathOf(cacheDir, u)) == Canon(PathOf(cacheDir, v)) <==>
      u.protocol == v.protocol && Canon(u.dir) == Canon(v.dir) && Canon(CachedName(u)) == Canon(CachedName(v))
  {
    CanonPath(cacheDir, u);
    CanonPath(cacheDir, v);
    var c := Canon(cacheDir);
    var x, y := Canon(u.dir) + Canon(CachedName(u)), Canon(v.dir) + Canon(CachedName(v));
    if Canon(PathOf(cacheDir, u)) == Canon(PathOf(cacheDir, v)) {
      assert (c + ([u.protocol] + x))[|c|..] == [u.protocol] + x && (c + ([v.protocol] + y))[|c|..] == [v.protocol] + y;
      assert ([u.protocol] + x)[0] == u.protocol && ([v.protocol] + y)[0] == v.protocol;
      assert ([u.protocol] + x)[1..] == x && ([v.protocol] + y)[1..] == y;
      DirHasNoQuestion(u);
      DirHasNoQuestion(v);
      NameHasParts(u);
      NameHasParts(v);
      SameSplit(Canon(u.dir), Canon(CachedName(u)), Canon(v.dir), Canon(CachedName(v)));
    }
  }

  /** The directory part of a URL, and its name as it is cached, as the file system reads them. */
  function UrlDirs(url: string): seq<string> {
    Canon(DirName(Before(url, '?')))
  }

  function UrlName(url: string): seq<string> {
    Canon(CACHE_FILE_PREFIX + FileName(Before(url, '?')) + if "http" <= url then From(url, '?') else [])
  }

  lemma UrlInParts(u: Parts)
    requires ValidParts(u)
    ensures UrlDirs(UrlOf(u)) == [u.protocol + ":"] + Canon(u.dir) && UrlName(UrlOf(u)) == Canon(CachedName(u))
  {
    QueryInUrl(u);
    SplitsAtLastSlash(u.protocol + ":/" + u.dir, u.file);
    assert u.protocol + ":/" + (u.dir + u.file) == u.protocol + ":/" + u.dir + u.file;
    assert u.protocol + ":/" + u.dir == u.protocol + ":" + ("/" + u.dir);
    CanonSplit(u.protocol + ":", u.dir);
    ProtocolChars(u.protocol);
    assert !Has(u.protocol + ":", '/');
    CanonOne(u.protocol + ":");
  }

  /** Two cached URLs share a file on disk if and only if directory and name agree up to repeated
      slashes and `.` parts; by SlashesAndDots, `s3://b//k`, `s3://b/./k` and `s3://b/k` do. */
  lemma SameFileOnDiskIff(cacheDir: string, a: string, b: string)
    requires cacheDir != [] && cacheDir[|cacheDir| - 1] == '/'
    requires TryGetCacheFilePath(cacheDir, a).Path? && TryGetCacheFilePath(cacheDir, b).Path?
    ensures Canon(TryGetCacheFilePath(cacheDir, a).path) == Canon(TryGetCacheFilePath(cacheDir, b).path) <==>
      UrlDirs(a) == UrlDirs(b) && UrlName(a) == UrlName(b)
  {
    var u := PartsOf(a);
    var v := PartsOf(b);
    PathInParts(cacheDir, u);
    PathInParts(cacheDir, v);
    UrlInParts(u);
    UrlInParts(v);
    SameFileInParts(cacheDir, u, v);
    SameDirs(u, v);
  }

  lemma SameDirs(u: Parts, v: Parts)
    ensures [u.protocol + ":"] + Canon(u.dir) == [v.protocol + ":"] + Canon(v.dir) <==>
      u.protocol == v.protocol && Canon(u.dir) == Canon(v.dir)
  {
    var x, y := [u.protocol + ":"] + Canon(u.dir), [v.protocol + ":"] + Canon(v.dir);
    assert x[0] == u.protocol + ":" && y[0] == v.protocol + ":" && x[1..] == Canon(u.dir) && y[1..] == Canon(v.dir);
    assert u.protocol == (u.protocol + ":")[..|u.protocol|] && v.protocol == (v.protocol + ":")[..|v.protocol|];
  }
}
