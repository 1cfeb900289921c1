/** The list text that arrays are printed as, a reader for it, and that the reader inverts it. */
module ArrayText {

  import opened Basics

  /** A printed element: NULL, a quoted scalar, or a container's own text, which is not quoted. */
  datatype Item = Null | Scalar(text: string) | Container(text: string)

  function CharText(c: char): string {
    if c == '"' || c == '\\' then ['\\', c] else [c]
  }

  function Escaped(s: string): string {
    if s == [] then [] else CharText(s[0]) + Escaped(s[1..])
  }

  function ItemText(v: Item): string {
    match v
    case Null => "NULL"
    case Scalar(t) => ['"'] + Escaped(t) + ['"']
    case Container(t) => t
  }

  /** Repeated addition, so that counts unfold along with the lists they count. */
  function Times(a: nat, b: nat): nat {
    if a == 0 then 0 else b + Times(a - 1, b)
  }

  lemma {:induction false} TimesIsProduct(a: nat, b: nat)
    ensures Times(a, b) == a * b
  {
    if a > 0 {
      TimesIsProduct(a - 1, b);
    }
  }

  function Product(dims: seq<nat>): nat {
    if dims == [] then 1 else Times(dims[0], Product(dims[1..]))
  }

  predicate Positive(dims: seq<nat>) {
    forall i :: 0 <= i < |dims| ==> dims[i] > 0
  }

  /** The text of one value of shape `dims`. */
  function Print(dims: seq<nat>, vals: seq<Item>, delim: char): string
    requires |vals| == Product(dims)
    decreases |dims|, 0
  {
    if dims == [] then ItemText(vals[0])
    else ['['] + Elements(dims[1..], dims[0], vals, delim) + [']']
  }

  /** The texts of `n` values of shape `dims`, separated. */
  function Elements(dims: seq<nat>, n: nat, vals: seq<Item>, delim: char): string
    requires |vals| == Times(n, Product(dims))
    decreases |dims|, n + 1
  {
    if n == 0 then []
    else if n == 1 then Print(dims, vals, delim)
    else
      SplitFirst(dims, n, vals);
      Print(dims, vals[..Product(dims)], delim) + [delim] + Elements(dims, n - 1, vals[Product(dims)..], delim)
  }

  lemma SplitFirst(dims: seq<nat>, n: nat, vals: seq<Item>)
    requires n > 0 && |vals| == Times(n, Product(dims))
    ensures |vals| >= Product(dims) && |vals[Product(dims)..]| == Times(n - 1, Product(dims))
  {
  }

  lemma {:induction false} ProductPositive(dims: seq<nat>)
    requires Positive(dims)
    ensures Product(dims) > 0
  {
    if dims != [] {
      ProductPositive(dims[1..]);
    }
  }

  // ----- length -----

  function ItemsLength(vals: seq<Item>): nat {
    if vals == [] then 0 else |ItemText(vals[0])| + 1 + ItemsLength(vals[1..])
  }

  /** Pairs of brackets in the text. */
  function Brackets(dims: seq<nat>): nat {
    if dims == [] then 0 else 1 + Times(dims[0], Brackets(dims[1..]))
  }

  lemma {:induction false} ItemsLengthSplit(a: seq<Item>, b: seq<Item>)
    ensures ItemsLength(a + b) == ItemsLength(a) + ItemsLength(b)
  {
    if a == [] {
      assert a + b == b;
    } else {
      assert (a + b)[1..] == a[1..] + b;
      ItemsLengthSplit(a[1..], b);
    }
  }

  /** The first pass computes the exact size of the text and its terminator. */
  lemma {:induction false} PrintLength(dims: seq<nat>, vals: seq<Item>, delim: char)
    requires |vals| == Product(dims) && Positive(dims)
    ensures |Print(dims, vals, delim)| + 1 == ItemsLength(vals) + 2 * Brackets(dims)
    decreases |dims|, 0
  {
    if dims == [] {
      assert vals[1..] == [];
    } else {
      ElementsLength(dims[1..], dims[0], vals, delim);
    }
  }

  lemma {:induction false} ElementsLength(dims: seq<nat>, n: nat, vals: seq<Item>, delim: char)
    requires n > 0 && |vals| == Times(n, Product(dims)) && Positive(dims)
    ensures |Elements(dims, n, vals, delim)| + 1 == ItemsLength(vals) + 2 * Times(n, Brackets(dims))
    decreases |dims|, n + 1
  {
    if n == 1 {
      PrintLength(dims, vals, delim);
    } else {
      SplitFirst(dims, n, vals);
      var first, rest := vals[..Product(dims)], vals[Product(dims)..];
      PrintLength(dims, first, delim);
      ElementsLength(dims, n - 1, rest, delim);
      ItemsLengthSplit(first, rest);
      assert first + rest == vals;
    }
  }

  // ----- trees -----

  datatype Tree = Leaf(item: Item) | Node(children: seq<Tree>)

  function Build(dims: seq<nat>, vals: seq<Item>): Tree
    requires |vals| == Product(dims)
    decreases |dims|, 0
  {
    if dims == [] then Leaf(vals[0]) else Node(BuildList(dims[1..], dims[0], vals))
  }

  function BuildList(dims: seq<nat>, n: nat, vals: seq<Item>): (r: seq<Tree>)
    requires |vals| == Times(n, Product(dims))
    ensures |r| == n
    decreases |dims|, n + 1
  {
    if n == 0 then []
    else
      SplitFirst(dims, n, vals);
      [Build(dims, vals[..Product(dims)])] + BuildList(dims, n - 1, vals[Product(dims)..])
  }

  function Shape(t: Tree): seq<nat>
    decreases t
  {
    if t.Leaf? then [] else [|t.children|] + if t.children == [] then [] else Shape(t.children[0])
  }

  function Leaves(t: Tree): seq<Item>
    decreases t
  {
    if t.Leaf? then [t.item] else LeavesOf(t.children)
  }

  function LeavesOf(ts: seq<Tree>): seq<Item>
    decreases ts
  {
    if ts == [] then [] else Leaves(ts[0]) + LeavesOf(ts[1..])
  }

  lemma {:induction false} BuildShape(dims: seq<nat>, vals: seq<Item>)
    requires |vals| == Product(dims) && Positive(dims)
    ensures Shape(Build(dims, vals)) == dims
    decreases |dims|
  {
    if dims != [] {
      SplitFirst(dims[1..], dims[0], vals);
      BuildShape(dims[1..], vals[..Product(dims[1..])]);
      assert dims == [dims[0]] + dims[1..];
    }
  }

  lemma {:induction false} BuildLeaves(dims: seq<nat>, vals: seq<Item>)
    requires |vals| == Product(dims)
    ensures Leaves(Build(dims, vals)) == vals
    decreases |dims|, 0
  {
    if dims != [] {
      BuildListLeaves(dims[1..], dims[0], vals);
    }
  }

  lemma {:induction false} BuildListLeaves(dims: seq<nat>, n: nat, vals: seq<Item>)
    requires |vals| == Times(n, Product(dims))
    ensures LeavesOf(BuildList(dims, n, vals)) == vals
    decreases |dims|, n + 1
  {
    if n > 0 {
      SplitFirst(dims, n, vals);
      var first, rest := vals[..Product(dims)], vals[Product(dims)..];
      BuildLeaves(dims, first);
      BuildListLeaves(dims, n - 1, rest);
      var r := BuildList(dims, n, vals);
      assert r[0] == Build(dims, first) && r[1..] == BuildList(dims, n - 1, rest);
      assert first + rest == vals;
    }
  }

  // ----- row-major order -----

  predicate Index(dims: seq<nat>, idx: seq<nat>) {
    |idx| == |dims| && forall i :: 0 <= i < |dims| ==> idx[i] < dims[i]
  }

  function Select(t: Tree, idx: seq<nat>): Option<Item>
    decreases t
  {
    if t.Leaf? then (if idx == [] then Some(t.item) else None)
    else if idx == [] || idx[0] >= |t.children| then None
    else Select(t.children[idx[0]], idx[1..])
  }

  function Offset(dims: seq<nat>, idx: seq<nat>): nat
    requires Index(dims, idx)
  {
    if dims == [] then 0 else Times(idx[0], Product(dims[1..])) + Offset(dims[1..], idx[1..])
  }

  lemma {:induction false} TimesAtMost(i: nat, n: nat, p: nat)
    requires i < n
    ensures Times(i, p) + p <= Times(n, p)
  {
    if i > 0 {
      TimesAtMost(i - 1, n - 1, p);
    }
  }

  lemma {:induction false} BuildListAt(dims: seq<nat>, n: nat, vals: seq<Item>, i: nat)
    requires i < n && |vals| == Times(n, Product(dims))
    ensures Times(i, Product(dims)) + Product(dims) <= |vals|
    ensures BuildList(dims, n, vals)[i] == Build(dims, vals[Times(i, Product(dims))..][..Product(dims)])
  {
    var p := Product(dims);
    TimesAtMost(i, n, p);
    if i > 0 {
      BuildListAt(dims, n - 1, vals[p..], i - 1);
      assert vals[p..][Times(i - 1, p)..] == vals[Times(i, p)..];
    } else {
      assert vals[0..] == vals;
    }
  }

  /** The element at a position is the one at its row-major offset. */
  lemma {:induction false} RowMajor(dims: seq<nat>, vals: seq<Item>, idx: seq<nat>)
    requires Index(dims, idx) && |vals| == Product(dims)
    ensures Offset(dims, idx) < |vals| && Select(Build(dims, vals), idx) == Some(vals[Offset(dims, idx)])
    decreases |dims|
  {
    if dims != [] {
      var rest := dims[1..];
      var p := Product(rest);
      BuildListAt(rest, dims[0], vals, idx[0]);
      RowMajor(rest, vals[Times(idx[0], p)..][..p], idx[1..]);
    }
  }

  // ----- the reader -----

  datatype Read<T> = Fail | Got(value: T, rest: string)

  function ReadQuoted(s: string): Read<string> {
    if s == [] then Fail
    else if s[0] == '"' then Got([], s[1..])
    else if s[0] == '\\' then
      if |s| < 2 then Fail
      else match ReadQuoted(s[2..]) case Fail => Fail case Got(t, rest) => Got([s[1]] + t, rest)
    else match ReadQuoted(s[1..]) case Fail => Fail case Got(t, rest) => Got([s[0]] + t, rest)
  }

  lemma {:induction false} ReadQuotedShrinks(s: string)
    ensures ReadQuoted(s).Got? ==> |ReadQuoted(s).rest| < |s|
    decreases |s|
  {
    if s != [] && s[0] != '"' {
      if s[0] == '\\' {
        if |s| >= 2 {
          ReadQuotedShrinks(s[2..]);
        }
      } else {
        ReadQuotedShrinks(s[1..]);
      }
    }
  }

  /** A value is a bracketed list, a quoted string or the bare word NULL. */
  function ReadValue(s: string, delim: char): (r: Read<Tree>)
    ensures r.Got? ==> |r.rest| < |s|
    decreases |s|, 0
  {
    if s == [] then Fail
    else if s[0] == '[' then
      if |s| > 1 && s[1] == ']' then Got(Node([]), s[2..])
      else match ReadList(s[1..], delim) case Fail => Fail case Got(ts, rest) => Got(Node(ts), rest)
    else if s[0] == '"' then
      ReadQuotedShrinks(s[1..]);
      match ReadQuoted(s[1..]) case Fail => Fail case Got(t, rest) => Got(Leaf(Scalar(t)), rest)
    else if "NULL" <= s then Got(Leaf(Null), s[4..])
    else Fail
  }

  /** One or more values up to the closing bracket. */
  function ReadList(s: string, delim: char): (r: Read<seq<Tree>>)
    ensures r.Got? ==> |r.rest| < |s|
    decreases |s|, 1
  {
    match ReadValue(s, delim)
    case Fail => Fail
    case Got(t, rest) =>
      if rest == [] then Fail
      else if rest[0] == ']' then Got([t], rest[1..])
      else if rest[0] == delim then
        match ReadList(rest[1..], delim) case Fail => Fail case Got(ts, rest') => Got([t] + ts, rest')
      else Fail
  }

  lemma ReadsChar(c: char, tail: string, t: string, rest: string)
    requires ReadQuoted(tail) == Got(t, rest)
    ensures ReadQuoted(CharText(c) + tail) == Got([c] + t, rest)
  {
    if c == '"' || c == '\\' {
      assert (['\\', c] + tail)[2..] == tail;
    } else {
      assert ([c] + tail)[1..] == tail;
    }
  }

  lemma {:induction false} ReadsEscaped(t: string, rest: string)
    ensures ReadQuoted(Escaped(t) + (['"'] + rest)) == Got(t, rest)
  {
    var tail := ['"'] + rest;
    if t == [] {
      assert Escaped(t) + tail == tail && tail[1..] == rest;
    } else {
      ReadsEscaped(t[1..], rest);
      ReadsChar(t[0], Escaped(t[1..]) + tail, t[1..], rest);
      Concat(CharText(t[0]), Escaped(t[1..]), tail);
      assert t == [t[0]] + t[1..];
    }
  }

  lemma Concat(a: string, b: string, c: string)
    ensures a + b + c == a + (b + c)
  {
  }

  predicate Readable(vals: seq<Item>) {
    forall i :: 0 <= i < |vals| ==> !vals[i].Container?
  }

  lemma ReadsScalar(t: string, rest: string, delim: char)
    ensures ReadValue(ItemText(Scalar(t)) + rest, delim) == Got(Leaf(Scalar(t)), rest)
  {
    var s := ItemText(Scalar(t)) + rest;
    ReadsEscaped(t, rest);
    assert s[0] == '"';
    assert s[1..] == Escaped(t) + (['"'] + rest);
  }

  lemma ReadsNull(rest: string, delim: char)
    ensures ReadValue(ItemText(Null) + rest, delim) == Got(Leaf(Null), rest)
  {
    var s := "NULL" + rest;
    assert s[0] == 'N';
    assert s[4..] == rest;
    assert "NULL" <= s;
  }

  lemma ReadsItem(v: Item, rest: string, delim: char)
    requires !v.Container?
    ensures ReadValue(ItemText(v) + rest, delim) == Got(Leaf(v), rest)
  {
    if v.Null? {
      ReadsNull(rest, delim);
    } else {
      ReadsScalar(v.text, rest, delim);
    }
  }

  lemma {:induction false} ReadsPrinted(dims: seq<nat>, vals: seq<Item>, delim: char, rest: string)
    requires |vals| == Product(dims) && Positive(dims) && Readable(vals) && delim != ']'
    ensures ReadValue(Print(dims, vals, delim) + rest, delim) == Got(Build(dims, vals), rest)
    decreases |dims|, 0
  {
    if dims == [] {
      ReadsItem(vals[0], rest, delim);
    } else {
      ReadsElements(dims[1..], dims[0], vals, delim, rest);
      ElementsStart(dims[1..], dims[0], vals, delim);
      ReadsBracketed(Elements(dims[1..], dims[0], vals, delim), BuildList(dims[1..], dims[0], vals), rest, delim);
    }
  }

  lemma ReadsBracketed(inner: string, ts: seq<Tree>, rest: string, delim: char)
    requires inner != [] && inner[0] != ']' && ReadList(inner + [']'] + rest, delim) == Got(ts, rest)
    ensures ReadValue(['['] + inner + [']'] + rest, delim) == Got(Node(ts), rest)
  {
    var s := ['['] + inner + [']'] + rest;
    assert s[1..] == inner + [']'] + rest;
    assert s[0] == '[' && s[1] == inner[0];
  }

  lemma {:induction false} ReadsElements(dims: seq<nat>, n: nat, vals: seq<Item>, delim: char, rest: string)
    requires n > 0 && |vals| == Times(n, Product(dims)) && Positive(dims) && Readable(vals) && delim != ']'
    ensures ReadList(Elements(dims, n, vals, delim) + [']'] + rest, delim) == Got(BuildList(dims, n, vals), rest)
    decreases |dims|, n + 1
  {
    var s := Elements(dims, n, vals, delim) + [']'] + rest;
    SplitFirst(dims, n, vals);
    var first, others := vals[..Product(dims)], vals[Product(dims)..];
    if n == 1 {
      assert first == vals && others == [];
      assert s == Print(dims, first, delim) + ([']'] + rest);
      ReadsPrinted(dims, first, delim, [']'] + rest);
      assert ([']'] + rest)[1..] == rest;
      assert BuildList(dims, 0, others) == [];
      assert BuildList(dims, n, vals) == [Build(dims, first)];
    } else {
      var tail := Elements(dims, n - 1, others, delim) + [']'] + rest;
      assert s == Print(dims, first, delim) + ([delim] + tail);
      ReadsPrinted(dims, first, delim, [delim] + tail);
      assert ([delim] + tail)[1..] == tail;
      ReadsElements(dims, n - 1, others, delim, rest);
    }
  }

  /** A printed list never starts with a closing bracket. */
  lemma {:induction false} ElementsStart(dims: seq<nat>, n: nat, vals: seq<Item>, delim: char)
    requires n > 0 && |vals| == Times(n, Product(dims)) && Positive(dims) && Readable(vals)
    ensures var t := Elements(dims, n, vals, delim); t != [] && t[0] != ']'
  {
    SplitFirst(dims, n, vals);
    ProductPositive(dims);
    assert vals[..Product(dims)][0] == vals[0];
    assert !vals[0].Container?;
  }

  // ----- whole arrays -----

  /** The text of an array: `[]` when it has no element. */
  function ArrayOut(dims: seq<nat>, vals: seq<Item>, delim: char): string
    requires dims == [] || |vals| == Product(dims)
  {
    if dims == [] || Product(dims) == 0 then "[]" else Print(dims, vals, delim)
  }

  /** Reading an array's text gives back its dimensions and its elements. */
  lemma ArrayRoundTrip(dims: seq<nat>, vals: seq<Item>, delim: char)
    requires dims != [] && Positive(dims) && |vals| == Product(dims) && Readable(vals) && delim != ']'
    ensures var r := ReadValue(ArrayOut(dims, vals, delim), delim);
      r.Got? && r.rest == [] && Shape(r.value) == dims && Leaves(r.value) == vals
  {
    ProductPositive(dims);
    var text := Print(dims, vals, delim);
    assert text + [] == text;
    ReadsPrinted(dims, vals, delim, []);
    BuildShape(dims, vals);
    BuildLeaves(dims, vals);
  }

  /** Different arrays have different texts; in particular the string "NULL" is not a null element. */
  lemma ArrayTextInjective(dims: seq<nat>, vals: seq<Item>, dims': seq<nat>, vals': seq<Item>, delim: char)
    requires dims != [] && Positive(dims) && |vals| == Product(dims) && Readable(vals) && delim != ']'
    requires dims' != [] && Positive(dims') && |vals'| == Product(dims') && Readable(vals')
    requires ArrayOut(dims, vals, delim) == ArrayOut(dims', vals', delim)
    ensures dims == dims' && vals == vals'
  {
    ArrayRoundTrip(dims, vals, delim);
    ArrayRoundTrip(dims', vals', delim);
  }
}
