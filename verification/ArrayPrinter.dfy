/** The array printing loop: a mixed-radix counter over the dimensions and an output buffer whose
    size was computed beforehand, proved to write exactly the list text. */
module ArrayPrinter {

  import opened ArrayText

  // ----- the counter -----

  function Zeros(n: nat): (r: seq<nat>)
    ensures |r| == n && forall i :: 0 <= i < n ==> r[i] == 0
  {
    if n == 0 then [] else [0] + Zeros(n - 1)
  }

  /** Elements from position `idx` to the end. */
  function Remaining(dims: seq<nat>, idx: seq<nat>): nat
    requires Index(dims, idx)
  {
    if dims == [] then 1
    else Times(dims[0] - 1 - idx[0], Product(dims[1..])) + Remaining(dims[1..], idx[1..])
  }

  /** The innermost level whose digit can still grow, at most `i`; -1 when there is none. */
  function Level(dims: seq<nat>, idx: seq<nat>, i: int): (j: int)
    requires Index(dims, idx) && -1 <= i < |dims|
    ensures -1 <= j <= i && (j >= 0 ==> idx[j] + 1 < dims[j])
    decreases i + 1
  {
    if i < 0 then -1 else if idx[i] + 1 < dims[i] then i else Level(dims, idx, i - 1)
  }

  lemma {:induction false} LevelsAboveFull(dims: seq<nat>, idx: seq<nat>, i: int)
    requires Index(dims, idx) && -1 <= i < |dims|
    ensures forall l :: Level(dims, idx, i) < l <= i ==> idx[l] + 1 == dims[l]
    decreases i + 1
  {
    if i >= 0 && idx[i] + 1 >= dims[i] {
      LevelsAboveFull(dims, idx, i - 1);
    }
  }

  function Next(idx: seq<nat>, j: int): (r: seq<nat>)
    requires -1 <= j < |idx|
    ensures |r| == |idx|
  {
    if j < 0 then Zeros(|idx|) else idx[..j] + [idx[j] + 1] + Zeros(|idx| - 1 - j)
  }

  function Fill(ch: char, n: nat): (r: string)
    ensures |r| == n
  {
    if n == 0 then [] else [ch] + Fill(ch, n - 1)
  }

  // ----- the text still to be written -----

  function Siblings(dims: seq<nat>, n: nat, vals: seq<Item>, delim: char): string
    requires |vals| == Times(n, Product(dims))
  {
    if n == 0 then [] else [delim] + Elements(dims, n, vals, delim)
  }

  /** What follows once every bracket down to position `idx` is open. */
  function Tail(dims: seq<nat>, idx: seq<nat>, vals: seq<Item>, delim: char): string
    requires Index(dims, idx) && |vals| == Remaining(dims, idx)
  {
    if dims == [] then ItemText(vals[0])
    else
      var r := Remaining(dims[1..], idx[1..]);
      Tail(dims[1..], idx[1..], vals[..r], delim) + Siblings(dims[1..], dims[0] - 1 - idx[0], vals[r..], delim) + [']']
  }

  lemma ElementsFirst(dims: seq<nat>, n: nat, vals: seq<Item>, delim: char)
    requires n > 0 && |vals| == Times(n, Product(dims))
    ensures |vals| >= Product(dims) && |vals| - Product(dims) == Times(n - 1, Product(dims))
    ensures Elements(dims, n, vals, delim) ==
      Print(dims, vals[..Product(dims)], delim) + Siblings(dims, n - 1, vals[Product(dims)..], delim)
  {
    SplitFirst(dims, n, vals);
    if n == 1 {
      assert vals[..Product(dims)] == vals;
    }
  }

  lemma {:induction false} TailStart(dims: seq<nat>, vals: seq<Item>, delim: char)
    requires |vals| == Product(dims) && Positive(dims)
    ensures Index(dims, Zeros(|dims|)) && Remaining(dims, Zeros(|dims|)) == Product(dims)
    ensures Print(dims, vals, delim) == Fill('[', |dims|) + Tail(dims, Zeros(|dims|), vals, delim)
    decreases |dims|
  {
    StartRemaining(dims);
    if dims != [] {
      var rest := dims[1..];
      var p := Product(rest);
      assert Zeros(|dims|)[1..] == Zeros(|rest|);
      ElementsFirst(rest, dims[0], vals, delim);
      TailStart(rest, vals[..p], delim);
      StartJoin(Print(dims, vals, delim), Print(rest, vals[..p], delim), Fill('[', |rest|),
        Tail(rest, Zeros(|rest|), vals[..p], delim), Siblings(rest, dims[0] - 1, vals[p..], delim),
        Tail(dims, Zeros(|dims|), vals, delim));
    }
  }

  lemma StartJoin(all: string, first: string, fill: string, inner: string, others: string, tail: string)
    requires all == ['['] + (first + others) + [']'] && first == fill + inner && tail == inner + others + [']']
    ensures all == ['['] + fill + tail
  {
    Regroup(['['], fill, inner, others, [']']);
  }

  lemma Regroup(o: string, a: string, t: string, s: string, c: string)
    ensures o + ((a + t) + s) + c == (o + a) + (t + s + c)
  {
  }

  lemma {:induction false} TailLast(dims: seq<nat>, idx: seq<nat>, vals: seq<Item>, delim: char)
    requires Index(dims, idx) && forall i :: 0 <= i < |dims| ==> idx[i] + 1 == dims[i]
    ensures Remaining(dims, idx) == 1
    ensures |vals| == 1 ==> Tail(dims, idx, vals, delim) == ItemText(vals[0]) + Fill(']', |dims|)
  {
    if dims != [] {
      TailLast(dims[1..], idx[1..], vals, delim);
      if |vals| == 1 {
        assert vals[..1] == vals;
        FillEnd(']', |dims| - 1);
      }
    }
  }

  lemma {:induction false} FillEnd(ch: char, n: nat)
    ensures Fill(ch, n + 1) == Fill(ch, n) + [ch]
  {
    if n > 0 {
      FillEnd(ch, n - 1);
    }
  }

  lemma FillSplit(ch: char, n: nat, t: string)
    ensures Fill(ch, n + 1) + t == [ch] + (Fill(ch, n) + t)
  {
  }

  lemma FillMore(out: string, ch: char, n: nat)
    ensures out + Fill(ch, n) + [ch] == out + Fill(ch, n + 1)
  {
    FillEnd(ch, n);
  }

  lemma NextIsIndex(dims: seq<nat>, idx: seq<nat>, j: int)
    requires Index(dims, idx) && 0 <= j < |dims| && idx[j] + 1 < dims[j]
    ensures Index(dims, Next(idx, j))
    ensures j == 0 ==> Next(idx, j)[0] == idx[0] + 1 && Next(idx, j)[1..] == Zeros(|dims| - 1)
    ensures j > 0 ==> Next(idx, j)[0] == idx[0] && Next(idx, j)[1..] == Next(idx[1..], j - 1)
  {
  }

  /** Moving the counter on at level `j` takes exactly one element off. */
  lemma {:induction false} RemainingStep(dims: seq<nat>, idx: seq<nat>, j: int)
    requires Index(dims, idx) && 0 <= j < |dims| && idx[j] + 1 < dims[j]
    requires forall l :: j < l < |dims| ==> idx[l] + 1 == dims[l]
    ensures Index(dims, Next(idx, j)) && Remaining(dims, Next(idx, j)) + 1 == Remaining(dims, idx)
    decreases |dims|
  {
    NextIsIndex(dims, idx, j);
    if j == 0 {
      TailLast(dims[1..], idx[1..], [], ',');
      StartRemaining(dims[1..]);
    } else {
      NextInner(dims, idx, j);
      RemainingStep(dims[1..], idx[1..], j - 1);
    }
  }

  lemma {:induction false} StartRemaining(dims: seq<nat>)
    requires Positive(dims)
    ensures Index(dims, Zeros(|dims|)) && Remaining(dims, Zeros(|dims|)) == Product(dims)
  {
    if dims != [] {
      assert Zeros(|dims|)[1..] == Zeros(|dims[1..]|);
      StartRemaining(dims[1..]);
    }
  }

  /** What one round of the loop writes: an element, `k` brackets that close after it, a separator. */
  function Round(v: Item, k: nat, delim: char): string {
    ItemText(v) + Fill(']', k) + [delim]
  }

  /** One round writes the element and separators, and leaves the text of the next position with
      `k` brackets to open again. */
  lemma {:induction false} TailStep(dims: seq<nat>, idx: seq<nat>, vals: seq<Item>, delim: char, j: int, k: nat)
    requires Index(dims, idx) && 0 <= j < |dims| && idx[j] + 1 < dims[j] && k == |dims| - 1 - j
    requires forall l :: j < l < |dims| ==> idx[l] + 1 == dims[l]
    requires |vals| == Remaining(dims, idx)
    ensures |vals| >= 1 && Index(dims, Next(idx, j)) && Remaining(dims, Next(idx, j)) == |vals| - 1
    ensures Tail(dims, idx, vals, delim) ==
      Round(vals[0], k, delim) + (Fill('[', k) + Tail(dims, Next(idx, j), vals[1..], delim))
    decreases |dims|
  {
    RemainingStep(dims, idx, j);
    if j == 0 {
      TailStepOuter(dims, idx, vals, delim);
    } else {
      var mine := vals[..Remaining(dims[1..], idx[1..])];
      NextInner(dims, idx, j);
      TailStep(dims[1..], idx[1..], mine, delim, j - 1, k);
      TailStepInner(dims, idx, Next(idx, j), vals, mine, delim, k);
    }
  }

  lemma TailStepInner(dims: seq<nat>, idx: seq<nat>, n: seq<nat>, vals: seq<Item>, mine: seq<Item>, delim: char, k: nat)
    requires dims != [] && Index(dims, idx) && Index(dims, n) && n[0] == idx[0] && |vals| == Remaining(dims, idx)
    requires |mine| == Remaining(dims[1..], idx[1..]) >= 1 && mine == vals[..|mine|]
    requires Remaining(dims[1..], n[1..]) == |mine| - 1 && Remaining(dims, n) == |vals| - 1
    requires Tail(dims[1..], idx[1..], mine, delim) ==
      Round(mine[0], k, delim) + (Fill('[', k) + Tail(dims[1..], n[1..], mine[1..], delim))
    ensures Tail(dims, idx, vals, delim) == Round(vals[0], k, delim) + (Fill('[', k) + Tail(dims, n, vals[1..], delim))
  {
    assert mine[0] == vals[0];
    TailLift(dims, idx, n, vals, delim, Round(vals[0], k, delim), Fill('[', k));
  }

  lemma TailStepOuter(dims: seq<nat>, idx: seq<nat>, vals: seq<Item>, delim: char)
    requires Index(dims, idx) && 0 < |dims| && idx[0] + 1 < dims[0]
    requires forall l :: 0 < l < |dims| ==> idx[l] + 1 == dims[l]
    requires |vals| == Remaining(dims, idx)
    requires |vals| >= 1 && Index(dims, Next(idx, 0)) && Remaining(dims, Next(idx, 0)) == |vals| - 1
    ensures Tail(dims, idx, vals, delim) ==
      Round(vals[0], |dims| - 1, delim) + (Fill('[', |dims| - 1) + Tail(dims, Next(idx, 0), vals[1..], delim))
  {
    var rest, left, more := dims[1..], dims[0] - 1 - idx[0], vals[1..];
    var p := Product(rest);
    NextIsIndex(dims, idx, 0);
    TailLast(rest, idx[1..], vals[..1], delim);
    TailOuterRest(rest, left, more, delim);
    TailUnfold(dims, idx, vals, delim);
    TailUnfold(dims, Next(idx, 0), more, delim);
    RegroupStep(ItemText(vals[0]), Fill(']', |rest|), [delim], Fill('[', |rest|),
      Tail(rest, Zeros(|rest|), more[..p], delim), Siblings(rest, left - 1, more[p..], delim), [']']);
  }

  lemma TailUnfold(dims: seq<nat>, idx: seq<nat>, vals: seq<Item>, delim: char)
    requires Index(dims, idx) && dims != [] && |vals| == Remaining(dims, idx)
    ensures var r := Remaining(dims[1..], idx[1..]);
      Tail(dims, idx, vals, delim) ==
      Tail(dims[1..], idx[1..], vals[..r], delim) + Siblings(dims[1..], dims[0] - 1 - idx[0], vals[r..], delim) + [']']
  {
  }

  lemma TailOuterRest(rest: seq<nat>, left: nat, more: seq<Item>, delim: char)
    requires left > 0 && Positive(rest) && |more| == Times(left, Product(rest))
    ensures Index(rest, Zeros(|rest|)) && Remaining(rest, Zeros(|rest|)) == Product(rest) <= |more|
    ensures |more| - Product(rest) == Times(left - 1, Product(rest))
    ensures Siblings(rest, left, more, delim) ==
      [delim] + (Fill('[', |rest|) + Tail(rest, Zeros(|rest|), more[..Product(rest)], delim)
                 + Siblings(rest, left - 1, more[Product(rest)..], delim))
  {
    ElementsFirst(rest, left, more, delim);
    TailStart(rest, more[..Product(rest)], delim);
  }

  lemma RegroupStep(v: string, c: string, d: string, o: string, t: string, s: string, e: string)
    ensures v + c + (d + (o + t + s)) + e == v + c + d + (o + (t + s + e))
  {
  }

  lemma NextInner(dims: seq<nat>, idx: seq<nat>, j: int)
    requires Index(dims, idx) && 0 < j < |dims| && idx[j] + 1 < dims[j]
    requires forall l :: j < l < |dims| ==> idx[l] + 1 == dims[l]
    ensures Next(idx, j)[0] == idx[0] && Next(idx, j)[1..] == Next(idx[1..], j - 1)
    ensures Index(dims[1..], idx[1..]) && idx[1..][j - 1] + 1 < dims[1..][j - 1]
    ensures forall l :: j - 1 < l < |dims[1..]| ==> idx[1..][l] + 1 == dims[1..][l]
  {
  }

  /** A step inside the first value of a list is a step of the list. */
  lemma TailLift(dims: seq<nat>, idx: seq<nat>, n: seq<nat>, vals: seq<Item>, delim: char, head: string, open: string)
    requires dims != [] && Index(dims, idx) && Index(dims, n) && n[0] == idx[0] && |vals| == Remaining(dims, idx)
    requires Remaining(dims[1..], n[1..]) + 1 == Remaining(dims[1..], idx[1..])
    requires var r := Remaining(dims[1..], idx[1..]);
      Tail(dims[1..], idx[1..], vals[..r], delim) == head + (open + Tail(dims[1..], n[1..], vals[..r][1..], delim))
    ensures Tail(dims, idx, vals, delim) == head + (open + Tail(dims, n, vals[1..], delim))
  {
    var rest, r := dims[1..], Remaining(dims[1..], idx[1..]);
    SliceShift(vals, r);
    var inner := Tail(rest, n[1..], vals[..r][1..], delim);
    var others := Siblings(rest, dims[0] - 1 - idx[0], vals[r..], delim);
    TailUnfold(dims, idx, vals, delim);
    TailAt(dims, n, vals[1..], vals[..r][1..], vals[r..], delim);
    RegroupInner(head, open, inner, others, [']']);
  }

  lemma TailAt(dims: seq<nat>, idx: seq<nat>, vals: seq<Item>, mine: seq<Item>, more: seq<Item>, delim: char)
    requires Index(dims, idx) && dims != [] && |vals| == Remaining(dims, idx)
    requires |mine| == Remaining(dims[1..], idx[1..]) && vals == mine + more
    ensures Tail(dims, idx, vals, delim) ==
      Tail(dims[1..], idx[1..], mine, delim) + Siblings(dims[1..], dims[0] - 1 - idx[0], more, delim) + [']']
  {
    assert vals[..|mine|] == mine && vals[|mine|..] == more;
  }

  lemma SliceShift(vals: seq<Item>, r: nat)
    requires 0 < r <= |vals|
    ensures vals[1..] == vals[..r][1..] + vals[r..]
  {
  }

  lemma RegroupInner(a: string, o: string, t: string, s: string, e: string)
    ensures a + (o + t) + s + e == a + (o + (t + s + e))
  {
  }

  // ----- the first pass -----

  method CountItem(v: Item) returns (n: nat)
    ensures n == |ItemText(v)|
  {
    if v.Null? {
      return 4;
    }
    n := 0;
    var i := 0;
    while i < |v.text|
      invariant 0 <= i <= |v.text|
      invariant v.Scalar? ==> n + |Escaped(v.text[i..])| == |Escaped(v.text)|
      invariant v.Container? ==> n == i
    {
      n := n + 1;
      if v.Scalar? && (v.text[i] == '"' || v.text[i] == '\\') {
        n := n + 1;
      }
      i := i + 1;
    }
    if v.Scalar? {
      n := n + 2;
    }
  }

  /** The size of the output buffer: text and terminator. */
  method OverallLength(dims: seq<nat>, vals: seq<Item>) returns (n: nat)
    ensures n == ItemsLength(vals) + 2 * Brackets(dims)
  {
    n := 0;
    for i := 0 to |vals|
      invariant n + ItemsLength(vals[i..]) == ItemsLength(vals)
    {
      var len := CountItem(vals[i]);
      n := n + len + 1;
    }
    var j, k := 0, 1;
    for i := 0 to |dims|
      invariant k >= 0 && j + k * Brackets(dims[i..]) == Brackets(dims)
    {
      BracketsStep(dims, i, k);
      j, k := j + k, k * dims[i];
    }
    n := n + 2 * j;
  }

  lemma BracketsStep(dims: seq<nat>, i: nat, k: nat)
    requires i < |dims|
    ensures k * Brackets(dims[i..]) == k + (k * dims[i]) * Brackets(dims[i + 1..])
    ensures k * dims[i] >= 0
  {
    var d, b := dims[i], Brackets(dims[i + 1..]);
    assert dims[i..][1..] == dims[i + 1..];
    TimesIsProduct(d, b);
    Distribute(k, d, b);
  }

  lemma Distribute(k: nat, d: nat, b: nat)
    ensures k * (1 + d * b) == k + (k * d) * b && k * (d * b) == (k * d) * b && k * d >= 0
  {
  }

  // ----- the second pass -----

  /** `text` has been written, `p` points at its terminator. */
  ghost predicate Written(buf: array<char>, p: nat, text: string)
    reads buf
  {
    p == |text| && p < buf.Length && buf[..p] == text && buf[p] == '\0'
  }

  method AppendChar(buf: array<char>, p: nat, ch: char, ghost text: string) returns (p': nat)
    requires Written(buf, p, text) && p + 1 < buf.Length
    modifies buf
    ensures Written(buf, p', text + [ch])
  {
    buf[p] := ch;
    p' := p + 1;
    buf[p'] := '\0';
  }

  method AppendText(buf: array<char>, p: nat, s: string, ghost text: string) returns (p': nat)
    requires Written(buf, p, text) && p + |s| < buf.Length
    modifies buf
    ensures Written(buf, p', text + s)
  {
    for i := 0 to |s|
      invariant buf[..p + i] == text + s[..i]
    {
      buf[p + i] := s[i];
    }
    p' := p + |s|;
    buf[p'] := '\0';
  }

  method AppendEscaped(buf: array<char>, p: nat, s: string, ghost text: string) returns (p': nat)
    requires Written(buf, p, text) && p + |Escaped(s)| < buf.Length
    modifies buf
    ensures Written(buf, p', text + Escaped(s))
  {
    p' := p;
    var i := 0;
    while i < |s|
      invariant 0 <= i <= |s| && p <= p'
      invariant p' + |Escaped(s[i..])| == p + |Escaped(s)|
      invariant buf[..p'] + Escaped(s[i..]) == text + Escaped(s)
    {
      assert s[i..][1..] == s[i + 1..];
      ghost var before := buf[..p'];
      Concat(before, CharText(s[i]), Escaped(s[i + 1..]));
      if s[i] == '"' || s[i] == '\\' {
        buf[p'] := '\\';
        p' := p' + 1;
      }
      buf[p'] := s[i];
      p' := p' + 1;
      assert buf[..p'] == before + CharText(s[i]);
      i := i + 1;
    }
    buf[p'] := '\0';
  }

  method AppendQuoted(buf: array<char>, p: nat, t: string, ghost text: string) returns (p': nat)
    requires Written(buf, p, text) && p + |Escaped(t)| + 2 < buf.Length
    modifies buf
    ensures Written(buf, p', text + (['"'] + Escaped(t) + ['"']))
  {
    p' := AppendChar(buf, p, '"', text);
    p' := AppendEscaped(buf, p', t, text + ['"']);
    p' := AppendChar(buf, p', '"', text + ['"'] + Escaped(t));
    RegroupOut(text, ['"'], Escaped(t), ['"']);
  }

  method AppendItem(buf: array<char>, p: nat, v: Item, ghost text: string) returns (p': nat)
    requires Written(buf, p, text) && p + |ItemText(v)| < buf.Length
    modifies buf
    ensures Written(buf, p', text + ItemText(v))
  {
    match v
    case Null => p' := AppendText(buf, p, "NULL", text);
    case Container(t) => p' := AppendText(buf, p, t, text);
    case Scalar(t) => p' := AppendQuoted(buf, p, t, text);
  }

  method AppendOpens(buf: array<char>, p: nat, k: nat, ghost text: string) returns (p': nat)
    requires Written(buf, p, text) && p + k < buf.Length
    modifies buf
    ensures Written(buf, p', text + Fill('[', k))
  {
    p' := p;
    assert text + Fill('[', 0) == text;
    for i := 0 to k
      invariant Written(buf, p', text + Fill('[', i))
    {
      FillMore(text, '[', i);
      p' := AppendChar(buf, p', '[', text + Fill('[', i));
    }
  }

  function AfterItem(k: nat, j: int, delim: char): (r: string)
    ensures |r| == if j >= 0 then k + 1 else k
  {
    Fill(']', k) + if j >= 0 then [delim] else []
  }

  lemma AfterItemText(text: string, k: nat, j: int, delim: char)
    ensures text + AfterItem(k, j, delim) == if j >= 0 then text + Fill(']', k) + [delim] else text + Fill(']', k)
  {
  }

  /** The counter after the levels above `j` were reset. */
  function Reset(idx: seq<nat>, j: int): (r: seq<nat>)
    requires -1 <= j < |idx|
    ensures |r| == |idx| && (j >= 0 ==> r[j] == idx[j])
  {
    idx[..j + 1] + Zeros(|idx| - 1 - j)
  }

  lemma ResetNext(idx: seq<nat>, j: int)
    requires -1 <= j < |idx|
    ensures j >= 0 ==> Reset(idx, j)[j := 0] == Reset(idx, j - 1) && Reset(idx, j)[j := idx[j] + 1] == Next(idx, j)
    ensures j < 0 ==> Reset(idx, j) == Next(idx, j)
  {
  }

  /** Resets every full level from the inside out, closing a bracket for each. */
  method CloseLevels(buf: array<char>, p: nat, idx: seq<nat>, dims: seq<nat>, ghost text: string)
    returns (p': nat, index: seq<nat>, j: int)
    requires Written(buf, p, text) && Index(dims, idx)
    requires p + |dims| - 1 - Level(dims, idx, |dims| - 1) < buf.Length
    modifies buf
    ensures j == Level(dims, idx, |dims| - 1) && index == Reset(idx, j)
    ensures Written(buf, p', text + Fill(']', |dims| - 1 - j))
  {
    ghost var closed := 0;
    assert text + Fill(']', 0) == text;
    p', index, j := p, idx, |dims| - 1;
    while j >= 0 && index[j] + 1 >= dims[j]
      invariant -1 <= j < |dims| && Level(dims, idx, j) == Level(dims, idx, |dims| - 1)
      invariant index == Reset(idx, j)
      invariant closed == |dims| - 1 - j && Written(buf, p', text + Fill(']', closed))
    {
      ResetNext(idx, j);
      index := index[j := 0];
      p' := AppendClose(buf, p', closed, text);
      j, closed := j - 1, closed + 1;
    }
  }

  method AppendClose(buf: array<char>, p: nat, ghost closed: nat, ghost text: string) returns (p': nat)
    requires Written(buf, p, text + Fill(']', closed)) && p + 1 < buf.Length
    modifies buf
    ensures Written(buf, p', text + Fill(']', closed + 1))
  {
    FillMore(text, ']', closed);
    p' := AppendChar(buf, p, ']', text + Fill(']', closed));
  }

  /** Moves the counter on: full levels close, the next one out grows and a separator follows. */
  method Advance(buf: array<char>, p: nat, idx: seq<nat>, dims: seq<nat>, delim: char, ghost text: string)
    returns (p': nat, index: seq<nat>, j: int)
    requires Written(buf, p, text) && Index(dims, idx)
    requires var l := Level(dims, idx, |dims| - 1); p + |AfterItem(|dims| - 1 - l, l, delim)| < buf.Length
    modifies buf
    ensures j == Level(dims, idx, |dims| - 1) && index == Next(idx, j)
    ensures Written(buf, p', text + AfterItem(|dims| - 1 - j, j, delim))
  {
    p', index, j := CloseLevels(buf, p, idx, dims, text);
    ResetNext(idx, j);
    AfterItemText(text, |dims| - 1 - j, j, delim);
    if j >= 0 {
      index := index[j := index[j] + 1];
      p' := AppendChar(buf, p', delim, text + Fill(']', |dims| - 1 - j));
    }
  }

  /** What is still to be written from element `k` on, with levels up to `j` open. */
  function ToCome(dims: seq<nat>, idx: seq<nat>, vals: seq<Item>, k: nat, j: int, delim: char): string
    requires Index(dims, idx) && 0 <= j < |dims| && k <= |vals| && |vals| - k == Remaining(dims, idx)
  {
    Fill('[', |dims| - 1 - j) + Tail(dims, idx, vals[k..], delim)
  }

  /** The loop's position: `k` elements written, levels up to `j` open, the rest of `text` to come. */
  ghost predicate AtElement(out: string, dims: seq<nat>, idx: seq<nat>, vals: seq<Item>, k: nat, j: int, delim: char,
    text: string)
  {
    && Index(dims, idx) && 0 <= j < |dims|
    && k <= |vals| && |vals| - k == Remaining(dims, idx)
    && out + ToCome(dims, idx, vals, k, j, delim) == text
  }

  /** What the round at element `v` writes, opening brackets included. */
  function RoundOut(v: Item, opens: nat, closes: nat, l: int, delim: char): string {
    Fill('[', opens) + ItemText(v) + AfterItem(closes, l, delim)
  }

  lemma RoundText(out: string, dims: seq<nat>, idx: seq<nat>, n: seq<nat>, vals: seq<Item>, k: nat, j: int, l: int,
    round: string, delim: char, text: string)
    requires AtElement(out, dims, idx, vals, k, j, delim, text) && k < |vals|
    requires 0 <= l == Level(dims, idx, |dims| - 1) && n == Next(idx, l)
    requires round == RoundOut(vals[k], |dims| - 1 - j, |dims| - 1 - l, l, delim)
    ensures AtElement(out + round, dims, n, vals, k + 1, l, delim, text)
  {
    NextElement(dims, idx, n, vals, k, l);
    ToComeStep(dims, idx, n, vals, k, j, l, round, delim);
    Concat(out, round, ToCome(dims, n, vals, k + 1, l, delim));
  }

  lemma NextElement(dims: seq<nat>, idx: seq<nat>, n: seq<nat>, vals: seq<Item>, k: nat, l: int)
    requires Index(dims, idx) && k < |vals| && |vals| - k == Remaining(dims, idx)
    requires 0 <= l == Level(dims, idx, |dims| - 1) && n == Next(idx, l)
    ensures Index(dims, n) && |vals| - (k + 1) == Remaining(dims, n)
  {
    LevelsAboveFull(dims, idx, |dims| - 1);
    NextIsIndex(dims, idx, l);
    RemainingStep(dims, idx, l);
  }

  /** The text to come is what the round writes, and the text to come at the next element. */
  lemma ToComeStep(dims: seq<nat>, idx: seq<nat>, n: seq<nat>, vals: seq<Item>, k: nat, j: int, l: int,
    round: string, delim: char)
    requires Index(dims, idx) && 0 <= j < |dims| && k < |vals| && |vals| - k == Remaining(dims, idx)
    requires 0 <= l == Level(dims, idx, |dims| - 1) && n == Next(idx, l)
    requires Index(dims, n) && |vals| - (k + 1) == Remaining(dims, n)
    requires round == RoundOut(vals[k], |dims| - 1 - j, |dims| - 1 - l, l, delim)
    ensures ToCome(dims, idx, vals, k, j, delim) == round + ToCome(dims, n, vals, k + 1, l, delim)
  {
    var m := |dims| - 1 - l;
    TailFrom(dims, idx, vals, k, delim, l, m);
    RoundOutIs(vals[k], |dims| - 1 - j, m, l, delim);
    RoundJoin(Fill('[', |dims| - 1 - j), ItemText(vals[k]), Fill(']', m), [delim], round,
      ToCome(dims, n, vals, k + 1, l, delim), Tail(dims, idx, vals[k..], delim), ToCome(dims, idx, vals, k, j, delim));
  }

  lemma RoundJoin(open: string, v: string, c: string, d: string, round: string, after: string, tail: string,
    all: string)
    requires all == open + tail && tail == v + c + d + after && round == open + v + (c + d)
    ensures all == round + after
  {
    RegroupRound(open, v, c, d, after);
  }

  lemma RoundOutIs(v: Item, opens: nat, closes: nat, l: int, delim: char)
    requires l >= 0
    ensures RoundOut(v, opens, closes, l, delim) == Fill('[', opens) + ItemText(v) + (Fill(']', closes) + [delim])
  {
  }

  lemma TailFrom(dims: seq<nat>, idx: seq<nat>, vals: seq<Item>, k: nat, delim: char, l: int, m: nat)
    requires Index(dims, idx) && k < |vals| && |vals| - k == Remaining(dims, idx)
    requires 0 <= l == Level(dims, idx, |dims| - 1) && m == |dims| - 1 - l
    ensures Index(dims, Next(idx, l)) && |vals| - (k + 1) == Remaining(dims, Next(idx, l))
    ensures Tail(dims, idx, vals[k..], delim) ==
      ItemText(vals[k]) + Fill(']', m) + [delim] + (Fill('[', m) + Tail(dims, Next(idx, l), vals[k + 1..], delim))
  {
    LevelsAboveFull(dims, idx, |dims| - 1);
    TailStep(dims, idx, vals[k..], delim, l, m);
    assert vals[k..][1..] == vals[k + 1..] && vals[k..][0] == vals[k];
  }

  lemma LastRoundText(out: string, dims: seq<nat>, idx: seq<nat>, vals: seq<Item>, k: nat, j: int, delim: char,
    text: string)
    requires AtElement(out, dims, idx, vals, k, j, delim, text) && k < |vals|
    requires Level(dims, idx, |dims| - 1) < 0
    ensures k + 1 == |vals|
    ensures out + RoundOut(vals[k], |dims| - 1 - j, |dims|, -1, delim) == text
  {
    LevelsAboveFull(dims, idx, |dims| - 1);
    TailLast(dims, idx, vals[k..], delim);
    assert AfterItem(|dims|, -1, delim) == Fill(']', |dims|);
    Concat(Fill('[', |dims| - 1 - j), ItemText(vals[k]), Fill(']', |dims|));
  }

  /** One round of the loop, as the position it starts from and the position it reaches. */
  lemma RoundMoves(out: string, dims: seq<nat>, idx: seq<nat>, n: seq<nat>, vals: seq<Item>, k: nat, j: int, l: int,
    round: string, delim: char, text: string)
    requires AtElement(out, dims, idx, vals, k, j, delim, text) && k < |vals|
    requires l == Level(dims, idx, |dims| - 1) && n == Next(idx, l)
    requires round == RoundOut(vals[k], |dims| - 1 - j, |dims| - 1 - l, l, delim)
    ensures |out + round| <= |text|
    ensures l >= 0 ==> AtElement(out + round, dims, n, vals, k + 1, l, delim, text)
    ensures l < 0 ==> k + 1 == |vals| && out + round == text
  {
    if l >= 0 {
      RoundText(out, dims, idx, n, vals, k, j, l, round, delim, text);
    } else {
      LastRoundText(out, dims, idx, vals, k, j, delim, text);
    }
  }

  lemma {:induction false} RemainingPositive(dims: seq<nat>, idx: seq<nat>)
    requires Index(dims, idx)
    ensures Remaining(dims, idx) > 0
  {
    if dims != [] {
      RemainingPositive(dims[1..], idx[1..]);
    }
  }

  lemma RegroupRound(o: string, v: string, c: string, d: string, t: string)
    ensures o + (v + c + d + t) == o + v + (c + d) + t
  {
  }

  method PrintRound(buf: array<char>, p: nat, idx: seq<nat>, dims: seq<nat>, v: Item, j: int, delim: char,
    ghost out: string)
    returns (p': nat, index: seq<nat>, j': int)
    requires Written(buf, p, out) && Index(dims, idx) && 0 <= j < |dims|
    requires var l := Level(dims, idx, |dims| - 1);
      p + |RoundOut(v, |dims| - 1 - j, |dims| - 1 - l, l, delim)| < buf.Length
    modifies buf
    ensures j' == Level(dims, idx, |dims| - 1) && index == Next(idx, j')
    ensures Written(buf, p', out + RoundOut(v, |dims| - 1 - j, |dims| - 1 - j', j', delim))
  {
    var open := |dims| - 1 - j;
    ghost var out1 := out + Fill('[', open);
    ghost var out2 := out1 + ItemText(v);
    p' := AppendOpens(buf, p, open, out);
    p' := AppendItem(buf, p', v, out1);
    p', index, j' := Advance(buf, p', idx, dims, delim, out2);
    RegroupOut(out, Fill('[', open), ItemText(v), AfterItem(|dims| - 1 - j', j', delim));
  }

  lemma RegroupOut(out: string, o: string, v: string, c: string)
    ensures out + o + v + c == out + (o + v + c)
  {
  }

  /** The loop runs once per element, in order, and fills the buffer exactly. */
  method PrintElements(buf: array<char>, dims: seq<nat>, vals: seq<Item>, delim: char) returns (rounds: nat)
    requires dims != [] && Positive(dims) && |vals| == Product(dims)
    requires buf.Length == |Print(dims, vals, delim)| + 1
    modifies buf
    ensures rounds == Product(dims)
    ensures buf[..] == Print(dims, vals, delim) + ['\0']
  {
    PrintStart(dims, vals, delim);
    buf[0] := '\0';
    assert buf[..0] == "" && "" + ['['] == ['['];
    var p := AppendChar(buf, 0, '[', "");
    p, rounds := PrintRest(buf, p, dims, vals, delim, Print(dims, vals, delim));
    assert buf[..] == buf[..p] + [buf[p]];
  }

  method PrintRest(buf: array<char>, start: nat, dims: seq<nat>, vals: seq<Item>, delim: char, ghost text: string)
    returns (p: nat, k: nat)
    requires Written(buf, start, ['[']) && buf.Length == |text| + 1
    requires AtElement(['['], dims, Zeros(|dims|), vals, 0, 0, delim, text)
    modifies buf
    ensures k == |vals| && Written(buf, p, text)
  {
    ghost var out := ['['];
    p, k := start, 0;
    var index, j := Zeros(|dims|), 0;
    while j != -1
      invariant -1 <= j && k <= |vals| && Written(buf, p, out)
      invariant j >= 0 ==> AtElement(out, dims, index, vals, k, j, delim, text)
      invariant j == -1 ==> k == |vals| && out == text
      decreases |vals| - k, j + 1
    {
      p, index, j, out := PrintNext(buf, p, dims, index, vals, k, j, delim, out, text);
      k := k + 1;
    }
  }

  /** One round of the loop, at element `k`. */
  method PrintNext(buf: array<char>, p: nat, dims: seq<nat>, idx: seq<nat>, vals: seq<Item>, k: nat, j: int,
    delim: char, ghost out: string, ghost text: string)
    returns (p': nat, index: seq<nat>, j': int, ghost out': string)
    requires Written(buf, p, out) && buf.Length == |text| + 1
    requires AtElement(out, dims, idx, vals, k, j, delim, text)
    modifies buf
    ensures k < |vals| && -1 <= j' && Written(buf, p', out')
    ensures j' >= 0 ==> AtElement(out', dims, index, vals, k + 1, j', delim, text)
    ensures j' == -1 ==> k + 1 == |vals| && out' == text
  {
    RemainingPositive(dims, idx);
    ghost var l := Level(dims, idx, |dims| - 1);
    ghost var round := RoundOut(vals[k], |dims| - 1 - j, |dims| - 1 - l, l, delim);
    RoundMoves(out, dims, idx, Next(idx, l), vals, k, j, l, round, delim, text);
    out' := out + round;
    p', index, j' := PrintRound(buf, p, idx, dims, vals[k], j, delim, out);
  }

  lemma PrintStart(dims: seq<nat>, vals: seq<Item>, delim: char)
    requires dims != [] && Positive(dims) && |vals| == Product(dims)
    ensures AtElement(['['], dims, Zeros(|dims|), vals, 0, 0, delim, Print(dims, vals, delim))
    ensures |Print(dims, vals, delim)| >= 1
  {
    TailStart(dims, vals, delim);
    assert vals[0..] == vals;
    FillSplit('[', |dims| - 1, Tail(dims, Zeros(|dims|), vals, delim));
  }

  datatype Result = CustomLowerBound | Text(buffer: string)

  /** Prints an array into a buffer of the computed size. The buffer holds the list text and its
      terminator, nothing else; arrays without elements print as `[]` whatever their bounds. */
  method ArrayOutForPGDuck(dims: seq<nat>, lowerBounds: seq<int>, vals: seq<Item>, delim: char) returns (r: Result)
    requires |lowerBounds| == |dims| && (dims == [] || |vals| == Product(dims))
    ensures r.CustomLowerBound? <==>
      dims != [] && Product(dims) != 0 && exists i :: 0 <= i < |dims| && lowerBounds[i] != 1
    ensures r.Text? ==> r.buffer == ArrayOut(dims, vals, delim) + ['\0']
  {
    var nitems := ItemCount(dims);
    if nitems == 0 {
      return Text("[]" + ['\0']);
    }
    for i := 0 to |dims|
      invariant forall k :: 0 <= k < i ==> lowerBounds[k] == 1
    {
      if lowerBounds[i] != 1 {
        return CustomLowerBound;
      }
    }
    NoZeroExtent(dims);
    PrintLength(dims, vals, delim);
    var overallLength := OverallLength(dims, vals);
    var buf := new char[overallLength];
    var _ := PrintElements(buf, dims, vals, delim);
    r := Text(buf[..]);
  }

  method ItemCount(dims: seq<nat>) returns (n: nat)
    ensures n == if dims == [] then 0 else Product(dims)
  {
    if dims == [] {
      return 0;
    }
    n := 1;
    for i := 0 to |dims|
      invariant n * Product(dims[i..]) == Product(dims)
    {
      assert dims[i..][1..] == dims[i + 1..];
      TimesIsProduct(dims[i], Product(dims[i + 1..]));
      Distribute(n, dims[i], Product(dims[i + 1..]));
      n := n * dims[i];
    }
  }

  lemma {:induction false} NoZeroExtent(dims: seq<nat>)
    requires Product(dims) != 0
    ensures Positive(dims)
  {
    if dims != [] {
      TimesIsProduct(dims[0], Product(dims[1..]));
      NoZeroExtent(dims[1..]);
      assert forall i :: 0 < i < |dims| ==> dims[i] == dims[1..][i - 1];
    }
  }
}
