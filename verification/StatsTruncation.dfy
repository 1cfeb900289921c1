/** Truncation of column lower and upper bounds, and when it is sound for pruning. */
module StatsTruncation {

  import opened Basics

  // ----- unsigned byte order -----

  predicate AtMost(a: ByteString, b: ByteString) {
    a == [] || (b != [] && (a[0] < b[0] || (a[0] == b[0] && AtMost(a[1..], b[1..]))))
  }

  lemma {:induction false} AtMostRefl(a: ByteString)
    ensures AtMost(a, a)
  {
    if a != [] {
      AtMostRefl(a[1..]);
    }
  }

  lemma {:induction false} AtMostTrans(a: ByteString, b: ByteString, c: ByteString)
    requires AtMost(a, b) && AtMost(b, c)
    ensures AtMost(a, c)
  {
    if a != [] && a[0] == b[0] && b[0] == c[0] {
      AtMostTrans(a[1..], b[1..], c[1..]);
    }
  }

  lemma {:induction false} PrefixAtMost(a: ByteString, n: nat)
    requires n <= |a|
    ensures AtMost(a[..n], a)
  {
    if n > 0 {
      assert a[..n][1..] == a[1..][..n - 1];
      PrefixAtMost(a[1..], n - 1);
    }
  }

  /** A sequence that is larger at the first difference is larger. */
  lemma {:induction false} LargerAt(a: ByteString, b: ByteString, i: nat)
    requires i < |a| && i < |b| && a[..i] == b[..i] && a[i] < b[i]
    ensures AtMost(a, b) && !AtMost(b, a)
  {
    if i > 0 {
      assert a[0] == a[..i][0] == b[..i][0] == b[0];
      assert a[1..][..i - 1] == a[..i][1..] && b[1..][..i - 1] == b[..i][1..];
      LargerAt(a[1..], b[1..], i - 1);
    }
  }

  lemma {:induction false} LongerIsLarger(a: ByteString, n: nat)
    requires n < |a|
    ensures !AtMost(a, a[..n])
  {
    if n > 0 {
      assert a[..n][1..] == a[1..][..n - 1];
      LongerIsLarger(a[1..], n - 1);
    }
  }

  // ----- the bounds -----

  function LowerBound(lower: ByteString, n: nat): ByteString {
    if |lower| <= n then lower else lower[..n]
  }

  /** The last byte of `t` that differs from `limit`, or -1. */
  function LastBelow(t: ByteString, limit: Byte): (i: int)
    ensures -1 <= i < |t| && (i >= 0 ==> t[i] != limit)
  {
    if t == [] then -1 else if t[|t| - 1] != limit then |t| - 1 else LastBelow(t[..|t| - 1], limit)
  }

  /** Incrementing a byte wraps around, and a zero byte ends the text. */
  function TextUpperBound(upper: ByteString, n: nat): Option<ByteString> {
    if |upper| <= n then Some(upper)
    else
      var t := upper[..n];
      var i := LastBelow(t, 127);
      if i < 0 then None
      else if t[i] == 255 then Some(t[..i])
      else Some(t[i := t[i] + 1])
  }

  function BinaryUpperBound(upper: ByteString, n: nat): Option<ByteString> {
    if |upper| <= n then Some(upper)
    else
      var t := upper[..n];
      var i := LastBelow(t, 255);
      if i < 0 then None else Some(t[i := t[i] + 1])
  }

  predicate Above(bound: Option<ByteString>, v: ByteString) {
    bound.None? || AtMost(v, bound.value)
  }

  /** Everything at or below `upper` is at or below the new bound. */
  ghost predicate Covers(upper: ByteString, bound: Option<ByteString>) {
    forall v :: AtMost(v, upper) ==> Above(bound, v)
  }

  lemma IncrementCovers(upper: ByteString, n: nat, i: nat)
    requires n < |upper| && i < n && upper[i] < 255
    ensures Covers(upper, Some(upper[..n][i := upper[i] + 1]))
  {
    var t := upper[..n];
    var b := t[i := t[i] + 1];
    assert b[..i] == upper[..i];
    LargerAt(upper, b, i);
    forall v | AtMost(v, upper)
      ensures AtMost(v, b)
    {
      AtMostTrans(v, upper, b);
    }
  }

  /** A truncated binary bound stays above every value, or is dropped. */
  lemma BinaryUpperSound(upper: ByteString, n: nat)
    ensures Covers(upper, BinaryUpperBound(upper, n))
  {
    if |upper| > n {
      var i := LastBelow(upper[..n], 255);
      if i >= 0 {
        IncrementCovers(upper, n, i);
      }
    }
  }

  /** The truncated text bound wraps to an end of text. */
  predicate Wraps(upper: ByteString, n: nat) {
    |upper| > n && LastBelow(upper[..n], 127) >= 0 && upper[LastBelow(upper[..n], 127)] == 255
  }

  /** A truncated text bound is sound exactly if the byte it increments is not 255. */
  lemma TextUpperSoundIff(upper: ByteString, n: nat)
    ensures Covers(upper, TextUpperBound(upper, n)) <==> !Wraps(upper, n)
  {
    if Wraps(upper, n) {
      var i := LastBelow(upper[..n], 127);
      assert upper[..n][..i] == upper[..i];
      AtMostRefl(upper);
      LongerIsLarger(upper, i);
    } else if |upper| > n {
      var i := LastBelow(upper[..n], 127);
      if i >= 0 {
        IncrementCovers(upper, n, i);
      }
    }
  }

  /** Text in an encoding that does not use byte 255, such as UTF-8, never wraps. */
  lemma TextUpperSound(upper: ByteString, n: nat)
    requires forall i :: 0 <= i < |upper| ==> upper[i] != 255
    ensures Covers(upper, TextUpperBound(upper, n))
  {
    TextUpperSoundIff(upper, n);
  }

  /** Two bytes 255 truncated to one: the new bound is the empty text. */
  lemma TextUpperUnsoundExample()
    ensures TextUpperBound([255, 255], 1) == Some([])
    ensures !Covers([255, 255], TextUpperBound([255, 255], 1))
  {
    assert [255, 255][..1] == [255];
    assert LastBelow([255], 127) == 0;
    TextUpperSoundIff([255, 255], 1);
  }

  lemma LowerSound(lower: ByteString, n: nat, v: ByteString)
    requires AtMost(lower, v)
    ensures AtMost(LowerBound(lower, n), v)
  {
    if |lower| > n {
      PrefixAtMost(lower, n);
      AtMostTrans(lower[..n], lower, v);
    }
  }

  // ----- one column -----

  datatype Mode = Truncate(n: nat) | Drop

  datatype ColumnType = Text | Binary | OtherType

  datatype Bounds = Bounds(lower: Option<ByteString>, upper: Option<ByteString>)

  /** The state the code asserts away: a lower bound and no upper one. */
  predicate Broken(b: Bounds) {
    b.lower.Some? && b.upper.None?
  }

  function Applied(mode: Mode, t: ColumnType, b: Bounds): Bounds {
    if b.lower.None? || b.upper.None? then b
    else if mode.Drop? then Bounds(None, None)
    else
      match t
      case Text => Bounds(Some(LowerBound(b.lower.value, mode.n)), TextUpperBound(b.upper.value, mode.n))
      case Binary => Bounds(Some(LowerBound(b.lower.value, mode.n)), BinaryUpperBound(b.upper.value, mode.n))
      case OtherType => b
  }

  predicate Within(b: Bounds, v: ByteString) {
    (b.lower.Some? ==> AtMost(b.lower.value, v)) && Above(b.upper, v)
  }

  ghost predicate KeepsValues(b: Bounds, b': Bounds) {
    forall v :: Within(b, v) ==> Within(b', v)
  }

  /** The failing case: a text bound that wraps, on a column that has any value. */
  predicate LosesValues(mode: Mode, t: ColumnType, b: Bounds) {
    && b.lower.Some? && b.upper.Some? && t.Text? && mode.Truncate?
    && Wraps(b.upper.value, mode.n) && AtMost(b.lower.value, b.upper.value)
  }

  /** Every value within the old bounds is within the new ones, exactly outside the failing case. */
  lemma TruncationSoundIff(mode: Mode, t: ColumnType, b: Bounds)
    ensures KeepsValues(b, Applied(mode, t, b)) <==> !LosesValues(mode, t, b)
  {
    if LosesValues(mode, t, b) {
      WrappedLoses(b, mode.n);
    } else {
      forall v | Within(b, v)
        ensures Within(Applied(mode, t, b), v)
      {
        OtherwiseKeeps(mode, t, b, v);
      }
    }
  }

  lemma WrappedLoses(b: Bounds, n: nat)
    requires LosesValues(Truncate(n), Text, b)
    ensures Within(b, b.upper.value) && !Within(Applied(Truncate(n), Text, b), b.upper.value)
  {
    var upper := b.upper.value;
    var i := LastBelow(upper[..n], 127);
    assert upper[..n][..i] == upper[..i];
    AtMostRefl(upper);
    LongerIsLarger(upper, i);
  }

  lemma OtherwiseKeeps(mode: Mode, t: ColumnType, b: Bounds, v: ByteString)
    requires Within(b, v) && !LosesValues(mode, t, b)
    ensures Within(Applied(mode, t, b), v)
  {
    if b.lower.Some? && b.upper.Some? && mode.Truncate? {
      AtMostTrans(b.lower.value, v, b.upper.value);
      LowerSound(b.lower.value, mode.n, v);
      BinaryUpperSound(b.upper.value, mode.n);
      TextUpperSoundIff(b.upper.value, mode.n);
    }
  }

  /** Truncating bounds a second time changes nothing. */
  lemma AppliedTwice(mode: Mode, t: ColumnType, b: Bounds)
    ensures Applied(mode, t, Applied(mode, t, b)) == Applied(mode, t, b)
  {
  }

  /** Bounds that truncation itself breaks, so that a second pass over the column fails. */
  lemma TruncationBreaksExample()
    ensures !Broken(Bounds(Some([1]), Some([255, 255])))
    ensures Broken(Applied(Truncate(1), Binary, Bounds(Some([1]), Some([255, 255]))))
  {
    assert [255, 255][..1] == [255];
    assert LastBelow([255], 255) == -1;
  }

  // ----- in place -----

  /** The text in a buffer: the bytes before the first zero. */
  function CString(buf: ByteString): ByteString {
    if buf == [] || buf[0] == 0 then [] else [buf[0]] + CString(buf[1..])
  }

  predicate Terminated(buf: ByteString) {
    0 in buf
  }

  lemma {:induction false} CStringIs(buf: ByteString, k: nat)
    requires k < |buf| && buf[k] == 0 && forall i :: 0 <= i < k ==> buf[i] != 0
    ensures CString(buf) == buf[..k]
  {
    if k > 0 {
      CStringIs(buf[1..], k - 1);
      assert buf[..k] == [buf[0]] + buf[1..][..k - 1];
    }
  }

  method StrLen(buf: array<Byte>) returns (k: nat)
    requires Terminated(buf[..])
    ensures k < buf.Length && buf[k] == 0 && (forall i :: 0 <= i < k ==> buf[i] != 0)
    ensures CString(buf[..]) == buf[..k]
  {
    ghost var z :| 0 <= z < |buf[..]| && buf[..][z] == 0;
    k := 0;
    while buf[k] != 0
      invariant k <= z && forall i :: 0 <= i < k ==> buf[i] != 0
      decreases z - k
    {
      k := k + 1;
    }
    CStringIs(buf[..], k);
    assert buf[..][..k] == buf[..k];
  }

  method TruncateStatsMinForText(buf: array<Byte>, n: nat)
    requires Terminated(buf[..])
    modifies buf
    ensures Terminated(buf[..]) && CString(buf[..]) == LowerBound(old(CString(buf[..])), n)
  {
    var len := StrLen(buf);
    if len <= n {
      return;
    }
    buf[n] := 0;
    assert buf[..][n] == 0;
    CStringIs(buf[..], n);
  }

  lemma {:induction false} LastBelowIs(t: ByteString, limit: Byte, i: int)
    requires -1 <= i < |t| && (i >= 0 ==> t[i] != limit) && forall k :: i < k < |t| ==> t[k] == limit
    ensures LastBelow(t, limit) == i
  {
    if t != [] && i < |t| - 1 {
      assert t[|t| - 1] == limit;
      LastBelowIs(t[..|t| - 1], limit, i);
    }
  }

  /** A byte incremented in place wraps around. */
  function Incremented(b: Byte): Byte {
    if b == 255 then 0 else b + 1
  }

  /** Truncates in place and increments the last byte below 127; false if there is none. */
  method TruncateStatsMaxForText(buf: array<Byte>, n: nat) returns (ok: bool)
    requires Terminated(buf[..])
    modifies buf
    ensures ok <==> TextUpperBound(old(CString(buf[..])), n).Some?
    ensures ok ==> Terminated(buf[..]) && CString(buf[..]) == TextUpperBound(old(CString(buf[..])), n).value
  {
    var len := StrLen(buf);
    if len <= n {
      return true;
    }
    ghost var t := buf[..n];
    assert CString(buf[..])[..n] == t;
    buf[n] := 0;
    var i := n - 1;
    while i >= 0
      invariant -1 <= i < n && buf[..n] == t && buf[n] == 0
      invariant forall k :: i < k < n ==> t[k] == 127
    {
      if buf[i] != 127 {
        LastBelowIs(t, 127, i);
        assert buf[i] == t[i];
        buf[i] := Incremented(buf[i]);
        TextAfterIncrement(buf[..], t, n, i);
        return true;
      }
      assert buf[i] == t[i];
      i := i - 1;
    }
    LastBelowIs(t, 127, -1);
    ok := false;
  }

  lemma TextAfterIncrement(buf: ByteString, t: ByteString, n: nat, i: nat)
    requires |t| == n < |buf| && i < n && buf[n] == 0 && (forall k :: 0 <= k < n ==> t[k] != 0)
    requires buf[..n] == t[i := Incremented(t[i])]
    ensures Terminated(buf)
    ensures CString(buf) == if t[i] == 255 then t[..i] else t[i := t[i] + 1]
  {
    var u := t[i := Incremented(t[i])];
    assert forall k :: 0 <= k < n ==> buf[k] == u[k];
    if t[i] == 255 {
      CStringIs(buf, i);
      assert buf[..i] == u[..i] == t[..i];
    } else {
      CStringIs(buf, n);
    }
  }

  /** Copies the first bytes and increments the last one below 255. */
  method TruncateStatsMaxForBinary(upper: ByteString, n: nat) returns (r: Option<ByteString>)
    ensures r == BinaryUpperBound(upper, n)
  {
    if |upper| <= n {
      return Some(upper);
    }
    var t := upper[..n];
    var i := n - 1;
    while i >= 0
      invariant -1 <= i < n && forall k :: i < k < n ==> t[k] == 255
    {
      if t[i] != 255 {
        LastBelowIs(t, 255, i);
        return Some(t[i := t[i] + 1]);
      }
      i := i - 1;
    }
    LastBelowIs(t, 255, -1);
    r := None;
  }

  // ----- all columns -----

  class ColumnStats {

    const columnType: ColumnType
    var bounds: Bounds

    constructor (columnType: ColumnType, bounds: Bounds)
      ensures this.columnType == columnType && this.bounds == bounds
    {
      this.columnType, this.bounds := columnType, bounds;
    }

    /** False if the assertion on the upper bound fails. */
    method ApplyColumnStatsMode(mode: Mode) returns (ok: bool)
      modifies this
      ensures ok <==> !Broken(old(bounds))
      ensures bounds == if ok then Applied(mode, columnType, old(bounds)) else old(bounds)
    {
      ok := !Broken(bounds);
      if ok {
        bounds := Applied(mode, columnType, bounds);
      }
    }
  }

  /** No column breaks the assertion, also not a column that is listed a second time. */
  ghost predicate NoneBreaks(mode: Mode, columns: seq<ColumnStats>)
    reads columns
  {
    && (forall i :: 0 <= i < |columns| ==> !Broken(columns[i].bounds))
    && (forall i, j :: 0 <= i < j < |columns| && columns[i] == columns[j] ==>
          !Broken(Applied(mode, columns[j].columnType, columns[j].bounds)))
  }

  /** The columns before position `done` end with truncated bounds, the others are unchanged. All are done
      if and only if no column breaks the assertion. */
  method ApplyColumnStatsModeForAllFileStats(mode: Mode, columns: seq<ColumnStats>) returns (done: nat)
    modifies columns
    ensures done <= |columns|
    ensures done == |columns| <==> old(NoneBreaks(mode, columns))
    ensures forall c :: c in columns[..done] ==> c.bounds == Applied(mode, c.columnType, old(c.bounds))
    ensures forall c :: c in columns && c !in columns[..done] ==> c.bounds == old(c.bounds)
    ensures done < |columns| ==> Broken(columns[done].bounds)
  {
    done := 0;
    while done < |columns|
      invariant done <= |columns|
      invariant forall c :: c in columns[..done] ==> c.bounds == Applied(mode, c.columnType, old(c.bounds))
      invariant forall c :: c in columns && c !in columns[..done] ==> c.bounds == old(c.bounds)
      invariant old(NoneBreaks(mode, columns[..done]))
    {
      var c := columns[done];
      AppliedTwice(mode, c.columnType, old(c.bounds));
      assert columns[..done + 1] == columns[..done] + [c];
      var ok := c.ApplyColumnStatsMode(mode);
      if !ok {
        return;
      }
      done := done + 1;
    }
    assert columns[..done] == columns;
  }
}
