/** The CSV writer's row loop: a message buffer filled attribute by attribute and flushed per row. */
module CsvWriter {

  import opened CsvText

  function Max(a: nat, b: nat): nat {
    if a < b then b else a
  }

  /** The longest line of a file, line ends not counted. */
  function LongestLine(rows: seq<Row>, force: seq<bool>, quoteEmptyLines: bool): nat
    requires SameWidth(rows, force)
  {
    if rows == [] then 0
    else
      var init := rows[..|rows| - 1];
      Max(LongestLine(init, force, quoteEmptyLines), |LineText(rows[|rows| - 1], force, quoteEmptyLines)| - 1)
  }

  lemma {:induction false} FileTextEnd(rows: seq<Row>, row: Row, force: seq<bool>, quoteEmptyLines: bool)
    requires SameWidth(rows + [row], force)
    ensures SameWidth(rows, force) && |row| == |force|
    ensures FileText(rows + [row], force, quoteEmptyLines) ==
      FileText(rows, force, quoteEmptyLines) + LineText(row, force, quoteEmptyLines)
  {
    WidthEnd(rows, row, force);
    if rows == [] {
      assert rows + [row] == [row] && [row][1..] == [];
    } else {
      assert (rows + [row])[0] == rows[0] && (rows + [row])[1..] == rows[1..] + [row];
      FileTextEnd(rows[1..], row, force, quoteEmptyLines);
      Regroup(LineText(rows[0], force, quoteEmptyLines), FileText(rows[1..], force, quoteEmptyLines),
        LineText(row, force, quoteEmptyLines));
    }
  }

  lemma WidthEnd(rows: seq<Row>, row: Row, force: seq<bool>)
    requires SameWidth(rows + [row], force)
    ensures SameWidth(rows, force) && |row| == |force| && (rows != [] ==> SameWidth(rows[1..] + [row], force))
  {
    assert (rows + [row])[|rows|] == row;
    assert forall i :: 0 <= i < |rows| ==> (rows + [row])[i] == rows[i];
  }

  lemma Regroup(a: string, b: string, c: string)
    ensures a + (b + c) == a + b + c
  {
  }

  /** No line is longer than the recorded maximum, and some line reaches it. */
  lemma {:induction false} LongestLineIsMaximum(rows: seq<Row>, force: seq<bool>, quoteEmptyLines: bool)
    requires SameWidth(rows, force)
    ensures forall i :: 0 <= i < |rows| ==>
      |LineText(rows[i], force, quoteEmptyLines)| - 1 <= LongestLine(rows, force, quoteEmptyLines)
    ensures rows != [] ==>
      exists i :: 0 <= i < |rows| &&
        |LineText(rows[i], force, quoteEmptyLines)| - 1 == LongestLine(rows, force, quoteEmptyLines)
  {
    if rows != [] {
      var init := rows[..|rows| - 1];
      LongestLineIsMaximum(init, force, quoteEmptyLines);
      forall i | 0 <= i < |rows|
        ensures |LineText(rows[i], force, quoteEmptyLines)| - 1 <= LongestLine(rows, force, quoteEmptyLines)
      {
        if i < |rows| - 1 {
          assert rows[i] == init[i];
        }
      }
      assert init == [] ==> LongestLine(init, force, quoteEmptyLines) == 0;
      if LongestLine(rows, force, quoteEmptyLines) == |LineText(rows[|rows| - 1], force, quoteEmptyLines)| - 1 {
      } else {
        var i :| 0 <= i < |init| &&
          |LineText(init[i], force, quoteEmptyLines)| - 1 == LongestLine(init, force, quoteEmptyLines);
        assert rows[i] == init[i];
      }
    }
  }

  class CopyToState {

    const force: seq<bool>            // force_quote flags, one per column
    const quoteEmptyLines: bool
    var msgbuf: string
    var file: string
    var maxLineSize: nat
    var bytesProcessed: nat

    constructor (force: seq<bool>, quoteEmptyLines: bool)
      ensures this.force == force && this.quoteEmptyLines == quoteEmptyLines
      ensures msgbuf == [] && Wrote([])
    {
      this.force, this.quoteEmptyLines := force, quoteEmptyLines;
      msgbuf, file, maxLineSize, bytesProcessed := [], [], 0, 0;
    }

    /** The writer has written exactly `rows`. */
    ghost predicate Wrote(rows: seq<Row>)
      reads this
    {
      && SameWidth(rows, force) && msgbuf == []
      && file == FileText(rows, force, quoteEmptyLines)
      && maxLineSize == LongestLine(rows, force, quoteEmptyLines)
      && bytesProcessed == |file|
    }

    /** Decides on quoting, then sends the text in chunks that start at each character to escape. */
    method CopyAttributeOutCSV(string_: string, forceQuote: bool, singleAttr: bool)
      modifies this`msgbuf
      ensures msgbuf == old(msgbuf) + FieldText(Text(string_), forceQuote, singleAttr)
    {
      var useQuote := forceQuote;
      if !useQuote && string_ == NULL_PRINT {
        useQuote := true;
      }
      if !useQuote {
        if singleAttr && string_ == END_OF_DATA {
          useQuote := true;
        } else {
          useQuote := HasSpecial(string_);
        }
      }
      if useQuote {
        SendQuoted(string_);
      } else {
        msgbuf := msgbuf + string_;
      }
    }

    method HasSpecial(s: string) returns (found: bool)
      ensures found <==> exists i :: 0 <= i < |s| && Special(s[i])
    {
      found := false;
      for i := 0 to |s|
        invariant !found && forall k :: 0 <= k < i ==> !Special(s[k])
      {
        if Special(s[i]) {
          return true;
        }
      }
    }

    method SendQuoted(s: string)
      modifies this`msgbuf
      ensures msgbuf == old(msgbuf) + (['"'] + Doubled(s) + ['"'])
    {
      ghost var before := msgbuf + ['"'];
      msgbuf := msgbuf + ['"'];
      var start, ptr := 0, 0;
      while ptr < |s|
        invariant 0 <= start <= ptr <= |s|
        invariant msgbuf + s[start..ptr] == before + Doubled(s[..ptr])
      {
        ChunkStep(msgbuf, s, start, ptr, before);
        if s[ptr] == '"' {
          msgbuf := msgbuf + s[start..ptr];
          msgbuf := msgbuf + ['"'];
          start := ptr;
        }
        ptr := ptr + 1;
      }
      assert s[..ptr] == s;
      msgbuf := msgbuf + s[start..ptr];
      msgbuf := msgbuf + ['"'];
      RegroupQuoted(old(msgbuf), Doubled(s));
    }

    method CopySendEndOfRow()
      modifies this
      ensures var line :=
        (if quoteEmptyLines && old(msgbuf) == [] && force != [] then "\"\"" else old(msgbuf)) + ['\n'];
        && file == old(file) + line
        && maxLineSize == Max(old(maxLineSize), |line| - 1)
        && bytesProcessed == old(bytesProcessed) + |line|
        && msgbuf == []
    {
      if quoteEmptyLines && msgbuf == [] && force != [] {
        msgbuf := msgbuf + "\"\"";
      }
      if |msgbuf| > maxLineSize {
        maxLineSize := |msgbuf|;
      }
      msgbuf := msgbuf + ['\n'];
      file := file + msgbuf;
      bytesProcessed := bytesProcessed + |msgbuf|;
      msgbuf := [];
    }

    method SendField(v: Field, forceQuote: bool, singleAttr: bool, needDelim: bool)
      modifies this`msgbuf
      ensures msgbuf == old(msgbuf) + ((if needDelim then [','] else []) + FieldText(v, forceQuote, singleAttr))
    {
      if needDelim {
        msgbuf := msgbuf + [','];
      }
      if v.Null? {
        msgbuf := msgbuf + NULL_PRINT;
      } else {
        CopyAttributeOutCSV(v.text, forceQuote, singleAttr);
      }
    }

    method SendFields(row: Row)
      requires |row| == |force| && msgbuf == []
      modifies this`msgbuf
      ensures msgbuf == RowText(row, force)
    {
      var needDelim := false;
      ghost var text := RowText(row, force);
      SendStart(row, force);
      for i := 0 to |row|
        invariant needDelim <==> i > 0
        invariant msgbuf + Pending(row[i..], force[i..], |row| == 1, needDelim) == text
      {
        SendGrows(msgbuf, row, force, |row| == 1, needDelim, i);
        SendField(row[i], force[i], |row| == 1, needDelim);
        needDelim := true;
      }
    }

    /** Appends one row to the file; everything written before stays. */
    method CopyOneRowTo(row: Row, ghost rows: seq<Row>)
      requires Wrote(rows) && |row| == |force|
      modifies this
      ensures Wrote(rows + [row])
    {
      SendFields(row);
      CopySendEndOfRow();
      assert (rows + [row])[..|rows|] == rows;
      FileTextEnd(rows, row, force, quoteEmptyLines);
    }
  }

  lemma RegroupQuoted(a: string, d: string)
    ensures a + ['"'] + d + ['"'] == a + (['"'] + d + ['"'])
  {
  }

  /** The chunk so far and one more character, which a quote is put before if it is one. */
  lemma ChunkStep(buf: string, s: string, start: nat, ptr: nat, before: string)
    requires start <= ptr < |s| && buf + s[start..ptr] == before + Doubled(s[..ptr])
    ensures s[ptr] == '"' ==> buf + s[start..ptr] + ['"'] + s[ptr..ptr + 1] == before + Doubled(s[..ptr + 1])
    ensures s[ptr] != '"' ==> buf + s[start..ptr + 1] == before + Doubled(s[..ptr + 1])
  {
    assert s[..ptr + 1] == s[..ptr] + [s[ptr]];
    DoubledEnd(s[..ptr], s[ptr]);
    ChunkGrows(buf, s, start, ptr, before + Doubled(s[..ptr]));
  }

  lemma ChunkGrows(buf: string, s: string, start: nat, ptr: nat, done: string)
    requires start <= ptr < |s| && buf + s[start..ptr] == done
    ensures buf + s[start..ptr + 1] == done + [s[ptr]]
    ensures buf + s[start..ptr] + ['"'] + s[ptr..ptr + 1] == done + ['"', s[ptr]]
  {
    assert s[start..ptr + 1] == s[start..ptr] + [s[ptr]];
  }

  /** The fields still to be sent, with the separator that precedes them. */
  function Pending(row: Row, force: seq<bool>, single: bool, needDelim: bool): string
    requires |force| == |row|
  {
    (if needDelim && row != [] then [','] else []) + FieldsText(row, force, single)
  }

  lemma SendStart(row: Row, force: seq<bool>)
    requires |force| == |row|
    ensures [] + Pending(row[0..], force[0..], |row| == 1, false) == RowText(row, force)
  {
    assert row[0..] == row && force[0..] == force;
  }

  lemma SendGrows(buf: string, row: Row, force: seq<bool>, single: bool, needDelim: bool, i: nat)
    requires i < |row| && |force| == |row|
    ensures buf + Pending(row[i..], force[i..], single, needDelim) ==
      buf + ((if needDelim then [','] else []) + FieldText(row[i], force[i], single)) +
        Pending(row[i + 1..], force[i + 1..], single, true)
  {
    PendingStep(row, force, single, needDelim, i);
  }

  lemma PendingStep(row: Row, force: seq<bool>, single: bool, needDelim: bool, i: nat)
    requires i < |row| && |force| == |row|
    ensures Pending(row[i..], force[i..], single, needDelim) ==
      (if needDelim then [','] else []) + FieldText(row[i], force[i], single) +
        Pending(row[i + 1..], force[i + 1..], single, true)
  {
    assert row[i..][1..] == row[i + 1..] && force[i..][1..] == force[i + 1..];
  }
}
