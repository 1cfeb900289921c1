/** The CSV text of rows under the internal options (comma, double quote for quoting and escaping,
    `\N` for null), a reader following section 2 of RFC 4180, and that the reader inverts it. */
module CsvText {

  import opened Basics

  datatype Field = Null | Text(text: string)

  type Row = seq<Field>

  const NULL_PRINT: string := "\\N"
  const END_OF_DATA: string := "\\."

  predicate Special(c: char) {
    c == ',' || c == '"' || c == '\n' || c == '\r'
  }

  predicate NeedsQuote(t: string, single: bool) {
    t == NULL_PRINT || (single && t == END_OF_DATA) || exists i :: 0 <= i < |t| && Special(t[i])
  }

  function CharText(c: char): string {
    if c == '"' then ['"', '"'] else [c]
  }

  function Doubled(t: string): string {
    if t == [] then [] else CharText(t[0]) + Doubled(t[1..])
  }

  lemma {:induction false} DoubledEnd(t: string, c: char)
    ensures Doubled(t + [c]) == Doubled(t) + CharText(c)
  {
    if t == [] {
      assert (t + [c])[1..] == [];
    } else {
      assert (t + [c])[1..] == t[1..] + [c];
      DoubledEnd(t[1..], c);
    }
  }

  function FieldText(v: Field, force: bool, single: bool): string {
    match v
    case Null => NULL_PRINT
    case Text(t) => if force || NeedsQuote(t, single) then ['"'] + Doubled(t) + ['"'] else t
  }

  /** The fields of a row, each with its force-quote flag, separated by commas. */
  function FieldsText(row: Row, force: seq<bool>, single: bool): string
    requires |force| == |row|
  {
    if row == [] then []
    else if |row| == 1 then FieldText(row[0], force[0], single)
    else FieldText(row[0], force[0], single) + [','] + FieldsText(row[1..], force[1..], single)
  }

  function RowText(row: Row, force: seq<bool>): string
    requires |force| == |row|
  {
    FieldsText(row, force, |row| == 1)
  }

  function LineText(row: Row, force: seq<bool>, quoteEmptyLines: bool): string
    requires |force| == |row|
  {
    (if quoteEmptyLines && RowText(row, force) == [] && row != [] then "\"\"" else RowText(row, force)) + ['\n']
  }

  predicate SameWidth(rows: seq<Row>, force: seq<bool>) {
    forall i :: 0 <= i < |rows| ==> |rows[i]| == |force|
  }

  function FileText(rows: seq<Row>, force: seq<bool>, quoteEmptyLines: bool): string
    requires SameWidth(rows, force)
  {
    if rows == [] then [] else LineText(rows[0], force, quoteEmptyLines) + FileText(rows[1..], force, quoteEmptyLines)
  }

  // ----- the reader -----

  datatype Read<T> = Fail | Got(value: T, rest: string)

  function ReadQuoted(s: string): (r: Read<string>)
    ensures r.Got? ==> |r.rest| < |s|
  {
    if s == [] then Fail
    else if s[0] != '"' then
      match ReadQuoted(s[1..]) case Fail => Fail case Got(t, rest) => Got([s[0]] + t, rest)
    else if |s| > 1 && s[1] == '"' then
      match ReadQuoted(s[2..]) case Fail => Fail case Got(t, rest) => Got(['"'] + t, rest)
    else Got([], s[1..])
  }

  /** The characters before the next separator; a stray quote or carriage return is malformed. */
  function ReadBare(s: string): (r: Read<string>)
    ensures r.Got? ==> |r.rest| <= |s|
  {
    if s == [] || s[0] == ',' || s[0] == '\n' then Got([], s)
    else if Special(s[0]) then Fail
    else match ReadBare(s[1..]) case Fail => Fail case Got(t, rest) => Got([s[0]] + t, rest)
  }

  function ReadField(s: string): (r: Read<Field>)
    ensures r.Got? ==> |r.rest| <= |s|
  {
    if s != [] && s[0] == '"' then
      match ReadQuoted(s[1..]) case Fail => Fail case Got(t, rest) => Got(Text(t), rest)
    else
      match ReadBare(s) case Fail => Fail case Got(t, rest) => Got(if t == NULL_PRINT then Null else Text(t), rest)
  }

  function ReadRecord(s: string): (r: Read<Row>)
    ensures r.Got? ==> |r.rest| < |s|
    decreases |s|
  {
    match ReadField(s)
    case Fail => Fail
    case Got(v, rest) =>
      if rest == [] then Fail
      else if rest[0] == '\n' then Got([v], rest[1..])
      else if rest[0] == ',' then
        match ReadRecord(rest[1..]) case Fail => Fail case Got(vs, rest') => Got([v] + vs, rest')
      else Fail
  }

  /** Records to the end of the input or of the data. */
  function ReadFile(s: string): Option<seq<Row>>
    decreases |s|
  {
    if s == [] || END_OF_DATA + ['\n'] <= s then Some([])
    else
      match ReadRecord(s)
      case Fail => None
      case Got(row, rest) =>
        match ReadFile(rest) case None => None case Some(rows) => Some([row] + rows)
  }

  // ----- the reader inverts the writer -----

  lemma {:induction false} ReadsDoubled(t: string, rest: string)
    requires rest == [] || rest[0] != '"'
    ensures ReadQuoted(Doubled(t) + (['"'] + rest)) == Got(t, rest)
  {
    var tail := ['"'] + rest;
    if t == [] {
      assert Doubled(t) + tail == tail && tail[1..] == rest;
    } else {
      ReadsDoubled(t[1..], rest);
      ReadsChar(t[0], Doubled(t[1..]) + tail, t[1..], rest);
      Concat(CharText(t[0]), Doubled(t[1..]), tail);
      assert t == [t[0]] + t[1..];
    }
  }

  lemma ReadsChar(c: char, tail: string, t: string, rest: string)
    requires ReadQuoted(tail) == Got(t, rest)
    ensures ReadQuoted(CharText(c) + tail) == Got([c] + t, rest)
  {
    if c == '"' {
      assert (['"', '"'] + tail)[2..] == tail;
    } else {
      assert ([c] + tail)[1..] == tail;
    }
  }

  lemma Concat(a: string, b: string, c: string)
    ensures a + b + c == a + (b + c)
  {
  }

  predicate Separator(c: char) {
    c == ',' || c == '\n'
  }

  lemma {:induction false} ReadsBare(t: string, rest: string)
    requires forall i :: 0 <= i < |t| ==> !Special(t[i])
    requires rest != [] && Separator(rest[0])
    ensures ReadBare(t + rest) == Got(t, rest)
  {
    if t == [] {
      assert t + rest == rest;
    } else {
      ReadsBare(t[1..], rest);
      assert (t + rest)[1..] == t[1..] + rest;
      assert t == [t[0]] + t[1..];
    }
  }

  lemma ReadsField(v: Field, force: bool, single: bool, rest: string)
    requires rest != [] && Separator(rest[0])
    ensures ReadField(FieldText(v, force, single) + rest) == Got(v, rest)
  {
    match v
    case Null => ReadsBare(NULL_PRINT, rest);
    case Text(t) =>
      if force || NeedsQuote(t, single) {
        ReadsQuotedField(t, rest);
      } else {
        ReadsBare(t, rest);
        assert (t + rest)[0] != '"';
      }
  }

  lemma ReadsQuotedField(t: string, rest: string)
    requires rest != [] && Separator(rest[0])
    ensures ReadField(['"'] + Doubled(t) + ['"'] + rest) == Got(Text(t), rest)
  {
    ReadsDoubled(t, rest);
    assert (['"'] + Doubled(t) + ['"'] + rest)[1..] == Doubled(t) + (['"'] + rest);
  }

  lemma RecordEnds(s: string, v: Field, rest: string)
    requires ReadField(s) == Got(v, ['\n'] + rest)
    ensures ReadRecord(s) == Got([v], rest)
  {
    assert (['\n'] + rest)[1..] == rest;
  }

  lemma RecordContinues(s: string, v: Field, more: string, vs: Row, rest: string)
    requires ReadField(s) == Got(v, [','] + more) && ReadRecord(more) == Got(vs, rest)
    ensures ReadRecord(s) == Got([v] + vs, rest)
  {
    assert ([','] + more)[1..] == more;
  }

  lemma {:induction false} ReadsFields(row: Row, force: seq<bool>, single: bool, rest: string)
    requires row != [] && |force| == |row|
    ensures ReadRecord(FieldsText(row, force, single) + (['\n'] + rest)) == Got(row, rest)
    decreases |row|
  {
    var tail, first := ['\n'] + rest, FieldText(row[0], force[0], single);
    if |row| == 1 {
      assert row == [row[0]];
      ReadsField(row[0], force[0], single, tail);
      RecordEnds(first + tail, row[0], rest);
    } else {
      var text := FieldsText(row[1..], force[1..], single);
      assert row == [row[0]] + row[1..];
      ReadsFields(row[1..], force[1..], single, rest);
      ReadsField(row[0], force[0], single, [','] + (text + tail));
      RecordContinues(first + ([','] + (text + tail)), row[0], text + tail, row[1..], rest);
      Regroup(first, [','], text, tail);
    }
  }

  lemma Regroup(a: string, b: string, c: string, d: string)
    ensures a + b + c + d == a + (b + (c + d))
  {
  }

  lemma ReadsQuotedEmpty(rest: string)
    ensures ReadRecord("\"\"" + (['\n'] + rest)) == Got([Text([])], rest)
  {
    var row: Row := [Text([])];
    ReadsFields(row, [true], true, rest);
    assert FieldsText(row, [true], true) == "\"\"";
  }

  lemma ReadsLine(row: Row, force: seq<bool>, quoteEmptyLines: bool, rest: string)
    requires row != [] && |force| == |row|
    ensures ReadRecord(LineText(row, force, quoteEmptyLines) + rest) == Got(row, rest)
  {
    var text := RowText(row, force);
    if quoteEmptyLines && text == [] {
      EmptyLineRow(row, force);
      ReadsQuotedEmpty(rest);
      Concat("\"\"", ['\n'], rest);
    } else {
      ReadsFields(row, force, |row| == 1, rest);
      Concat(text, ['\n'], rest);
    }
  }

  /** Only a single unquoted empty field gives an empty line. */
  lemma EmptyLineRow(row: Row, force: seq<bool>)
    requires row != [] && |force| == |row|
    ensures RowText(row, force) == [] ==> row == [Text([])]
  {
    if |row| > 1 {
      assert |RowText(row, force)| > 0;
    } else {
      assert row == [row[0]];
    }
  }

  lemma MarkReads(s: string)
    requires END_OF_DATA + ['\n'] <= s
    ensures ReadRecord(s) == Got([Text(END_OF_DATA)], s[3..])
  {
    var rest := ['\n'] + s[3..];
    ReadsBare(END_OF_DATA, rest);
    assert s == END_OF_DATA + rest;
    assert rest[1..] == s[3..];
  }

  /** A written line is never taken for the end of the data. */
  lemma LineIsData(row: Row, force: seq<bool>, quoteEmptyLines: bool, rest: string)
    requires row != [] && |force| == |row|
    ensures !(END_OF_DATA + ['\n'] <= LineText(row, force, quoteEmptyLines) + rest)
  {
    var s := LineText(row, force, quoteEmptyLines) + rest;
    if row == [Text(END_OF_DATA)] {
      assert NeedsQuote(END_OF_DATA, true);
      assert s[0] == '"';
    } else {
      ReadsLine(row, force, quoteEmptyLines, rest);
      if END_OF_DATA + ['\n'] <= s {
        MarkReads(s);
        assert false;
      }
    }
  }

  /** Reading a written file gives back exactly the rows, nulls and texts alike. */
  lemma {:induction false} CsvRoundTrip(rows: seq<Row>, force: seq<bool>, quoteEmptyLines: bool)
    requires force != [] && SameWidth(rows, force)
    ensures ReadFile(FileText(rows, force, quoteEmptyLines)) == Some(rows)
  {
    if rows != [] {
      var rest := FileText(rows[1..], force, quoteEmptyLines);
      CsvRoundTrip(rows[1..], force, quoteEmptyLines);
      ReadsLine(rows[0], force, quoteEmptyLines, rest);
      LineIsData(rows[0], force, quoteEmptyLines, rest);
      assert rows == [rows[0]] + rows[1..];
    }
  }
}
