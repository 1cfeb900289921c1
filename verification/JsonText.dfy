/** JSON string escaping as PostgreSQL's escape_json does it (section 7 of RFC 8259), and the loop
    that undoes it. */
module JsonText {

  import opened Basics

  const BACKSPACE: char := '\U{0008}'
  const FORM_FEED: char := '\U{000C}'

  // ----- escaping -----

  function HexDigit(n: nat): char
    requires n < 16
  {
    "0123456789abcdef"[n]
  }

  function EscapedChar(c: char): string {
    if c == BACKSPACE then "\\b"
    else if c == FORM_FEED then "\\f"
    else if c == '\n' then "\\n"
    else if c == '\r' then "\\r"
    else if c == '\t' then "\\t"
    else if c == '"' then "\\\""
    else if c == '\\' then "\\\\"
    else if c < ' ' then ['\\', 'u', '0', '0', HexDigit(c as int / 16), HexDigit(c as int % 16)]
    else [c]
  }

  function EscapedBody(s: string): string {
    if s == [] then [] else EscapedChar(s[0]) + EscapedBody(s[1..])
  }

  /** A missing value is escaped like the empty string. */
  function EscapeJson(val: Option<string>): string {
    ['"'] + (if val.None? then [] else EscapedBody(val.value)) + ['"']
  }

  // ----- unescaping -----

  function HexValue(c: char): Option<nat> {
    if '0' <= c <= '9' then Some(c as int - '0' as int)
    else if 'a' <= c <= 'f' then Some(c as int - 'a' as int + 10)
    else if 'A' <= c <= 'F' then Some(c as int - 'A' as int + 10)
    else None
  }

  /** Four hexadecimal digits, of which a byte is kept. */
  function UnicodeByte(s: string): Option<char>
    requires |s| == 4
  {
    var a, b, c, d := HexValue(s[0]), HexValue(s[1]), HexValue(s[2]), HexValue(s[3]);
    if a.None? || b.None? || c.None? || d.None? then None
    else Some(((a.value * 4096 + b.value * 256 + c.value * 16 + d.value) % 256) as char)
  }

  function Simple(c: char): char {
    if c == 'b' then BACKSPACE
    else if c == 'f' then FORM_FEED
    else if c == 'n' then '\n'
    else if c == 'r' then '\r'
    else if c == 't' then '\t'
    else c
  }

  /** The next character and how much it takes; Bad where the loop would read past the end of its
      buffer or parse something that is not four hexadecimal digits. */
  datatype Step = Bad | One(c: char, size: nat)

  function Next(s: string): (r: Step)
    requires s != []
    ensures r.One? ==> 0 < r.size <= |s|
  {
    if s[0] != '\\' then One(s[0], 1)
    else if |s| < 2 then Bad
    else if s[1] != 'u' then One(Simple(s[1]), 2)
    else if |s| < 6 || UnicodeByte(s[2..6]).None? then Bad
    else One(UnicodeByte(s[2..6]).value, 6)
  }

  function Unescaped(s: string): Option<string>
    decreases |s|
  {
    if s == [] then Some([])
    else match Next(s) case Bad => None case One(c, n) => Prepend([c], Unescaped(s[n..]))
  }

  function Prepend(a: string, r: Option<string>): Option<string> {
    if r.None? then None else Some(a + r.value)
  }

  /** One quote is taken off each end, where there is one. */
  function Stripped(s: string): string {
    var t := if s != [] && s[0] == '"' then s[1..] else s;
    if t != [] && t[|t| - 1] == '"' then t[..|t| - 1] else t
  }

  // ----- the round trip -----

  lemma HexRoundTrip(n: nat)
    requires n < 16
    ensures HexValue(HexDigit(n)) == Some(n)
  {
  }

  lemma ControlRoundTrip(c: char)
    requires c < ' '
    ensures UnicodeByte(['0', '0', HexDigit(c as int / 16), HexDigit(c as int % 16)]) == Some(c)
  {
    var hi, lo := c as int / 16, c as int % 16;
    HexRoundTrip(hi);
    HexRoundTrip(lo);
    DigitsByte(HexDigit(hi), HexDigit(lo), hi, lo);
    assert hi * 16 + lo == c as int;
  }

  lemma DigitsByte(a: char, b: char, hi: nat, lo: nat)
    requires HexValue(a) == Some(hi) && HexValue(b) == Some(lo) && hi * 16 + lo < 256
    ensures UnicodeByte(['0', '0', a, b]) == Some((hi * 16 + lo) as char)
  {
    assert HexValue('0') == Some(0);
  }

  lemma ControlNext(c: char, tail: string)
    requires c < ' ' && |EscapedChar(c)| == 6
    ensures Next(EscapedChar(c) + tail) == One(c, 6)
  {
    var s := EscapedChar(c) + tail;
    ControlRoundTrip(c);
    assert s[2..6] == ['0', '0', HexDigit(c as int / 16), HexDigit(c as int % 16)];
  }

  lemma CharNext(c: char, tail: string)
    ensures Next(EscapedChar(c) + tail) == One(c, |EscapedChar(c)|)
  {
    var e := EscapedChar(c);
    if |e| == 6 {
      ControlNext(c, tail);
    } else {
      assert (e + tail)[0] == e[0];
      assert |e| == 2 ==> (e + tail)[1] == e[1];
    }
  }

  lemma CharRoundTrip(c: char, tail: string)
    ensures Unescaped(EscapedChar(c) + tail) == Prepend([c], Unescaped(tail))
  {
    CharNext(c, tail);
    assert (EscapedChar(c) + tail)[|EscapedChar(c)|..] == tail;
  }

  lemma {:induction false} BodyRoundTrip(s: string)
    ensures Unescaped(EscapedBody(s)) == Some(s)
  {
    if s != [] {
      BodyRoundTrip(s[1..]);
      CharRoundTrip(s[0], EscapedBody(s[1..]));
      assert s == [s[0]] + s[1..];
    }
  }

  lemma StrippedEscape(val: Option<string>)
    ensures Stripped(EscapeJson(val)) == if val.None? then [] else EscapedBody(val.value)
  {
    var body := if val.None? then [] else EscapedBody(val.value);
    assert EscapeJson(val)[1..] == body + ['"'];
    assert (body + ['"'])[..|body|] == body;
  }

  /** Every text comes back from its escaped form, whatever it ends in. */
  lemma JsonRoundTrip(s: string)
    ensures Unescaped(Stripped(EscapeJson(Some(s)))) == Some(s)
  {
    StrippedEscape(Some(s));
    BodyRoundTrip(s);
  }

  /** One round of the loop, at position `p`. */
  method ReadChar(buf: string, p: nat) returns (r: Step)
    requires p < |buf|
    ensures r == Next(buf[p..])
  {
    if buf[p] != '\\' {
      return One(buf[p], 1);
    }
    if p + 1 == |buf| {
      return Bad;
    }
    if buf[p + 1] != 'u' {
      return One(Simple(buf[p + 1]), 2);
    }
    if p + 6 > |buf| {
      return Bad;
    }
    assert buf[p..][2..6] == buf[p + 2..p + 6];
    var c := UnicodeByte(buf[p + 2..p + 6]);
    r := if c.None? then Bad else One(c.value, 6);
  }

  /** The loop: a pointer into the input, an output buffer that grows. */
  method UnEscapeBody(buf: string) returns (r: Option<string>)
    ensures r == Unescaped(buf)
  {
    var p, out := 0, "";
    assert buf[0..] == buf;
    PrependNothing(Unescaped(buf));
    while p < |buf|
      invariant 0 <= p <= |buf|
      invariant Unescaped(buf) == Prepend(out, Unescaped(buf[p..]))
    {
      var step := ReadChar(buf, p);
      if step.Bad? {
        return None;
      }
      assert buf[p..][step.size..] == buf[p + step.size..];
      PrependMore(out, step.c, Unescaped(buf[p + step.size..]));
      out, p := out + [step.c], p + step.size;
    }
    assert out + [] == out;
    r := Some(out);
  }

  /** Takes the quotes off a copy of the input and unescapes what is between them. */
  method UnEscapeJson(val: string) returns (r: Option<string>)
    ensures r == Unescaped(Stripped(val))
  {
    var buf := val;
    if |buf| > 0 && buf[0] == '"' {
      buf := buf[1..];
    }
    if |buf| > 0 && buf[|buf| - 1] == '"' {
      buf := buf[..|buf| - 1];
    }
    r := UnEscapeBody(buf);
  }

  lemma PrependNothing(r: Option<string>)
    ensures Prepend("", r) == r
  {
    if r.Some? {
      assert "" + r.value == r.value;
    }
  }

  lemma PrependMore(out: string, c: char, r: Option<string>)
    ensures Prepend(out, Prepend([c], r)) == Prepend(out + [c], r)
  {
    if r.Some? {
      assert out + ([c] + r.value) == out + [c] + r.value;
    }
  }
}
