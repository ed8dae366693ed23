/** Lines of labels and quoted values, as authoringcard/text.go writes them with
    strconv.Quote, and a reader that takes them apart again. Text is a sequence of
    Unicode scalar values; `printable` is strconv.IsPrint. */
module Quoting {
  import opened Common
  import opened Text

  // ---------- Hexadecimal escapes ----------

  function HexDigit(d: nat): char
    requires d < 16
  {
    if d < 10 then Digit(d) else ('a' as int + d - 10) as char
  }

  function HexValue(c: char): Option<nat> {
    if '0' <= c <= '9' then Some(c as int - '0' as int)
    else if 'a' <= c <= 'f' then Some(c as int - 'a' as int + 10)
    else None
  }

  function Hex(n: nat, width: nat): (r: string)
    ensures |r| == width
  {
    if width == 0 then [] else Hex(n / 16, width - 1) + [HexDigit(n % 16)]
  }

  function ReadHex(s: string): Option<nat> {
    if s == [] then Some(0)
    else
      var high, low := ReadHex(s[..|s| - 1]), HexValue(s[|s| - 1]);
      if high.Some? && low.Some? then Some(16 * high.value + low.value) else None
  }

  predicate Fits(n: nat, width: nat) {
    if width == 0 then n == 0 else Fits(n / 16, width - 1)
  }

  lemma {:induction false} ReadHexOfHex(n: nat, width: nat)
    requires Fits(n, width)
    ensures ReadHex(Hex(n, width)) == Some(n)
  {
    if width > 0 {
      var s := Hex(n, width);
      assert s[..|s| - 1] == Hex(n / 16, width - 1);
      ReadHexOfHex(n / 16, width - 1);
    }
  }

  lemma {:induction false} Wider(n: nat, width: nat)
    requires Fits(n / 16, width)
    ensures Fits(n, width + 1)
  {
  }

  lemma RunesFit(n: nat)
    ensures n < 0x100 ==> Fits(n, 2)
    ensures n < 0x10000 ==> Fits(n, 4)
    ensures n < 0x1_0000_0000 ==> Fits(n, 8)
  {
    var a := n / 16;
    var b := a / 16;
    var c := b / 16;
    var d := c / 16;
    var e := d / 16;
    var f := e / 16;
    var g := f / 16;
    var h := g / 16;
    assert n < 0x100 ==> b == 0;
    assert n < 0x10000 ==> d == 0;
    assert n < 0x1_0000_0000 ==> h == 0;
    assert Fits(0, 0);
    hide Fits;
    if n < 0x100 { Wider(a, 0); Wider(n, 1); }
    if n < 0x10000 { Wider(c, 0); Wider(b, 1); Wider(a, 2); Wider(n, 3); }
    if n < 0x1_0000_0000 {
      Wider(g, 0); Wider(f, 1); Wider(e, 2); Wider(d, 3);
      Wider(c, 4); Wider(b, 5); Wider(a, 6); Wider(n, 7);
    }
  }

  // ---------- strconv.Quote ----------

  /** The letter of a one-letter escape. */
  function Letter(c: char): Option<char> {
    match c as int
    case 7 => Some('a')
    case 8 => Some('b')
    case 9 => Some('t')
    case 10 => Some('n')
    case 11 => Some('v')
    case 12 => Some('f')
    case 13 => Some('r')
    case _ => None
  }

  function Named(letter: char): Option<char> {
    match letter
    case 'a' => Some(7 as char)
    case 'b' => Some(8 as char)
    case 't' => Some(9 as char)
    case 'n' => Some(10 as char)
    case 'v' => Some(11 as char)
    case 'f' => Some(12 as char)
    case 'r' => Some(13 as char)
    case '"' => Some('"')
    case '\\' => Some('\\')
    case _ => None
  }

  function Escape(printable: char -> bool, c: char): (r: string)
    ensures r != [] && r[0] != '"'
  {
    if c == '"' || c == '\\' then ['\\', c]
    else if printable(c) then [c]
    else if Letter(c).Some? then ['\\', Letter(c).value]
    else if c < ' ' || c as int == 0x7f then ['\\', 'x'] + Hex(c as int, 2)
    else if c as int < 0x10000 then ['\\', 'u'] + Hex(c as int, 4)
    else ['\\', 'U'] + Hex(c as int, 8)
  }

  function Escapes(printable: char -> bool, s: string): string {
    if s == [] then [] else Escape(printable, s[0]) + Escapes(printable, s[1..])
  }

  function Quote(printable: char -> bool, s: string): string {
    ['"'] + Escapes(printable, s) + ['"']
  }

  predicate Scalar(n: nat) {
    n < 0xD800 || 0xE000 <= n < 0x110000
  }

  /** One escaped or plain rune, and the number of characters it takes. */
  function ReadRune(t: string): (r: Option<(char, nat)>)
    requires t != []
    ensures r.Some? ==> 0 < r.value.1 <= |t|
  {
    if t[0] != '\\' then Some((t[0], 1))
    else if |t| < 2 then None
    else if Named(t[1]).Some? then Some((Named(t[1]).value, 2))
    else
      var width := if t[1] == 'x' then 2 else if t[1] == 'u' then 4 else if t[1] == 'U' then 8 else |t|;
      if 2 + width > |t| then None
      else
        var n := ReadHex(t[2..2 + width]);
        if n.Some? && Scalar(n.value) then Some((n.value as char, 2 + width)) else None
  }

  lemma ReadHexEscape(kind: char, width: nat, c: char, rest: string)
    requires (kind == 'x' && width == 2) || (kind == 'u' && width == 4) || (kind == 'U' && width == 8)
    requires Fits(c as int, width)
    ensures ReadRune(['\\', kind] + Hex(c as int, width) + rest) == Some((c, 2 + width))
  {
    hide Hex, ReadHex, Fits;
    var t := ['\\', kind] + Hex(c as int, width) + rest;
    assert t[2..2 + width] == Hex(c as int, width);
    ReadHexOfHex(c as int, width);
  }

  lemma ReadEscape(printable: char -> bool, c: char, rest: string)
    ensures ReadRune(Escape(printable, c) + rest) == Some((c, |Escape(printable, c)|))
  {
    hide Hex, ReadHex, Fits;
    var e := Escape(printable, c);
    if c != '"' && c != '\\' && !printable(c) && Letter(c).None? {
      RunesFit(c as int);
      if e[1] == 'x' {
        ReadHexEscape('x', 2, c, rest);
      } else if e[1] == 'u' {
        ReadHexEscape('u', 4, c, rest);
      } else {
        ReadHexEscape('U', 8, c, rest);
      }
    }
  }

  /** A quoted value from just after its opening quote: the value and what follows. */
  function ReadQuoted(t: string): (r: Option<(string, string)>)
    ensures r.Some? ==> |r.value.1| < |t|
    decreases |t|
  {
    if t == [] then None
    else if t[0] == '"' then Some(([], t[1..]))
    else
      var c := ReadRune(t);
      if c.None? then None
      else
        var s := ReadQuoted(t[c.value.1..]);
        if s.None? then None else Some(([c.value.0] + s.value.0, s.value.1))
  }

  lemma {:induction false} ReadQuotedOfQuote(printable: char -> bool, s: string, rest: string)
    ensures ReadQuoted(Escapes(printable, s) + ['"'] + rest) == Some((s, rest))
  {
    hide Escape, ReadRune;
    var t := Escapes(printable, s) + ['"'] + rest;
    if s == [] {
      assert t[1..] == rest;
    } else {
      var e, tail := Escape(printable, s[0]), Escapes(printable, s[1..]) + ['"'] + rest;
      assert t == e + tail;
      ReadEscape(printable, s[0], tail);
      assert t[|e|..] == tail;
      ReadQuotedOfQuote(printable, s[1..], rest);
      assert s == [s[0]] + s[1..];
    }
  }

  /** Quoting leaves no control character, so no value starts a line of its own. */
  lemma {:induction false} QuoteIsOneLine(printable: char -> bool, s: string)
    requires forall c :: printable(c) ==> c >= ' ' && c as int != 0x7f
    ensures forall i :: 0 <= i < |Quote(printable, s)| ==> Quote(printable, s)[i] >= ' ' && Quote(printable, s)[i] as int != 0x7f
  {
    EscapesVisible(printable, s);
  }

  lemma {:induction false} HexVisible(n: nat, width: nat)
    ensures forall i :: 0 <= i < width ==> '0' <= Hex(n, width)[i] <= 'f'
  {
    if width > 0 { HexVisible(n / 16, width - 1); }
  }

  lemma {:induction false} EscapesVisible(printable: char -> bool, s: string)
    requires forall c :: printable(c) ==> c >= ' ' && c as int != 0x7f
    ensures forall i :: 0 <= i < |Escapes(printable, s)| ==> Escapes(printable, s)[i] >= ' ' && Escapes(printable, s)[i] as int != 0x7f
  {
    if s != [] {
      EscapesVisible(printable, s[1..]);
      HexVisible(s[0] as int, 2);
      HexVisible(s[0] as int, 4);
      HexVisible(s[0] as int, 8);
    }
  }

  // ---------- Lines ----------

  datatype Line = Line(head: string, values: seq<string>)

  function ValuesText(printable: char -> bool, values: seq<string>): string {
    if values == [] then [] else [' '] + Quote(printable, values[0]) + ValuesText(printable, values[1..])
  }

  function LineText(printable: char -> bool, line: Line): string {
    line.head + ValuesText(printable, line.values) + ['\n']
  }

  function LinesText(printable: char -> bool, lines: seq<Line>): string {
    if lines == [] then [] else LineText(printable, lines[0]) + LinesText(printable, lines[1..])
  }

  /** Where a label ends: at the first quote or line break. */
  function LabelEnd(t: string): (n: nat)
    ensures n <= |t|
  {
    if t == [] || t[0] == '"' || t[0] == '\n' then 0 else 1 + LabelEnd(t[1..])
  }

  /** Quoted values up to the end of the line, from the first opening quote. */
  function ReadValues(t: string): (r: Option<(seq<string>, string)>)
    ensures r.Some? ==> |r.value.1| < |t|
    decreases |t|
  {
    if t == [] || t[0] != '"' then None
    else
      var v := ReadQuoted(t[1..]);
      if v.None? || v.value.1 == [] then None
      else if v.value.1[0] == '\n' then Some(([v.value.0], v.value.1[1..]))
      else if v.value.1[0] != ' ' then None
      else
        var more := ReadValues(v.value.1[1..]);
        if more.None? then None else Some(([v.value.0] + more.value.0, more.value.1))
  }

  function ReadLine(t: string): (r: Option<(Line, string)>)
    ensures r.Some? ==> |r.value.1| < |t|
  {
    var n := LabelEnd(t);
    if n == |t| then None
    else if t[n] == '\n' then Some((Line(t[..n], []), t[n + 1..]))
    else if n == 0 || t[n - 1] != ' ' then None
    else
      var values := ReadValues(t[n..]);
      if values.None? then None else Some((Line(t[..n - 1], values.value.0), values.value.1))
  }

  function ReadLines(t: string): Option<seq<Line>>
    decreases |t|
  {
    if t == [] then Some([])
    else
      var line := ReadLine(t);
      if line.None? then None
      else
        var more := ReadLines(line.value.1);
        if more.None? then None else Some([line.value.0] + more.value)
  }

  predicate PlainLabel(head: string) {
    forall i :: 0 <= i < |head| ==> head[i] != '"' && head[i] != '\n'
  }

  lemma {:induction false} LabelEndsAt(head: string, rest: string)
    requires PlainLabel(head) && rest != [] && (rest[0] == '"' || rest[0] == '\n')
    ensures LabelEnd(head + rest) == |head|
  {
    if head == [] {
      assert head + rest == rest;
    } else {
      assert (head + rest)[1..] == head[1..] + rest;
      LabelEndsAt(head[1..], rest);
    }
  }

  lemma ReadOneValue(printable: char -> bool, value: string, tail: string)
    requires tail != []
    ensures var t := Quote(printable, value) + tail;
            t != [] && t[0] == '"' && ReadQuoted(t[1..]) == Some((value, tail))
  {
    hide ReadQuoted, Escapes;
    var t := Quote(printable, value) + tail;
    assert t[1..] == Escapes(printable, value) + ['"'] + tail;
    ReadQuotedOfQuote(printable, value, tail);
  }

  lemma {:induction false} ReadValuesOf(printable: char -> bool, values: seq<string>, rest: string)
    requires values != []
    ensures var t := ValuesText(printable, values) + ['\n'] + rest; t[0] == ' ' && ReadValues(t[1..]) == Some((values, rest))
  {
    hide ReadQuoted, Quote;
    var t := ValuesText(printable, values) + ['\n'] + rest;
    var tail := ValuesText(printable, values[1..]) + ['\n'] + rest;
    assert t[1..] == Quote(printable, values[0]) + tail;
    ReadOneValue(printable, values[0], tail);
    assert values == [values[0]] + values[1..];
    if |values| == 1 {
      assert values == [values[0]] && ValuesText(printable, values[1..]) == [];
      assert tail == ['\n'] + rest;
      assert tail[1..] == rest;
    } else {
      ReadValuesOf(printable, values[1..], rest);
    }
  }

  lemma ReadLineOf(printable: char -> bool, line: Line, rest: string)
    requires PlainLabel(line.head)
    ensures ReadLine(LineText(printable, line) + rest) == Some((line, rest))
  {
    hide LabelEnd, ReadValues;
    var t := LineText(printable, line) + rest;
    if line.values == [] {
      LabelEndsAt(line.head, ['\n'] + rest);
      assert t == line.head + (['\n'] + rest);
    } else {
      var tail := ValuesText(printable, line.values) + ['\n'] + rest;
      ReadValuesOf(printable, line.values, rest);
      hide ValuesText, Quote;
      QuoteNext(printable, line.values, rest);
      assert tail == [' '] + tail[1..];
      assert t == line.head + tail == (line.head + [' ']) + tail[1..];
      LabelEndsAt(line.head + [' '], tail[1..]);
      assert t[|line.head| + 1..] == tail[1..];
    }
  }

  lemma QuoteNext(printable: char -> bool, values: seq<string>, rest: string)
    requires values != []
    ensures var tail := ValuesText(printable, values) + ['\n'] + rest; |tail| >= 2 && tail[0] == ' ' && tail[1] == '"'
  {
  }

  lemma LineNotEmpty(printable: char -> bool, line: Line)
    ensures LineText(printable, line) != []
  {
  }

  /** Lines can be read back from their text. */
  lemma {:induction false} ReadLinesOfText(printable: char -> bool, lines: seq<Line>)
    requires forall i :: 0 <= i < |lines| ==> PlainLabel(lines[i].head)
    ensures ReadLines(LinesText(printable, lines)) == Some(lines)
  {
    hide ReadLine, LineText;
    if lines != [] {
      LineNotEmpty(printable, lines[0]);
      ReadLineOf(printable, lines[0], LinesText(printable, lines[1..]));
      ReadLinesOfText(printable, lines[1..]);
      assert lines == [lines[0]] + lines[1..];
    }
  }
}
