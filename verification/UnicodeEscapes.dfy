/** The scans that keep a JSON decoder from replacing unpaired surrogate escapes
    (authoringcard/validate.go and browsercontract/json.go), against section 7 of RFC 8259. */
module UnicodeEscapes {
  import opened Common

  newtype Byte = b: int | 0 <= b < 256

  const QUOTE: Byte := 34
  const BACKSLASH: Byte := 92
  const U: Byte := 117

  // ---------- The grammar ----------

  /** Outside strings, inside one, or inside one just after a backslash. */
  datatype Mode = Out | In | Escaped

  /** The mode in which byte n is read. */
  function ModeAt(data: seq<Byte>, n: nat): Mode
    requires n <= |data|
  {
    if n == 0 then Out
    else
      match ModeAt(data, n - 1)
      case Out => if data[n - 1] == QUOTE then In else Out
      case In => if data[n - 1] == QUOTE then Out else if data[n - 1] == BACKSLASH then Escaped else In
      case Escaped => In
  }

  predicate HexDigit(b: Byte) {
    48 <= b <= 57 || 65 <= b <= 70 || 97 <= b <= 102
  }

  function HexValue(b: Byte): int
    requires HexDigit(b)
  {
    if b <= 57 then (b - 48) as int else if b <= 70 then (b - 55) as int else (b - 87) as int
  }

  /** strconv.ParseUint(digits, 16, 16). */
  function ParseHex(digits: seq<Byte>): Option<int>
    requires |digits| == 4
  {
    if HexDigit(digits[0]) && HexDigit(digits[1]) && HexDigit(digits[2]) && HexDigit(digits[3])
    then Some(((HexValue(digits[0]) * 16 + HexValue(digits[1])) * 16 + HexValue(digits[2])) * 16 + HexValue(digits[3]))
    else None
  }

  /** A backslash inside a string that is not itself escaped. */
  predicate EscapeAt(data: seq<Byte>, i: nat) {
    i < |data| && ModeAt(data, i).In? && data[i] == BACKSLASH
  }

  /** Four hexadecimal digits follow the two bytes at i. */
  predicate DigitsAt(data: seq<Byte>, i: nat) {
    i + 6 <= |data| && ParseHex(data[i + 2..i + 6]).Some?
  }

  /** A complete \u escape. */
  predicate UnitAt(data: seq<Byte>, i: nat) {
    EscapeAt(data, i) && DigitsAt(data, i) && data[i + 1] == U
  }

  function Unit(data: seq<Byte>, i: nat): int
    requires DigitsAt(data, i)
  {
    ParseHex(data[i + 2..i + 6]).value
  }

  predicate High(unit: int) { 0xd800 <= unit <= 0xdbff }
  predicate Low(unit: int) { 0xdc00 <= unit <= 0xdfff }

  /** The escape is complete; a high surrogate is directly followed by an escaped low one
      and a low one directly preceded by an escaped high one. */
  predicate GoodEscape(data: seq<Byte>, i: nat) {
    && i + 1 < |data|
    && (data[i + 1] == U ==>
          && DigitsAt(data, i)
          && (High(Unit(data, i)) ==> UnitAt(data, i + 6) && Low(Unit(data, i + 6)))
          && (Low(Unit(data, i)) ==> i >= 6 && UnitAt(data, i - 6) && High(Unit(data, i - 6))))
  }

  predicate WellEscaped(data: seq<Byte>) {
    forall i :: 0 <= i < |data| && EscapeAt(data, i) ==> GoodEscape(data, i)
  }

  // ---------- Steps of a scan ----------

  /** Everything before i is well escaped, and no escape or surrogate pair is cut at i. */
  predicate ScannedTo(data: seq<Byte>, i: nat, inString: bool) {
    && i <= |data| && ModeAt(data, i) == (if inString then In else Out)
    && (forall k :: 0 <= k < i && EscapeAt(data, k) ==> GoodEscape(data, k))
    && (forall k :: 0 <= k < i && UnitAt(data, k) ==> k + 6 <= i && (High(Unit(data, k)) ==> k + 12 <= i))
  }

  lemma PlainByte(data: seq<Byte>, i: nat, inString: bool)
    requires ScannedTo(data, i, inString) && i < |data| && !(inString && data[i] == BACKSLASH)
    ensures ScannedTo(data, i + 1, if data[i] == QUOTE then !inString else inString)
  {
  }

  lemma PlainEscape(data: seq<Byte>, i: nat)
    requires ScannedTo(data, i, true) && i + 1 < |data| && data[i] == BACKSLASH && data[i + 1] != U
    ensures ScannedTo(data, i + 2, true)
  {
    assert ModeAt(data, i + 1) == Escaped;
  }

  lemma UnitModes(data: seq<Byte>, i: nat)
    requires UnitAt(data, i)
    ensures ModeAt(data, i + 6) == In && forall k :: i < k < i + 6 ==> !EscapeAt(data, k)
  {
    assert ModeAt(data, i + 1) == Escaped && ModeAt(data, i + 2) == In;
    assert data[i + 2..i + 6][0] == data[i + 2] && data[i + 2..i + 6][1] == data[i + 3];
    assert data[i + 2..i + 6][2] == data[i + 4] && data[i + 2..i + 6][3] == data[i + 5];
    assert ModeAt(data, i + 3) == In && ModeAt(data, i + 4) == In && ModeAt(data, i + 5) == In;
  }

  lemma SingleUnit(data: seq<Byte>, i: nat)
    requires ScannedTo(data, i, true) && UnitAt(data, i) && !High(Unit(data, i)) && !Low(Unit(data, i))
    ensures ScannedTo(data, i + 6, true)
  {
    UnitModes(data, i);
  }

  lemma PairedUnits(data: seq<Byte>, i: nat)
    requires ScannedTo(data, i, true) && UnitAt(data, i) && High(Unit(data, i))
    requires data[i + 6..] != [] && data[i + 6] == BACKSLASH && DigitsAt(data, i + 6) && data[i + 7] == U && Low(Unit(data, i + 6))
    ensures ScannedTo(data, i + 12, true)
  {
    UnitModes(data, i);
    assert UnitAt(data, i + 6);
    UnitModes(data, i + 6);
  }

  lemma LoneLow(data: seq<Byte>, i: nat)
    requires ScannedTo(data, i, true) && UnitAt(data, i) && Low(Unit(data, i))
    ensures !GoodEscape(data, i)
  {
  }

  /** validUnicodeEscapes of authoringcard. */
  method ValidUnicodeEscapesInCard(data: seq<Byte>) returns (ok: bool)
    ensures ok <==> WellEscaped(data)
  {
    var inString := false;
    var i := 0;
    assert ScannedTo(data, 0, false);
    hide ModeAt, ParseHex;
    while i < |data|
      invariant ScannedTo(data, i, inString)
    {
      ghost var at := i;
      if data[i] == QUOTE {
        PlainByte(data, i, inString);
        inString := !inString;
        i := i + 1;
        continue;
      }
      if !inString || data[i] != BACKSLASH {
        PlainByte(data, i, inString);
        i := i + 1;
        continue;
      }
      assert EscapeAt(data, at);
      i := i + 1;
      if i >= |data| { return false; }
      if data[i] != U {
        PlainEscape(data, at);
        i := i + 1;
        continue;
      }
      if i + 4 >= |data| { return false; }
      var first := ParseHex(data[i + 1..i + 5]);
      if first.None? || Low(first.value) {
        if first.Some? { LoneLow(data, at); }
        return false;
      }
      i := i + 4;
      if !High(first.value) {
        SingleUnit(data, at);
        i := i + 1;
        continue;
      }
      if i + 6 >= |data| || data[i + 1] != BACKSLASH || data[i + 2] != U { return false; }
      var second := ParseHex(data[i + 3..i + 7]);
      if second.None? || !Low(second.value) { return false; }
      PairedUnits(data, at);
      i := i + 7;
    }
    return true;
  }

  /** validUnicodeEscapes of browsercontract. */
  method ValidUnicodeEscapesInContract(data: seq<Byte>) returns (ok: bool)
    ensures ok <==> WellEscaped(data)
  {
    var inString := false;
    var i := 0;
    assert ScannedTo(data, 0, false);
    hide ModeAt, ParseHex;
    while i < |data|
      invariant ScannedTo(data, i, inString)
    {
      ghost var at := i;
      if data[i] == QUOTE {
        PlainByte(data, i, inString);
        inString := !inString;
        i := i + 1;
        continue;
      }
      if !inString || data[i] != BACKSLASH {
        PlainByte(data, i, inString);
        i := i + 1;
        continue;
      }
      assert EscapeAt(data, at);
      i := i + 1;
      if i >= |data| { return false; }
      if data[i] != U {
        PlainEscape(data, at);
        i := i + 1;
        continue;
      }
      if i + 4 >= |data| { return false; }
      var unit := ParseHex(data[i + 1..i + 5]);
      if unit.None? { return false; }
      i := i + 4;
      if Low(unit.value) {
        LoneLow(data, at);
        return false;
      }
      if High(unit.value) {
        if i + 6 >= |data| || data[i + 1] != BACKSLASH || data[i + 2] != U { return false; }
        var low := ParseHex(data[i + 3..i + 7]);
        if low.None? || !Low(low.value) { return false; }
        PairedUnits(data, at);
        i := i + 6;
      } else {
        SingleUnit(data, at);
      }
      i := i + 1;
    }
    return true;
  }

  // ---------- Small texts ----------

  /** Hexadecimal digits in either case. */
  lemma HexDigitsAre(b: Byte)
    ensures HexDigit(b) <==> (b as int) as char in "0123456789" || (b as int) as char in "ABCDEF" || (b as int) as char in "abcdef"
    ensures '0' <= (b as int) as char <= '9' ==> HexDigit(b) && HexValue(b) == b as int - '0' as int
    ensures 'A' <= (b as int) as char <= 'F' ==> HexDigit(b) && HexValue(b) == 10 + b as int - 'A' as int
    ensures 'a' <= (b as int) as char <= 'f' ==> HexDigit(b) && HexValue(b) == 10 + b as int - 'a' as int
  {
    var c, d, u, l := (b as int) as char, "0123456789", "ABCDEF", "abcdef";
    if '0' <= c <= '9' { assert d[c as int - '0' as int] == c; }
    if 'A' <= c <= 'F' { assert u[c as int - 'A' as int] == c; }
    if 'a' <= c <= 'f' { assert l[c as int - 'a' as int] == c; }
  }

  /** The text of one string with one escape of a unit. */
  function OneUnit(x: seq<Byte>): seq<Byte>
    requires |x| == 4
  {
    [34, 92, 117, x[0], x[1], x[2], x[3], 34]
  }

  predicate AllHex(x: seq<Byte>) {
    forall i :: 0 <= i < |x| ==> HexDigit(x[i])
  }

  function UnitValue(x: seq<Byte>): int
    requires |x| == 4 && AllHex(x)
  {
    HexValue(x[0]) * 4096 + HexValue(x[1]) * 256 + HexValue(x[2]) * 16 + HexValue(x[3])
  }

  lemma HexParsed(x: seq<Byte>)
    requires |x| == 4
    ensures ParseHex(x).Some? <==> AllHex(x)
    ensures AllHex(x) ==> ParseHex(x).value == UnitValue(x)
  {
    hide HexDigit, HexValue;
  }

  /** Modes inside such a text: the backslash is the only escape. */
  lemma OneUnitModes(x: seq<Byte>)
    requires |x| == 4 && AllHex(x)
    ensures var data := OneUnit(x); forall i :: EscapeAt(data, i) <==> i == 1
  {
    var data := OneUnit(x);
    assert ModeAt(data, 0) == Out && ModeAt(data, 1) == In && ModeAt(data, 2) == Escaped && ModeAt(data, 3) == In;
    assert ModeAt(data, 4) == In && ModeAt(data, 5) == In && ModeAt(data, 6) == In && ModeAt(data, 7) == In;
  }

  lemma OneUnitEscape(x: seq<Byte>)
    requires |x| == 4
    ensures EscapeAt(OneUnit(x), 1)
    ensures DigitsAt(OneUnit(x), 1) <==> AllHex(x)
    ensures AllHex(x) ==> Unit(OneUnit(x), 1) == UnitValue(x)
  {
    var data := OneUnit(x);
    assert ModeAt(data, 0) == Out && ModeAt(data, 1) == In;
    assert data[3..7] == x;
    HexParsed(x);
    hide ParseHex, UnitValue;
  }

  /** A lone unit must not be a surrogate. */
  lemma OneUnitIs(x: seq<Byte>)
    requires |x| == 4
    ensures WellEscaped(OneUnit(x)) <==> AllHex(x) && !(55296 <= UnitValue(x) <= 57343)
  {
    hide ModeAt, ParseHex, UnitValue, HexDigit;
    OneUnitEscape(x);
    if AllHex(x) { OneUnitModes(x); }
  }

  /** Two units in a row. */
  function TwoUnits(x: seq<Byte>, y: seq<Byte>): seq<Byte>
    requires |x| == 4 && |y| == 4
  {
    [34, 92, 117, x[0], x[1], x[2], x[3], 92, 117, y[0], y[1], y[2], y[3], 34]
  }

  lemma TwoUnitsModes(x: seq<Byte>, y: seq<Byte>)
    requires |x| == 4 && |y| == 4 && AllHex(x) && AllHex(y)
    ensures var data := TwoUnits(x, y); forall i :: EscapeAt(data, i) <==> i == 1 || i == 7
  {
    var data := TwoUnits(x, y);
    assert ModeAt(data, 0) == Out && ModeAt(data, 1) == In && ModeAt(data, 2) == Escaped && ModeAt(data, 3) == In;
    assert ModeAt(data, 4) == In && ModeAt(data, 5) == In && ModeAt(data, 6) == In && ModeAt(data, 7) == In;
    assert ModeAt(data, 8) == Escaped && ModeAt(data, 9) == In && ModeAt(data, 10) == In && ModeAt(data, 11) == In;
    assert ModeAt(data, 12) == In && ModeAt(data, 13) == In;
  }

  lemma TwoUnitsEscapes(x: seq<Byte>, y: seq<Byte>)
    requires |x| == 4 && |y| == 4 && AllHex(x) && AllHex(y)
    ensures var data := TwoUnits(x, y);
            UnitAt(data, 1) && UnitAt(data, 7) && Unit(data, 1) == UnitValue(x) && Unit(data, 7) == UnitValue(y)
  {
    var data := TwoUnits(x, y);
    TwoUnitsModes(x, y);
    hide ModeAt;
    assert data[3..7] == x && data[9..13] == y;
    HexParsed(x);
    HexParsed(y);
    hide ParseHex, UnitValue, HexDigit;
  }

  /** Both are scalars, or the first is a high surrogate and the second a low one. */
  lemma TwoUnitsAre(x: seq<Byte>, y: seq<Byte>)
    requires |x| == 4 && |y| == 4 && AllHex(x) && AllHex(y)
    ensures WellEscaped(TwoUnits(x, y)) <==>
            || (55296 <= UnitValue(x) <= 56319 && 56320 <= UnitValue(y) <= 57343)
            || (!(55296 <= UnitValue(x) <= 57343) && !(55296 <= UnitValue(y) <= 57343))
  {
    hide ModeAt, ParseHex, UnitValue, HexDigit;
    TwoUnitsModes(x, y);
    TwoUnitsEscapes(x, y);
  }

  /** Any other escape is complete with one byte; a backslash outside a string is none; and a
      text that ends in a backslash inside one is not well escaped. */
  lemma OtherEscapes(b: Byte)
    ensures b != 117 ==> WellEscaped([34, 92, b, 34])
    ensures !WellEscaped([34, 92, 117, 34]) && !WellEscaped([34, 92])
    ensures WellEscaped([92, 117])
  {
    var plain, unit, cut := [34, 92, b, 34], [34, 92, 117, 34], [34, 92];
    assert ModeAt(plain, 0) == Out && plain[0] == QUOTE && plain[1] == BACKSLASH;
    assert ModeAt(plain, 1) == In && ModeAt(plain, 2) == Escaped && ModeAt(plain, 3) == In;
    assert ModeAt(unit, 1) == In && EscapeAt(unit, 1);
    assert ModeAt(cut, 1) == In && EscapeAt(cut, 1);
    assert ModeAt([92, 117], 0) == Out && ModeAt([92, 117], 1) == Out;
  }
}
