/** The review text itself, line by line, and when a card is reviewed
    (authoringcard/text.go and validate.go). */
module CardLayout {
  import opened Common
  import opened Text
  import opened Quoting
  import opened CardText
  import opened CardReview

  // ---------- Lines, each followed by the rest of the text ----------

  function Bare(word: string, rest: string): string {
    word + "\n" + rest
  }

  function One(p: char -> bool, word: string, a: string, rest: string): string {
    word + " " + Quote(p, a) + "\n" + rest
  }

  function Two(p: char -> bool, word: string, a: string, b: string, rest: string): string {
    word + " " + Quote(p, a) + " " + Quote(p, b) + "\n" + rest
  }

  function Three(p: char -> bool, word: string, a: string, b: string, c: string, rest: string): string {
    word + " " + Quote(p, a) + " " + Quote(p, b) + " " + Quote(p, c) + "\n" + rest
  }

  function Given(p: char -> bool, word: string, a: string, rest: string): string {
    if a == "" then rest else One(p, word, a, rest)
  }

  function ValueText(p: char -> bool, word: string, v: TextValue, rest: string): string {
    One(p, word, v.state, Given(p, "  text", v.text, Given(p, "  detail", v.detail, rest)))
  }

  function OperationText(p: char -> bool, op: Operation, rest: string): string {
    One(p, "    id", op.id,
      Three(p, "    source", op.source.id, op.source.kind, op.source.sha256,
        Given(p, "    source-url", op.source.url,
          Three(p, "    selector", op.selector.kind, op.selector.value, op.selector.key, rest))))
  }

  function SelectionText(p: char -> bool, s: Selection, rest: string): string {
    var detail := Given(p, "    detail", s.detail, rest);
    One(p, "  operation", s.state, if s.identity.Some? then OperationText(p, s.identity.value, detail) else detail)
  }

  function MappingText(p: char -> bool, m: Mapping, rest: string): string {
    var named := Given(p, "      binding", m.value.binding, Given(p, "      detail", m.value.detail, rest));
    Three(p, "    field", m.location, m.name, m.value.state,
      if m.value.literal.Some? then One(p, "      literal-json", m.value.literal.value, named) else named)
  }

  function MappingsText(p: char -> bool, ms: seq<Mapping>, rest: string): string {
    if ms == [] then rest else MappingText(p, ms[0], MappingsText(p, ms[1..], rest))
  }

  function StepText(p: char -> bool, number: nat, s: Step, rest: string): string {
    Two(p, "Step " + Decimal(number), s.id, s.title,
      SelectionText(p, s.operation, Bare("  Mappings " + Decimal(|s.mappings|), MappingsText(p, s.mappings, rest))))
  }

  function StepsText(p: char -> bool, first: nat, steps: seq<Step>, rest: string): string
    decreases steps
  {
    if steps == [] then rest else StepText(p, first, steps[0], StepsText(p, first + 1, steps[1..], rest))
  }

  function FindingsText(p: char -> bool, findings: seq<Finding>): string {
    if findings == [] then "" else Three(p, "  finding", findings[0].path, findings[0].code, findings[0].message, FindingsText(p, findings[1..]))
  }

  function Layout(p: char -> bool, card: Card): string {
    One(p, "Authoring review", card.version,
      One(p, "Authority", "none; consumer approval required",
        ValueText(p, "Intent", card.intent,
          ValueText(p, "Outcome", card.outcome,
            Bare("Outline " + Decimal(|card.outline|),
              StepsText(p, 1, card.outline,
                One(p, "Validation", card.validation.outcome,
                  Bare("Findings " + Decimal(|card.validation.findings|), FindingsText(p, card.validation.findings)))))))))
  }

  // ---------- What is written is this text ----------

  lemma RowFirst(p: char -> bool, head: Head, values: seq<string>, rest: seq<Row>)
    ensures RowsText(p, [Row(head, values)] + rest) == HeadText(head) + ValuesText(p, values) + "\n" + RowsText(p, rest)
  {
    hide HeadText, ValuesText;
    var rows := [Row(head, values)] + rest;
    assert rows[1..] == rest && rows[0] == Row(head, values);
    assert Lines(rows) == [LineOf(rows[0])] + Lines(rest);
    assert Lines(rows)[1..] == Lines(rest);
  }

  lemma NoValues(p: char -> bool, head: Head, rest: seq<Row>)
    ensures RowsText(p, [Row(head, [])] + rest) == Bare(HeadText(head), RowsText(p, rest))
  {
    hide HeadText, RowsText;
    RowFirst(p, head, [], rest);
    assert ValuesText(p, []) == "";
  }

  lemma OneValue(p: char -> bool, head: Head, a: string, rest: seq<Row>)
    ensures RowsText(p, [Row(head, [a])] + rest) == One(p, HeadText(head), a, RowsText(p, rest))
  {
    hide HeadText, RowsText, Quote;
    RowFirst(p, head, [a], rest);
    assert [a][1..] == [];
    assert ValuesText(p, [a]) == " " + Quote(p, a);
  }

  lemma TwoValues(p: char -> bool, head: Head, a: string, b: string, rest: seq<Row>)
    ensures RowsText(p, [Row(head, [a, b])] + rest) == Two(p, HeadText(head), a, b, RowsText(p, rest))
  {
    hide HeadText, RowsText, Quote;
    RowFirst(p, head, [a, b], rest);
    assert [a, b][1..] == [b] && [b][1..] == [];
    assert ValuesText(p, [b]) == " " + Quote(p, b);
    assert ValuesText(p, [a, b]) == " " + Quote(p, a) + (" " + Quote(p, b));
  }

  lemma ThreeValues(p: char -> bool, head: Head, a: string, b: string, c: string, rest: seq<Row>)
    ensures RowsText(p, [Row(head, [a, b, c])] + rest) == Three(p, HeadText(head), a, b, c, RowsText(p, rest))
  {
    hide HeadText, RowsText, Quote;
    RowFirst(p, head, [a, b, c], rest);
    assert [a, b, c][1..] == [b, c] && [b, c][1..] == [c] && [c][1..] == [];
    assert ValuesText(p, [c]) == " " + Quote(p, c);
    assert ValuesText(p, [b, c]) == " " + Quote(p, b) + (" " + Quote(p, c));
    assert ValuesText(p, [a, b, c]) == " " + Quote(p, a) + (" " + Quote(p, b) + (" " + Quote(p, c)));
  }

  lemma OptionalIs(p: char -> bool, head: Head, a: string, rest: seq<Row>)
    ensures RowsText(p, OptionalRow(head, a, rest)) == Given(p, HeadText(head), a, RowsText(p, rest))
  {
    hide HeadText, RowsText, One;
    OneValue(p, head, a, rest);
  }

  lemma Labels()
    ensures HeadText(Review) == "Authoring review" && HeadText(Authority) == "Authority" && HeadText(Intent) == "Intent"
    ensures HeadText(Outcome) == "Outcome" && HeadText(TextOf) == "  text" && HeadText(DetailOf) == "  detail"
    ensures HeadText(OperationState) == "  operation" && HeadText(OperationId) == "    id" && HeadText(SourceOf) == "    source"
    ensures HeadText(SourceUrl) == "    source-url" && HeadText(SelectorOf) == "    selector" && HeadText(OperationDetail) == "    detail"
    ensures HeadText(FieldOf) == "    field" && HeadText(LiteralJson) == "      literal-json" && HeadText(BindingOf) == "      binding"
    ensures HeadText(MappingDetail) == "      detail" && HeadText(ValidationOutcome) == "Validation" && HeadText(FindingOf) == "  finding"
    ensures forall n: nat :: HeadText(Outline(n)) == "Outline " + Decimal(n) && HeadText(StepNo(n)) == "Step " + Decimal(n)
    ensures forall n: nat :: HeadText(Mappings(n)) == "  Mappings " + Decimal(n) && HeadText(Findings(n)) == "Findings " + Decimal(n)
  {
  }

  lemma ValueIs(p: char -> bool, head: Head, v: TextValue, rest: seq<Row>)
    ensures RowsText(p, TextRows(head, v, rest)) == ValueText(p, HeadText(head), v, RowsText(p, rest))
  {
    Labels();
    hide HeadText, RowsText, One, Given;
    OptionalIs(p, DetailOf, v.detail, rest);
    OptionalIs(p, TextOf, v.text, OptionalRow(DetailOf, v.detail, rest));
    OneValue(p, head, v.state, OptionalRow(TextOf, v.text, OptionalRow(DetailOf, v.detail, rest)));
  }

  lemma OperationIs(p: char -> bool, op: Operation, rest: seq<Row>)
    ensures RowsText(p, OperationRows(op, rest)) == OperationText(p, op, RowsText(p, rest))
  {
    Labels();
    hide HeadText, RowsText, One, Given, Three;
    var source := [op.source.id, op.source.kind, op.source.sha256];
    var selected := [Row(SelectorOf, [op.selector.kind, op.selector.value, op.selector.key])] + rest;
    var located := OptionalRow(SourceUrl, op.source.url, selected);
    assert OperationRows(op, rest) == [Row(OperationId, [op.id])] + ([Row(SourceOf, source)] + located);
    ThreeValues(p, SelectorOf, op.selector.kind, op.selector.value, op.selector.key, rest);
    OptionalIs(p, SourceUrl, op.source.url, selected);
    ThreeValues(p, SourceOf, op.source.id, op.source.kind, op.source.sha256, located);
    OneValue(p, OperationId, op.id, [Row(SourceOf, source)] + located);
  }

  lemma SelectionIs(p: char -> bool, s: Selection, rest: seq<Row>)
    ensures RowsText(p, SelectionRows(s, rest)) == SelectionText(p, s, RowsText(p, rest))
  {
    Labels();
    hide HeadText, RowsText, One, Given, OperationRows, OperationText;
    var detail := OptionalRow(OperationDetail, s.detail, rest);
    OptionalIs(p, OperationDetail, s.detail, rest);
    if s.identity.Some? {
      OperationIs(p, s.identity.value, detail);
      OneValue(p, OperationState, s.state, OperationRows(s.identity.value, detail));
    } else {
      OneValue(p, OperationState, s.state, detail);
    }
  }

  lemma {:induction false} MappingsAre(p: char -> bool, ms: seq<Mapping>, rest: seq<Row>)
    ensures RowsText(p, MappingRows(ms, rest)) == MappingsText(p, ms, RowsText(p, rest))
  {
    Labels();
    hide HeadText, RowsText, One, Given, Three;
    if ms != [] {
      var more, v := MappingRows(ms[1..], rest), ms[0].value;
      MappingsAre(p, ms[1..], rest);
      OptionalIs(p, MappingDetail, v.detail, more);
      OptionalIs(p, BindingOf, v.binding, OptionalRow(MappingDetail, v.detail, more));
      if v.literal.Some? { OneValue(p, LiteralJson, v.literal.value, OptionalRow(BindingOf, v.binding, OptionalRow(MappingDetail, v.detail, more))); }
      ThreeValues(p, FieldOf, ms[0].location, ms[0].name, v.state, PayloadRows(v, more));
    }
  }

  lemma StepIs(p: char -> bool, number: nat, s: Step, rest: seq<Row>)
    ensures RowsText(p, StepRows(number, s, rest)) == StepText(p, number, s, RowsText(p, rest))
  {
    Labels();
    hide HeadText, RowsText, Bare, Two, SelectionRows, SelectionText, MappingRows, MappingsText;
    var mapped := MappingRows(s.mappings, rest);
    MappingsAre(p, s.mappings, rest);
    NoValues(p, Mappings(|s.mappings|), mapped);
    SelectionIs(p, s.operation, [Row(Mappings(|s.mappings|), [])] + mapped);
    TwoValues(p, StepNo(number), s.id, s.title, SelectionRows(s.operation, [Row(Mappings(|s.mappings|), [])] + mapped));
  }

  lemma {:induction false} StepsAre(p: char -> bool, done: nat, steps: seq<Step>, rest: seq<Row>)
    ensures RowsText(p, OutlineRows(done, steps, rest)) == StepsText(p, done + 1, steps, RowsText(p, rest))
    decreases steps
  {
    hide RowsText, StepRows, StepText;
    if steps != [] {
      StepsAre(p, done + 1, steps[1..], rest);
      StepIs(p, done + 1, steps[0], OutlineRows(done + 1, steps[1..], rest));
    }
  }

  lemma {:induction false} FindingsAre(p: char -> bool, findings: seq<Finding>)
    ensures RowsText(p, FindingRows(findings)) == FindingsText(p, findings)
  {
    if findings == [] {
      assert RowsText(p, []) == "";
    } else {
      Labels();
      hide HeadText, RowsText, Three;
      FindingsAre(p, findings[1..]);
      ThreeValues(p, FindingOf, findings[0].path, findings[0].code, findings[0].message, FindingRows(findings[1..]));
    }
  }

  /** What RenderText writes is, line by line, this text. */
  lemma RenderedIs(p: char -> bool, card: Card)
    ensures Rendered(p, card) == Layout(p, card)
  {
    Labels();
    hide HeadText, RowsText, One, Bare, TextRows, ValueText, OutlineRows, StepsText, FindingRows, FindingsText;
    var v := card.validation;
    var counted := [Row(Findings(|v.findings|), [])] + FindingRows(v.findings);
    assert ValidationRows(v) == [Row(ValidationOutcome, [v.outcome])] + counted;
    FindingsAre(p, v.findings);
    NoValues(p, Findings(|v.findings|), FindingRows(v.findings));
    OneValue(p, ValidationOutcome, v.outcome, counted);
    StepsAre(p, 0, card.outline, ValidationRows(v));
    var steps := OutlineRows(0, card.outline, ValidationRows(v));
    NoValues(p, Outline(|card.outline|), steps);
    var outline := [Row(Outline(|card.outline|), [])] + steps;
    ValueIs(p, Outcome, card.outcome, outline);
    ValueIs(p, Intent, card.intent, TextRows(Outcome, card.outcome, outline));
    var values := TextRows(Intent, card.intent, TextRows(Outcome, card.outcome, outline));
    assert CardRows(card) == [Row(Review, [card.version])] + ([Row(Authority, [NO_AUTHORITY])] + values);
    OneValue(p, Authority, NO_AUTHORITY, values);
    OneValue(p, Review, card.version, [Row(Authority, [NO_AUTHORITY])] + values);
    RowsAre(p, card);
  }

  lemma RowsAre(p: char -> bool, card: Card)
    ensures Rendered(p, card) == RowsText(p, CardRows(card))
  {
  }

  // ---------- Sizes ----------

  function Length(s: string): nat {
    ByteLength(s)
  }

  lemma SumOfThree(a: string, b: string, c: string)
    ensures Sum([a, b, c]) == Length(a) + Length(b) + Length(c)
  {
    hide ByteLength;
    assert [a, b, c][1..] == [b, c] && [b, c][1..] == [c] && [c][1..] == [];
    assert Sum([c]) == Length(c) + Sum([]) && Sum([b, c]) == Length(b) + Sum([c]);
  }

  lemma SumMore(a: string, rest: seq<string>)
    ensures Sum([a] + rest) == Length(a) + Sum(rest)
  {
    assert ([a] + rest)[1..] == rest;
  }

  lemma SumOfFive(a: string, b: string, c: string, d: string, e: string)
    ensures Sum([a, b, c, d, e]) == Length(a) + Length(b) + Length(c) + Length(d) + Length(e)
  {
    hide Sum, ByteLength;
    SumOfThree(c, d, e);
    SumMore(b, [c, d, e]);
    SumMore(a, [b] + [c, d, e]);
    assert [a, b, c, d, e] == [a] + ([b] + [c, d, e]);
  }

  lemma SumOfEight(a: string, b: string, c: string, d: string, e: string, f: string, g: string, h: string)
    ensures Sum([a, b, c, d, e, f, g, h])
            == Length(a) + Length(b) + Length(c) + Length(d) + Length(e) + Length(f) + Length(g) + Length(h)
  {
    hide Sum, ByteLength;
    SumOfFive(d, e, f, g, h);
    SumMore(c, [d, e, f, g, h]);
    SumMore(b, [c] + [d, e, f, g, h]);
    SumMore(a, [b] + ([c] + [d, e, f, g, h]));
    assert [a, b, c, d, e, f, g, h] == [a] + ([b] + ([c] + [d, e, f, g, h]));
  }

  /** Which texts of a card are counted. */
  lemma SizesAre(c: Card, s: Step, m: Mapping, f: Finding, o: Operation)
    ensures Sum(HeaderTexts(c)) == Length(c.version) + Length(c.intent.state) + Length(c.intent.text) + Length(c.intent.detail)
            + Length(c.outcome.state) + Length(c.outcome.text) + Length(c.outcome.detail) + Length(c.validation.outcome)
    ensures Sum(StepTexts(s)) == Length(s.id) + Length(s.title) + Length(s.operation.state) + Length(s.operation.detail)
    ensures MappingSize(m) == Length(m.location) + Length(m.name) + Length(m.value.state) + Length(m.value.binding) + Length(m.value.detail)
            + (if m.value.literal.Some? then Length(m.value.literal.value) else 0)
    ensures FindingSize(f) == Length(f.path) + Length(f.code) + Length(f.message)
    ensures Sum(OperationTexts(None)) == 0
    ensures Sum(OperationTexts(Some(o))) == Length(o.id) + Length(o.source.id) + Length(o.source.kind) + Length(o.source.sha256)
            + Length(o.source.url) + Length(o.selector.kind) + Length(o.selector.value) + Length(o.selector.key)
  {
    SumIs([]);
    hide Sum, ByteLength;
    SumOfEight(c.version, c.intent.state, c.intent.text, c.intent.detail, c.outcome.state, c.outcome.text, c.outcome.detail, c.validation.outcome);
    SumOfThree(s.title, s.operation.state, s.operation.detail);
    SumMore(s.id, [s.title, s.operation.state, s.operation.detail]);
    assert StepTexts(s) == [s.id] + [s.title, s.operation.state, s.operation.detail];
    SumOfFive(m.location, m.name, m.value.state, m.value.binding, m.value.detail);
    SumOfThree(f.path, f.code, f.message);
    SumOfEight(o.id, o.source.id, o.source.kind, o.source.sha256, o.source.url, o.selector.kind, o.selector.value, o.selector.key);
  }

  lemma SumIs(x: seq<string>)
    ensures Sum(x) == if x == [] then 0 else Length(x[0]) + Sum(x[1..])
  {
  }

  /** A card is reviewed exactly within these limits and when nothing in it disagrees. */
  lemma CardExactly(schema: Card -> bool, c: Card)
    ensures CardValid(schema, c) <==>
            && |c.outline| <= 100 && |c.validation.findings| <= 128 && CardSize(c) <= 262144
            && (forall s :: s in c.outline ==> |s.mappings| <= 128 && forall m :: m in s.mappings ==> m.value.literal != Some(""))
            && schema(c)
            && (forall i, j :: 0 <= i < j < |c.outline| ==> c.outline[i].id != c.outline[j].id && Agree(c.outline[i].operation.identity, c.outline[j].operation.identity))
            && (forall s :: s in c.outline ==> forall i, j :: 0 <= i < j < |s.mappings| ==>
                  s.mappings[i].location != s.mappings[j].location || s.mappings[i].name != s.mappings[j].name)
            && (c.validation.outcome == "valid" ==> Settled(c) && |c.validation.findings| == 0)
            && (c.validation.outcome == "invalid" ==> |c.validation.findings| > 0)
            && (c.validation.outcome == "unresolved" ==> !Settled(c) || |c.validation.findings| > 0)
  {
    hide CardSize;
    SettledIs(c);
    hide Unfinished, Settled;
    assert "valid"[0] != "invalid"[0] && "valid"[0] != "unresolved"[0] && "invalid"[0] != "unresolved"[0];
  }

  /** One source id names one source, one operation id one operation. */
  predicate Agree(a: Option<Operation>, b: Option<Operation>) {
    a.Some? && b.Some? ==>
      && (a.value.source.id != b.value.source.id || a.value.source == b.value.source)
      && (a.value.id != b.value.id || a.value == b.value)
  }

  /** Nothing in the card is left open. */
  predicate Settled(c: Card) {
    && c.intent.state == "known" && c.outcome.state == "known" && |c.outline| > 0
    && forall s :: s in c.outline ==> s.operation.state == "known" && forall m :: m in s.mappings ==> m.value.state == "known"
  }

  lemma SettledIs(c: Card)
    ensures Settled(c) <==> !Unfinished(c)
  {
  }

  // ---------- Quoted characters ----------

  /** Characters with an escape of their own; a printable one stands for itself. */
  lemma EscapeIs(p: char -> bool, c: char)
    ensures c == '"' ==> Escape(p, c) == "\\\""
    ensures c == '\\' ==> Escape(p, c) == "\\\\"
    ensures c != '"' && c != '\\' && p(c) ==> Escape(p, c) == [c]
    ensures !p(c) && c == '\n' ==> Escape(p, c) == "\\n"
    ensures !p(c) && c == '\t' ==> Escape(p, c) == "\\t"
    ensures !p(c) && c == '\r' ==> Escape(p, c) == "\\r"
    ensures !p(c) && c == '\U{07}' ==> Escape(p, c) == "\\a"
    ensures !p(c) && c == '\U{08}' ==> Escape(p, c) == "\\b"
    ensures !p(c) && c == '\U{0B}' ==> Escape(p, c) == "\\v"
    ensures !p(c) && c == '\U{0C}' ==> Escape(p, c) == "\\f"
  {
    hide Hex;
  }

  /** Every other character is written in hexadecimal: two digits for controls and DEL, four
      below U+10000, eight above. */
  lemma EscapeHex(p: char -> bool, c: char)
    requires !p(c) && c != '"' && c != '\\' && !('\U{07}' <= c <= '\U{0D}')
    ensures c < ' ' || c == '\U{7F}' ==> Escape(p, c) == "\\x" + Hex(c as int, 2)
    ensures ' ' <= c <= '\U{FFFF}' && c != '\U{7F}' ==> Escape(p, c) == "\\u" + Hex(c as int, 4)
    ensures c > '\U{FFFF}' ==> Escape(p, c) == "\\U" + Hex(c as int, 8)
  {
    hide Hex;
  }

  function Power(k: nat): (r: nat)
    ensures r > 0
  {
    if k == 0 then 1 else 16 * Power(k - 1)
  }

  /** The digits of a number, the most significant first. */
  lemma {:induction false} HexDigits(n: nat, width: nat, k: nat)
    requires k < width
    ensures Hex(n, width)[k] == "0123456789abcdef"[n / Power(width - 1 - k) % 16]
  {
    if k < width - 1 {
      HexDigits(n / 16, width - 1, k);
      Shifted(n, Power(width - 2 - k));
    } else {
      DigitIs(n % 16);
    }
  }

  lemma DigitIs(d: nat)
    requires d < 16
    ensures HexDigit(d) == "0123456789abcdef"[d]
  {
  }

  lemma Shifted(n: nat, m: nat)
    requires m > 0
    ensures n / 16 / m == n / (16 * m)
  {
    var q, r := n / 16 / m, n / 16 % m;
    assert n / 16 == q * m + r;
    assert n == 16 * (q * m + r) + n % 16 == q * (16 * m) + (16 * r + n % 16);
    Divided(n, 16 * m, q, 16 * r + n % 16);
  }

  lemma Divided(n: nat, d: nat, q: nat, r: nat)
    requires d > 0 && n == q * d + r && r < d
    ensures n / d == q
  {
    Scaled(n / d, q, d);
    Scaled(q, n / d, d);
  }

  lemma {:induction false} Scaled(a: nat, b: nat, d: nat)
    ensures a < b ==> a * d + d <= b * d
    decreases b
  {
    if a < b {
      assert b * d == (b - 1) * d + d;
      if a < b - 1 { Scaled(a, b - 1, d); }
    }
  }

  /** A text is quoted character by character. */
  lemma QuoteIs(p: char -> bool, a: string, c: char)
    ensures Quote(p, a) == "\"" + Escapes(p, a) + "\"" && Escapes(p, "") == "" && Escapes(p, a + [c]) == Escapes(p, a) + Escape(p, c)
  {
    hide Escape;
    EscapesJoined(p, a, [c]);
    assert [c][1..] == [] && Escapes(p, [c]) == Escape(p, c) + Escapes(p, [c][1..]);
    hide Escapes;
  }

  lemma {:induction false} EscapesJoined(p: char -> bool, a: string, b: string)
    ensures Escapes(p, a + b) == Escapes(p, a) + Escapes(p, b)
  {
    if a == [] {
      assert a + b == b;
    } else {
      assert (a + b)[1..] == a[1..] + b;
      EscapesJoined(p, a[1..], b);
    }
  }
}
