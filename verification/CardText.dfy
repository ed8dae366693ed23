/** The review text of an authoring card (authoringcard/text.go) and a reader that
    rebuilds the card from it. */
module CardText {
  import opened Common
  import opened Text
  import opened Quoting

  datatype Card = Card(version: string, intent: TextValue, outcome: TextValue, outline: seq<Step>, validation: Validation)
  datatype TextValue = TextValue(state: string, text: string, detail: string)
  datatype Step = Step(id: string, title: string, operation: Selection, mappings: seq<Mapping>)
  datatype Selection = Selection(state: string, identity: Option<Operation>, detail: string)
  datatype Operation = Operation(id: string, source: Source, selector: Selector)
  datatype Source = Source(id: string, kind: string, sha256: string, url: string)
  datatype Selector = Selector(kind: string, value: string, key: string)
  datatype Mapping = Mapping(location: string, name: string, value: Payload)
  datatype Payload = Payload(state: string, literal: Option<string>, binding: string, detail: string)
  datatype Validation = Validation(outcome: string, findings: seq<Finding>)
  datatype Finding = Finding(path: string, code: string, message: string)

  // ---------- Labels ----------

  /** The labels of the review, with the numbers some of them carry. */
  datatype Head =
    | Review | Authority | Intent | Outcome | TextOf | DetailOf
    | Outline(n: nat) | StepNo(n: nat) | OperationState | OperationId | SourceOf | SourceUrl | SelectorOf | OperationDetail
    | Mappings(n: nat) | FieldOf | LiteralJson | BindingOf | MappingDetail
    | ValidationOutcome | Findings(n: nat) | FindingOf

  function HeadText(h: Head): string {
    match h
    case Review => "Authoring review"
    case Authority => "Authority"
    case Intent => "Intent"
    case Outcome => "Outcome"
    case TextOf => "  text"
    case DetailOf => "  detail"
    case Outline(n) => "Outline " + Decimal(n)
    case StepNo(n) => "Step " + Decimal(n)
    case OperationState => "  operation"
    case OperationId => "    id"
    case SourceOf => "    source"
    case SourceUrl => "    source-url"
    case SelectorOf => "    selector"
    case OperationDetail => "    detail"
    case Mappings(n) => "  Mappings " + Decimal(n)
    case FieldOf => "    field"
    case LiteralJson => "      literal-json"
    case BindingOf => "      binding"
    case MappingDetail => "      detail"
    case ValidationOutcome => "Validation"
    case Findings(n) => "Findings " + Decimal(n)
    case FindingOf => "  finding"
  }

  /** The number a label carries after a fixed word. */
  function ReadNumber(word: string, t: string): Option<nat> {
    if |word| <= |t| && t[..|word|] == word && forall i :: |word| <= i < |t| ==> IsDigit(t[i]) then
      assert forall i :: 0 <= i < |t[|word|..]| ==> t[|word|..][i] == t[|word| + i];
      Some(Numeral(t[|word|..]))
    else None
  }

  /** The labels without a number, by how far they are indented. */
  function ReadFixed(t: string): Option<Head> {
    if |t| < 3 then None
    else if t[0] != ' ' then ReadSection(t)
    else if t[2] != ' ' then ReadIndented(t)
    else ReadNested(t)
  }

  function ReadSection(t: string): Option<Head> {
    if t == "Authoring review" then Some(Review)
    else if t == "Authority" then Some(Authority)
    else if t == "Intent" then Some(Intent)
    else if t == "Outcome" then Some(Outcome)
    else if t == "Validation" then Some(ValidationOutcome)
    else None
  }

  function ReadIndented(t: string): Option<Head> {
    if t == "  text" then Some(TextOf)
    else if t == "  detail" then Some(DetailOf)
    else if t == "  operation" then Some(OperationState)
    else if t == "  finding" then Some(FindingOf)
    else None
  }

  function ReadNested(t: string): Option<Head> {
    if t == "    id" then Some(OperationId)
    else if t == "    source" then Some(SourceOf)
    else if t == "    source-url" then Some(SourceUrl)
    else if t == "    selector" then Some(SelectorOf)
    else if t == "    detail" then Some(OperationDetail)
    else if t == "    field" then Some(FieldOf)
    else if t == "      literal-json" then Some(LiteralJson)
    else if t == "      binding" then Some(BindingOf)
    else if t == "      detail" then Some(MappingDetail)
    else None
  }

  function ReadHead(t: string): Option<Head> {
    var outline, step, mappings, findings := ReadNumber("Outline ", t), ReadNumber("Step ", t), ReadNumber("  Mappings ", t), ReadNumber("Findings ", t);
    if outline.Some? then Some(Outline(outline.value))
    else if step.Some? then Some(StepNo(step.value))
    else if mappings.Some? then Some(Mappings(mappings.value))
    else if findings.Some? then Some(Findings(findings.value))
    else ReadFixed(t)
  }

  lemma ReadNumberOf(word: string, n: nat)
    ensures ReadNumber(word, word + Decimal(n)) == Some(n)
  {
    var t := word + Decimal(n);
    assert t[|word|..] == Decimal(n);
    NumeralOfDecimal(n);
  }

  /** A label that carries no number, or another word, is not read as this one. */
  lemma OtherWord(word: string, t: string, k: nat)
    requires k < |word| && (|t| <= k || t[k] != word[k])
    ensures ReadNumber(word, t).None?
  {
    if |word| <= |t| { assert t[..|word|][k] == t[k]; }
  }

  predicate Fixed(h: Head) {
    !h.Outline? && !h.StepNo? && !h.Mappings? && !h.Findings?
  }

  lemma FixedText(h: Head)
    requires Fixed(h)
    ensures |HeadText(h)| > 3 && HeadText(h)[0] !in "SF" && HeadText(h)[2] != 'M' && HeadText(h)[3] != 'l'
  {
  }

  predicate IsSection(h: Head) {
    h.Review? || h.Authority? || h.Intent? || h.Outcome? || h.ValidationOutcome?
  }

  predicate IsIndented(h: Head) {
    h.TextOf? || h.DetailOf? || h.OperationState? || h.FindingOf?
  }

  lemma ReadSectionOf(h: Head)
    requires IsSection(h)
    ensures ReadFixed(HeadText(h)) == Some(h)
  {
    hide ReadIndented, ReadNested;
  }

  lemma ReadIndentedOf(h: Head)
    requires IsIndented(h)
    ensures ReadFixed(HeadText(h)) == Some(h)
  {
    hide ReadSection, ReadNested;
  }

  lemma ReadNestedOf(h: Head)
    requires Fixed(h) && !IsSection(h) && !IsIndented(h)
    ensures ReadFixed(HeadText(h)) == Some(h)
  {
    hide ReadSection, ReadIndented;
  }

  lemma ReadFixedOf(h: Head)
    requires Fixed(h)
    ensures ReadFixed(HeadText(h)) == Some(h)
  {
    hide ReadFixed, HeadText;
    if IsSection(h) {
      ReadSectionOf(h);
    } else if IsIndented(h) {
      ReadIndentedOf(h);
    } else {
      ReadNestedOf(h);
    }
  }

  lemma ReadHeadOf(h: Head)
    ensures ReadHead(HeadText(h)) == Some(h)
  {
    hide ReadNumber, ReadFixed;
    var t := HeadText(h);
    if Fixed(h) {
      FixedText(h);
      ReadFixedOf(h);
      hide HeadText;
      OtherWord("Outline ", t, 3);
      OtherWord("Step ", t, 0);
      OtherWord("  Mappings ", t, 2);
      OtherWord("Findings ", t, 0);
    } else {
      var word := if h.Outline? then "Outline " else if h.StepNo? then "Step " else if h.Mappings? then "  Mappings " else "Findings ";
      assert t == word + Decimal(h.n);
      ReadNumberOf(word, h.n);
      if !h.Outline? { OtherWord("Outline ", t, 0); }
      if !h.StepNo? { OtherWord("Step ", t, 0); }
      if h.Findings? { OtherWord("  Mappings ", t, 0); }
    }
  }

  lemma NumberedIsPlain(word: string, n: nat)
    requires PlainLabel(word)
    ensures PlainLabel(word + Decimal(n))
  {
    var d := Decimal(n);
    assert forall i :: 0 <= i < |d| ==> d[i] != '"' && d[i] != '\n';
  }

  lemma SectionsArePlain()
    ensures PlainLabel("Authoring review") && PlainLabel("Authority") && PlainLabel("Intent") && PlainLabel("Outcome") && PlainLabel("Validation")
  {
  }

  lemma IndentedArePlain()
    ensures PlainLabel("  text") && PlainLabel("  detail") && PlainLabel("  operation") && PlainLabel("  finding")
  {
  }

  lemma OperationsArePlain()
    ensures PlainLabel("    id") && PlainLabel("    source") && PlainLabel("    source-url") && PlainLabel("    selector") && PlainLabel("    detail")
  {
  }

  lemma MappingsArePlain()
    ensures PlainLabel("    field") && PlainLabel("      literal-json") && PlainLabel("      binding") && PlainLabel("      detail")
  {
  }

  lemma FixedIsPlain(h: Head)
    requires Fixed(h)
    ensures PlainLabel(HeadText(h))
  {
    hide PlainLabel;
    SectionsArePlain();
    IndentedArePlain();
    OperationsArePlain();
    MappingsArePlain();
  }

  lemma HeadIsPlain(h: Head)
    ensures PlainLabel(HeadText(h))
  {
    hide PlainLabel;
    if Fixed(h) {
      FixedIsPlain(h);
    } else {
      WordsArePlain();
      var word := if h.Outline? then "Outline " else if h.StepNo? then "Step " else if h.Mappings? then "  Mappings " else "Findings ";
      NumberedIsPlain(word, h.n);
    }
  }

  lemma WordsArePlain()
    ensures PlainLabel("Outline ") && PlainLabel("Step ") && PlainLabel("  Mappings ") && PlainLabel("Findings ")
  {
  }

  // ---------- Rows ----------

  datatype Row = Row(head: Head, values: seq<string>)

  function LineOf(row: Row): Line {
    Line(HeadText(row.head), row.values)
  }

  function Lines(rows: seq<Row>): seq<Line> {
    if rows == [] then [] else [LineOf(rows[0])] + Lines(rows[1..])
  }

  function ReadRows(lines: seq<Line>): Option<seq<Row>> {
    if lines == [] then Some([])
    else
      var head, more := ReadHead(lines[0].head), ReadRows(lines[1..]);
      if head.Some? && more.Some? then Some([Row(head.value, lines[0].values)] + more.value) else None
  }

  lemma {:induction false} ReadRowsOf(rows: seq<Row>)
    ensures ReadRows(Lines(rows)) == Some(rows)
    ensures forall i :: 0 <= i < |Lines(rows)| ==> PlainLabel(Lines(rows)[i].head)
  {
    hide HeadText, PlainLabel, ReadHead;
    if rows != [] {
      ReadHeadOf(rows[0].head);
      HeadIsPlain(rows[0].head);
      ReadRowsOf(rows[1..]);
      assert Lines(rows)[1..] == Lines(rows[1..]);
      assert rows == [rows[0]] + rows[1..];
    }
  }

  // ---------- The rows of a card, each part followed by the rest of the review ----------

  function OptionalRow(head: Head, value: string, rest: seq<Row>): seq<Row> {
    if value == "" then rest else [Row(head, [value])] + rest
  }

  function TextRows(head: Head, v: TextValue, rest: seq<Row>): seq<Row> {
    [Row(head, [v.state])] + OptionalRow(TextOf, v.text, OptionalRow(DetailOf, v.detail, rest))
  }

  function OperationRows(op: Operation, rest: seq<Row>): seq<Row> {
    [Row(OperationId, [op.id]), Row(SourceOf, [op.source.id, op.source.kind, op.source.sha256])]
    + OptionalRow(SourceUrl, op.source.url, [Row(SelectorOf, [op.selector.kind, op.selector.value, op.selector.key])] + rest)
  }

  function SelectionRows(s: Selection, rest: seq<Row>): seq<Row> {
    var detail := OptionalRow(OperationDetail, s.detail, rest);
    [Row(OperationState, [s.state])] + if s.identity.None? then detail else OperationRows(s.identity.value, detail)
  }

  function PayloadRows(v: Payload, rest: seq<Row>): seq<Row> {
    var named := OptionalRow(BindingOf, v.binding, OptionalRow(MappingDetail, v.detail, rest));
    if v.literal.None? then named else [Row(LiteralJson, [v.literal.value])] + named
  }

  function MappingRows(ms: seq<Mapping>, rest: seq<Row>): seq<Row> {
    if ms == [] then rest
    else [Row(FieldOf, [ms[0].location, ms[0].name, ms[0].value.state])] + PayloadRows(ms[0].value, MappingRows(ms[1..], rest))
  }

  function StepRows(number: nat, step: Step, rest: seq<Row>): seq<Row> {
    [Row(StepNo(number), [step.id, step.title])]
    + SelectionRows(step.operation, [Row(Mappings(|step.mappings|), [])] + MappingRows(step.mappings, rest))
  }

  function OutlineRows(done: nat, steps: seq<Step>, rest: seq<Row>): seq<Row>
    decreases steps
  {
    if steps == [] then rest else StepRows(done + 1, steps[0], OutlineRows(done + 1, steps[1..], rest))
  }

  function FindingRows(findings: seq<Finding>): seq<Row> {
    if findings == [] then [] else [Row(FindingOf, [findings[0].path, findings[0].code, findings[0].message])] + FindingRows(findings[1..])
  }

  function ValidationRows(v: Validation): seq<Row> {
    [Row(ValidationOutcome, [v.outcome]), Row(Findings(|v.findings|), [])] + FindingRows(v.findings)
  }

  const NO_AUTHORITY := "none; consumer approval required"

  function CardRows(card: Card): seq<Row> {
    [Row(Review, [card.version]), Row(Authority, [NO_AUTHORITY])]
    + TextRows(Intent, card.intent, TextRows(Outcome, card.outcome,
        [Row(Outline(|card.outline|), [])] + OutlineRows(0, card.outline, ValidationRows(card.validation))))
  }

  // ---------- Reading them back ----------

  function HeadOf(rows: seq<Row>): Option<Head> {
    if rows == [] then None else Some(rows[0].head)
  }

  /** The values of the next row, if it has this label and as many values. */
  function Take(head: Head, n: nat, rows: seq<Row>): (r: Option<(seq<string>, seq<Row>)>)
    ensures r.Some? ==> |r.value.0| == n && |r.value.1| < |rows|
  {
    if rows != [] && rows[0].head == head && |rows[0].values| == n then Some((rows[0].values, rows[1..])) else None
  }

  function TakeOptional(head: Head, rows: seq<Row>): (r: (string, seq<Row>))
    ensures |r.1| <= |rows|
  {
    var t := Take(head, 1, rows);
    if t.Some? then (t.value.0[0], t.value.1) else ("", rows)
  }

  function ReadText(head: Head, rows: seq<Row>): Option<(TextValue, seq<Row>)> {
    var state := Take(head, 1, rows);
    if state.None? then None
    else
      var text := TakeOptional(TextOf, state.value.1);
      var detail := TakeOptional(DetailOf, text.1);
      Some((TextValue(state.value.0[0], text.0, detail.0), detail.1))
  }

  function ReadOperation(rows: seq<Row>): Option<(Operation, seq<Row>)> {
    var id := Take(OperationId, 1, rows);
    if id.None? then None
    else
      var source := Take(SourceOf, 3, id.value.1);
      if source.None? then None
      else
        var url := TakeOptional(SourceUrl, source.value.1);
        var selector := Take(SelectorOf, 3, url.1);
        if selector.None? then None
        else
          var s, k := source.value.0, selector.value.0;
          Some((Operation(id.value.0[0], Source(s[0], s[1], s[2], url.0), Selector(k[0], k[1], k[2])), selector.value.1))
  }

  function ReadSelection(rows: seq<Row>): Option<(Selection, seq<Row>)> {
    var state := Take(OperationState, 1, rows);
    if state.None? then None
    else if HeadOf(state.value.1) == Some(OperationId) then
      var op := ReadOperation(state.value.1);
      if op.None? then None
      else
        var detail := TakeOptional(OperationDetail, op.value.1);
        Some((Selection(state.value.0[0], Some(op.value.0), detail.0), detail.1))
    else
      var detail := TakeOptional(OperationDetail, state.value.1);
      Some((Selection(state.value.0[0], None, detail.0), detail.1))
  }

  function ReadPayload(state: string, rows: seq<Row>): (Payload, seq<Row>) {
    var literal := Take(LiteralJson, 1, rows);
    var binding := TakeOptional(BindingOf, if literal.Some? then literal.value.1 else rows);
    var detail := TakeOptional(MappingDetail, binding.1);
    (Payload(state, if literal.Some? then Some(literal.value.0[0]) else None, binding.0, detail.0), detail.1)
  }

  function ReadMappings(n: nat, rows: seq<Row>): Option<(seq<Mapping>, seq<Row>)> {
    if n == 0 then Some(([], rows))
    else
      var field := Take(FieldOf, 3, rows);
      if field.None? then None
      else
        var f := field.value.0;
        var value := ReadPayload(f[2], field.value.1);
        var more := ReadMappings(n - 1, value.1);
        if more.None? then None else Some(([Mapping(f[0], f[1], value.0)] + more.value.0, more.value.1))
  }

  function ReadStep(number: nat, rows: seq<Row>): Option<(Step, seq<Row>)> {
    var title := Take(StepNo(number), 2, rows);
    if title.None? then None
    else
      var operation := ReadSelection(title.value.1);
      if operation.None? || operation.value.1 == [] || !operation.value.1[0].head.Mappings? then None
      else
        var mappings := ReadMappings(operation.value.1[0].head.n, operation.value.1[1..]);
        if mappings.None? then None
        else Some((Step(title.value.0[0], title.value.0[1], operation.value.0, mappings.value.0), mappings.value.1))
  }

  function ReadOutline(done: nat, n: nat, rows: seq<Row>): Option<(seq<Step>, seq<Row>)>
    decreases n
  {
    if n == 0 then Some(([], rows))
    else
      var step := ReadStep(done + 1, rows);
      if step.None? then None
      else
        var more := ReadOutline(done + 1, n - 1, step.value.1);
        if more.None? then None else Some(([step.value.0] + more.value.0, more.value.1))
  }

  function ReadFindings(n: nat, rows: seq<Row>): Option<seq<Finding>> {
    if n == 0 then if rows == [] then Some([]) else None
    else
      var finding := Take(FindingOf, 3, rows);
      if finding.None? then None
      else
        var more := ReadFindings(n - 1, finding.value.1);
        var f := finding.value.0;
        if more.None? then None else Some([Finding(f[0], f[1], f[2])] + more.value)
  }

  function ReadValidation(rows: seq<Row>): Option<Validation> {
    var outcome := Take(ValidationOutcome, 1, rows);
    if outcome.None? || outcome.value.1 == [] || !outcome.value.1[0].head.Findings? then None
    else
      var findings := ReadFindings(outcome.value.1[0].head.n, outcome.value.1[1..]);
      if findings.None? then None else Some(Validation(outcome.value.0[0], findings.value))
  }

  function ReadCardRows(rows: seq<Row>): Option<Card> {
    var version := Take(Review, 1, rows);
    if version.None? then None
    else
      var authority := Take(Authority, 1, version.value.1);
      if authority.None? then None
      else
        var intent := ReadText(Intent, authority.value.1);
        if intent.None? then None
        else
          var outcome := ReadText(Outcome, intent.value.1);
          if outcome.None? || outcome.value.1 == [] || !outcome.value.1[0].head.Outline? then None
          else
            var outline := ReadOutline(0, outcome.value.1[0].head.n, outcome.value.1[1..]);
            if outline.None? then None
            else
              var validation := ReadValidation(outline.value.1);
              if validation.None? then None
              else Some(Card(version.value.0[0], intent.value.0, outcome.value.0, outline.value.0, validation.value))
  }

  /** The reader of a review. */
  function ReadCard(text: string): Option<Card> {
    var lines := ReadLines(text);
    if lines.None? then None
    else
      var rows := ReadRows(lines.value);
      if rows.None? then None else ReadCardRows(rows.value)
  }

  // ---------- Nothing is lost ----------

  lemma TakeRow(head: Head, values: seq<string>, rest: seq<Row>)
    ensures Take(head, |values|, [Row(head, values)] + rest) == Some((values, rest))
  {
    assert ([Row(head, values)] + rest)[1..] == rest;
  }

  lemma TakeOptionalRow(head: Head, value: string, rest: seq<Row>)
    requires HeadOf(rest) != Some(head)
    ensures TakeOptional(head, OptionalRow(head, value, rest)) == (value, rest)
    ensures HeadOf(OptionalRow(head, value, rest)) == Some(head) || OptionalRow(head, value, rest) == rest
  {
    if value != "" { TakeRow(head, [value], rest); }
  }

  lemma TextBack(head: Head, v: TextValue, rest: seq<Row>)
    requires HeadOf(rest) != Some(TextOf) && HeadOf(rest) != Some(DetailOf)
    ensures ReadText(head, TextRows(head, v, rest)) == Some((v, rest))
  {
    TakeRow(head, [v.state], OptionalRow(TextOf, v.text, OptionalRow(DetailOf, v.detail, rest)));
    TakeOptionalRow(DetailOf, v.detail, rest);
    TakeOptionalRow(TextOf, v.text, OptionalRow(DetailOf, v.detail, rest));
  }

  lemma OperationBack(op: Operation, rest: seq<Row>)
    ensures ReadOperation(OperationRows(op, rest)) == Some((op, rest))
    ensures HeadOf(OperationRows(op, rest)) == Some(OperationId)
  {
    var selector := [op.selector.kind, op.selector.value, op.selector.key];
    var source := [op.source.id, op.source.kind, op.source.sha256];
    var after := [Row(SelectorOf, selector)] + rest;
    TakeRow(SelectorOf, selector, rest);
    TakeOptionalRow(SourceUrl, op.source.url, after);
    TakeRow(SourceOf, source, OptionalRow(SourceUrl, op.source.url, after));
    TakeRow(OperationId, [op.id], [Row(SourceOf, source)] + OptionalRow(SourceUrl, op.source.url, after));
    assert OperationRows(op, rest) == [Row(OperationId, [op.id])] + ([Row(SourceOf, source)] + OptionalRow(SourceUrl, op.source.url, after));
  }

  lemma SelectionBack(s: Selection, rest: seq<Row>)
    requires HeadOf(rest) != Some(OperationDetail) && HeadOf(rest) != Some(OperationId)
    ensures ReadSelection(SelectionRows(s, rest)) == Some((s, rest))
  {
    hide ReadOperation, OperationRows;
    var detail := OptionalRow(OperationDetail, s.detail, rest);
    TakeOptionalRow(OperationDetail, s.detail, rest);
    if s.identity.Some? { OperationBack(s.identity.value, detail); }
    TakeRow(OperationState, [s.state], if s.identity.None? then detail else OperationRows(s.identity.value, detail));
  }

  lemma PayloadBack(v: Payload, rest: seq<Row>)
    requires HeadOf(rest) !in [Some(LiteralJson), Some(BindingOf), Some(MappingDetail)]
    ensures ReadPayload(v.state, PayloadRows(v, rest)) == (v, rest)
  {
    TakeOptionalRow(MappingDetail, v.detail, rest);
    var detail := OptionalRow(MappingDetail, v.detail, rest);
    TakeOptionalRow(BindingOf, v.binding, detail);
    if v.literal.Some? { TakeRow(LiteralJson, [v.literal.value], OptionalRow(BindingOf, v.binding, detail)); }
  }

  lemma {:induction false} MappingsBack(ms: seq<Mapping>, rest: seq<Row>)
    requires HeadOf(rest) !in [Some(LiteralJson), Some(BindingOf), Some(MappingDetail)]
    ensures ReadMappings(|ms|, MappingRows(ms, rest)) == Some((ms, rest))
    ensures HeadOf(MappingRows(ms, rest)) !in [Some(LiteralJson), Some(BindingOf), Some(MappingDetail)]
  {
    hide ReadPayload, PayloadRows;
    if ms != [] {
      MappingsBack(ms[1..], rest);
      PayloadBack(ms[0].value, MappingRows(ms[1..], rest));
      TakeRow(FieldOf, [ms[0].location, ms[0].name, ms[0].value.state], PayloadRows(ms[0].value, MappingRows(ms[1..], rest)));
      assert ms == [ms[0]] + ms[1..];
    }
  }

  lemma StepBack(number: nat, step: Step, rest: seq<Row>)
    requires HeadOf(rest) !in [Some(LiteralJson), Some(BindingOf), Some(MappingDetail)]
    ensures ReadStep(number, StepRows(number, step, rest)) == Some((step, rest))
  {
    hide ReadSelection, SelectionRows, ReadMappings, MappingRows;
    var mappings := [Row(Mappings(|step.mappings|), [])] + MappingRows(step.mappings, rest);
    MappingsBack(step.mappings, rest);
    assert mappings[1..] == MappingRows(step.mappings, rest);
    SelectionBack(step.operation, mappings);
    TakeRow(StepNo(number), [step.id, step.title], SelectionRows(step.operation, mappings));
  }

  lemma {:induction false} OutlineBack(done: nat, steps: seq<Step>, rest: seq<Row>)
    requires HeadOf(rest) == Some(ValidationOutcome)
    ensures ReadOutline(done, |steps|, OutlineRows(done, steps, rest)) == Some((steps, rest))
    ensures HeadOf(OutlineRows(done, steps, rest)) == if steps == [] then Some(ValidationOutcome) else Some(StepNo(done + 1))
    decreases |steps|
  {
    hide ReadStep, SelectionRows;
    if steps != [] {
      OutlineBack(done + 1, steps[1..], rest);
      StepBack(done + 1, steps[0], OutlineRows(done + 1, steps[1..], rest));
      assert steps == [steps[0]] + steps[1..];
    }
  }

  lemma {:induction false} FindingsBack(findings: seq<Finding>)
    ensures ReadFindings(|findings|, FindingRows(findings)) == Some(findings)
  {
    if findings != [] {
      var f := findings[0];
      FindingsBack(findings[1..]);
      TakeRow(FindingOf, [f.path, f.code, f.message], FindingRows(findings[1..]));
      assert findings == [findings[0]] + findings[1..];
    }
  }

  lemma ValidationBack(v: Validation)
    ensures ReadValidation(ValidationRows(v)) == Some(v)
  {
    hide ReadFindings, FindingRows;
    FindingsBack(v.findings);
    var rows := [Row(Findings(|v.findings|), [])] + FindingRows(v.findings);
    assert rows[1..] == FindingRows(v.findings);
    TakeRow(ValidationOutcome, [v.outcome], rows);
    assert ValidationRows(v) == [Row(ValidationOutcome, [v.outcome])] + rows;
  }

  lemma CardBack(card: Card)
    ensures ReadCardRows(CardRows(card)) == Some(card)
  {
    hide ReadText, TextRows, ReadOutline, OutlineRows, ReadValidation, ValidationRows;
    var validation := ValidationRows(card.validation);
    var outline := [Row(Outline(|card.outline|), [])] + OutlineRows(0, card.outline, validation);
    var outcome := TextRows(Outcome, card.outcome, outline);
    var intent := TextRows(Intent, card.intent, outcome);
    ValidationBack(card.validation);
    ValidationHead(card.validation);
    OutlineBack(0, card.outline, validation);
    assert outline[1..] == OutlineRows(0, card.outline, validation);
    TextBack(Outcome, card.outcome, outline);
    TextHead(Outcome, card.outcome, outline);
    TextBack(Intent, card.intent, outcome);
    TakeRow(Authority, [NO_AUTHORITY], intent);
    TakeRow(Review, [card.version], [Row(Authority, [NO_AUTHORITY])] + intent);
    assert CardRows(card) == [Row(Review, [card.version])] + ([Row(Authority, [NO_AUTHORITY])] + intent);
  }

  lemma ValidationHead(v: Validation)
    ensures HeadOf(ValidationRows(v)) == Some(ValidationOutcome)
  {
  }

  lemma TextHead(head: Head, v: TextValue, rest: seq<Row>)
    ensures HeadOf(TextRows(head, v, rest)) == Some(head)
  {
  }

  /** The text RenderText writes. */
  function Rendered(printable: char -> bool, card: Card): string {
    LinesText(printable, Lines(CardRows(card)))
  }

  /** Every card can be rebuilt from its review: fields, order, and whether a payload was
      present. */
  lemma ReviewOmitsNothing(printable: char -> bool, card: Card)
    ensures ReadCard(Rendered(printable, card)) == Some(card)
  {
    hide ReadCardRows, CardRows, ReadLines, LinesText, Lines, ReadRows;
    ReadRowsOf(CardRows(card));
    ReadLinesOfText(printable, Lines(CardRows(card)));
    CardBack(card);
  }

  lemma ReviewsDiffer(printable: char -> bool, a: Card, b: Card)
    requires Rendered(printable, a) == Rendered(printable, b)
    ensures a == b
  {
    ReviewOmitsNothing(printable, a);
    ReviewOmitsNothing(printable, b);
  }
}
