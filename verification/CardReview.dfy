/** Card.Validate and RenderText as they run (authoringcard/validate.go, text.go). The
    JSON encoding and its schema enter as a predicate on cards. */
module CardReview {
  import opened Common
  import opened Quoting
  import opened CardText

  const MAX_BYTES: nat := 262144

  // ---------- Size ----------

  function Sum(values: seq<string>): nat {
    if values == [] then 0 else ByteLength(values[0]) + Sum(values[1..])
  }

  function OperationTexts(op: Option<Operation>): seq<string> {
    if op.None? then []
    else
      var o := op.value;
      [o.id, o.source.id, o.source.kind, o.source.sha256, o.source.url, o.selector.kind, o.selector.value, o.selector.key]
  }

  function LiteralBytes(v: Payload): nat {
    if v.literal.Some? then ByteLength(v.literal.value) else 0
  }

  function MappingSize(m: Mapping): nat {
    Sum([m.location, m.name, m.value.state, m.value.binding, m.value.detail]) + LiteralBytes(m.value)
  }

  function StepTexts(s: Step): seq<string> {
    [s.id, s.title, s.operation.state, s.operation.detail]
  }

  function StepSize(s: Step): nat {
    Sum(StepTexts(s)) + Sum(OperationTexts(s.operation.identity)) + Total(MappingSize, s.mappings)
  }

  function FindingSize(f: Finding): nat {
    Sum([f.path, f.code, f.message])
  }

  function HeaderTexts(c: Card): seq<string> {
    [c.version, c.intent.state, c.intent.text, c.intent.detail, c.outcome.state, c.outcome.text, c.outcome.detail, c.validation.outcome]
  }

  /** The bytes of every text and literal in the card. */
  function CardSize(c: Card): nat {
    Sum(HeaderTexts(c)) + Total(StepSize, c.outline) + Total(FindingSize, c.validation.findings)
  }

  predicate StepBounded(s: Step) {
    |s.mappings| <= 128 && forall m :: m in s.mappings ==> m.value.literal != Some("")
  }

  predicate Bounded(c: Card) {
    && |c.outline| <= 100 && |c.validation.findings| <= 128 && CardSize(c) <= MAX_BYTES
    && forall s :: s in c.outline ==> StepBounded(s)
  }

  // ---------- Consistency ----------

  predicate SameIdentities(a: Option<Operation>, b: Option<Operation>) {
    a.Some? && b.Some? ==>
      && (a.value.source.id == b.value.source.id ==> a.value.source == b.value.source)
      && (a.value.id == b.value.id ==> a.value == b.value)
  }

  predicate Targets(ms: seq<Mapping>) {
    forall i, j :: 0 <= i < j < |ms| ==> (ms[i].location, ms[i].name) != (ms[j].location, ms[j].name)
  }

  predicate StepUnfinished(s: Step) {
    s.operation.state != "known" || exists m :: m in s.mappings && m.value.state != "known"
  }

  predicate Unfinished(c: Card) {
    c.intent.state != "known" || c.outcome.state != "known" || c.outline == [] || exists s :: s in c.outline && StepUnfinished(s)
  }

  predicate OutlineConsistent(steps: seq<Step>) {
    && (forall i, j :: 0 <= i < j < |steps| ==> steps[i].id != steps[j].id && SameIdentities(steps[i].operation.identity, steps[j].operation.identity))
    && (forall i :: 0 <= i < |steps| ==> Targets(steps[i].mappings))
  }

  predicate OutcomeConsistent(c: Card) {
    match c.validation.outcome
    case "valid" => !Unfinished(c) && c.validation.findings == []
    case "invalid" => c.validation.findings != []
    case "unresolved" => Unfinished(c) || c.validation.findings != []
    case _ => true
  }

  predicate CardValid(schema: Card -> bool, c: Card) {
    Bounded(c) && schema(c) && OutlineConsistent(c.outline) && OutcomeConsistent(c)
  }

  // ---------- bounded ----------

  /** The texts closure: it adds up bytes and stops at the limit. */
  method Texts(values: seq<string>, size: nat) returns (ok: bool, size': nat)
    requires size <= MAX_BYTES
    ensures ok <==> size + Sum(values) <= MAX_BYTES
    ensures ok ==> size' == size + Sum(values)
  {
    size' := size;
    for i := 0 to |values|
      invariant size' <= MAX_BYTES && size' + Sum(values[i..]) == size + Sum(values)
    {
      assert values[i..][1..] == values[i + 1..];
      if ByteLength(values[i]) > MAX_BYTES - size' { return false, size'; }
      size' := size' + ByteLength(values[i]);
    }
    return true, size';
  }

  method MappingsBounded(ms: seq<Mapping>, size: nat) returns (ok: bool, size': nat)
    requires size <= MAX_BYTES
    ensures ok <==> size + Total(MappingSize, ms) <= MAX_BYTES && forall m :: m in ms ==> m.value.literal != Some("")
    ensures ok ==> size' == size + Total(MappingSize, ms)
  {
    hide Total, Sum;
    size' := size;
    NoneTotal(MappingSize, ms);
    for i := 0 to |ms|
      invariant size' == size + Total(MappingSize, ms[..i]) <= MAX_BYTES
      invariant forall k :: 0 <= k < i ==> ms[k].value.literal != Some("")
    {
      var v := ms[i].value;
      TotalNext(MappingSize, ms, i);
      assert ms[i] in ms;
      var texts, after := Texts([ms[i].location, ms[i].name, v.state, v.binding, v.detail], size');
      if !texts || v.literal == Some("") || LiteralBytes(v) > MAX_BYTES - after { return false, size'; }
      size' := after + LiteralBytes(v);
    }
    assert ms[..|ms|] == ms;
    return true, size';
  }

  lemma NoneTotal<T>(size: T -> nat, s: seq<T>)
    ensures Total(size, s[..0]) == 0
  {
  }

  method StepIsBounded(s: Step, size: nat) returns (ok: bool, size': nat)
    requires size <= MAX_BYTES
    ensures ok <==> size + StepSize(s) <= MAX_BYTES && StepBounded(s)
    ensures ok ==> size' == size + StepSize(s)
  {
    hide Total, Sum;
    size' := size;
    if |s.mappings| > 128 { return false, size; }
    ok, size' := Texts(StepTexts(s), size);
    if !ok { return; }
    if s.operation.identity.Some? {
      ok, size' := Texts(OperationTexts(s.operation.identity), size');
      if !ok { return; }
    } else {
      NoTexts();
    }
    ok, size' := MappingsBounded(s.mappings, size');
  }

  lemma NoTexts()
    ensures Sum([]) == 0
  {
  }

  method IsBounded(c: Card) returns (ok: bool)
    ensures ok <==> Bounded(c)
  {
    hide Total, Sum, HeaderTexts, StepSize, FindingSize;
    if |c.outline| > 100 || |c.validation.findings| > 128 { return false; }
    var size: nat;
    ok, size := Texts(HeaderTexts(c), 0);
    if !ok { return; }
    ghost var header := size;
    NoneTotal(StepSize, c.outline);
    for i := 0 to |c.outline|
      invariant size == header + Total(StepSize, c.outline[..i]) <= MAX_BYTES
      invariant forall k :: 0 <= k < i ==> StepBounded(c.outline[k])
    {
      TotalNext(StepSize, c.outline, i);
      assert c.outline[i] in c.outline;
      ok, size := StepIsBounded(c.outline[i], size);
      if !ok { return; }
    }
    assert c.outline[..|c.outline|] == c.outline;
    ghost var outlined := size;
    NoneTotal(FindingSize, c.validation.findings);
    for i := 0 to |c.validation.findings|
      invariant size == outlined + Total(FindingSize, c.validation.findings[..i]) <= MAX_BYTES
    {
      var f := c.validation.findings[i];
      TotalNext(FindingSize, c.validation.findings, i);
      FindingTexts(f);
      ok, size := Texts([f.path, f.code, f.message], size);
      if !ok { return; }
    }
    assert c.validation.findings[..|c.validation.findings|] == c.validation.findings;
    return true;
  }

  lemma FindingTexts(f: Finding)
    ensures FindingSize(f) == Sum([f.path, f.code, f.message])
  {
  }

  // ---------- Validate ----------

  function Identity(steps: seq<Step>, k: nat): Option<Operation>
    requires k < |steps|
  {
    steps[k].operation.identity
  }

  ghost predicate IdsSeen(steps: seq<Step>, i: nat, ids: set<string>)
    requires i <= |steps|
  {
    forall id :: id in ids <==> exists k :: 0 <= k < i && steps[k].id == id
  }

  ghost predicate SourcesSeen(steps: seq<Step>, i: nat, sources: map<string, Source>)
    requires i <= |steps|
  {
    && (forall k :: 0 <= k < i && Identity(steps, k).Some? ==>
          var source := Identity(steps, k).value.source; source.id in sources && sources[source.id] == source)
    && (forall id :: id in sources ==> exists k :: 0 <= k < i && Identity(steps, k).Some? && Identity(steps, k).value.source.id == id)
  }

  ghost predicate OperationsSeen(steps: seq<Step>, i: nat, operations: map<string, Operation>)
    requires i <= |steps|
  {
    && (forall k :: 0 <= k < i && Identity(steps, k).Some? ==>
          var op := Identity(steps, k).value; op.id in operations && operations[op.id] == op)
    && (forall id :: id in operations ==> exists k :: 0 <= k < i && Identity(steps, k).Some? && Identity(steps, k).value.id == id)
  }

  /** The maps of the outline loop describe the steps before i. */
  ghost predicate Maps(steps: seq<Step>, i: nat, ids: set<string>, sources: map<string, Source>, operations: map<string, Operation>)
    requires i <= |steps|
  {
    IdsSeen(steps, i, ids) && SourcesSeen(steps, i, sources) && OperationsSeen(steps, i, operations)
  }

  method CheckTargets(ms: seq<Mapping>) returns (ok: bool, unfinished: bool)
    ensures ok <==> Targets(ms)
    ensures ok ==> (unfinished <==> exists m :: m in ms && m.value.state != "known")
  {
    var targets: set<(string, string)> := {};
    unfinished := false;
    for i := 0 to |ms|
      invariant forall t :: t in targets <==> exists k :: 0 <= k < i && (ms[k].location, ms[k].name) == t
      invariant Targets(ms[..i])
      invariant unfinished <==> exists k :: 0 <= k < i && ms[k].value.state != "known"
    {
      var target := (ms[i].location, ms[i].name);
      if target in targets { return false, unfinished; }
      targets := targets + {target};
      unfinished := unfinished || ms[i].value.state != "known";
    }
    assert ms[..|ms|] == ms;
    return true, unfinished;
  }

  lemma Clash(steps: seq<Step>, i: nat, ids: set<string>, sources: map<string, Source>, operations: map<string, Operation>, op: Operation)
    requires i <= |steps| && Maps(steps, i, ids, sources, operations)
    requires (op.source.id in sources && sources[op.source.id] != op.source) || (op.id in operations && operations[op.id] != op)
    ensures exists k :: 0 <= k < i && !SameIdentities(Identity(steps, k), Some(op))
  {
    if op.source.id in sources && sources[op.source.id] != op.source {
      var k :| 0 <= k < i && Identity(steps, k).Some? && Identity(steps, k).value.source.id == op.source.id;
      assert !SameIdentities(Identity(steps, k), Some(op));
    } else {
      var k :| 0 <= k < i && Identity(steps, k).Some? && Identity(steps, k).value.id == op.id;
      assert !SameIdentities(Identity(steps, k), Some(op));
    }
  }

  lemma NoClash(steps: seq<Step>, i: nat, ids: set<string>, sources: map<string, Source>, operations: map<string, Operation>, op: Operation)
    requires i <= |steps| && Maps(steps, i, ids, sources, operations)
    requires (op.source.id in sources ==> sources[op.source.id] == op.source) && (op.id in operations ==> operations[op.id] == op)
    ensures forall k :: 0 <= k < i ==> SameIdentities(Identity(steps, k), Some(op))
  {
  }

  lemma SourcesNext(steps: seq<Step>, i: nat, sources: map<string, Source>)
    requires i < |steps| && SourcesSeen(steps, i, sources) && Identity(steps, i).Some?
    requires var source := Identity(steps, i).value.source; source.id in sources ==> sources[source.id] == source
    ensures var source := Identity(steps, i).value.source; SourcesSeen(steps, i + 1, sources[source.id := source])
  {
  }

  lemma OperationsNext(steps: seq<Step>, i: nat, operations: map<string, Operation>)
    requires i < |steps| && OperationsSeen(steps, i, operations) && Identity(steps, i).Some?
    requires var op := Identity(steps, i).value; op.id in operations ==> operations[op.id] == op
    ensures var op := Identity(steps, i).value; OperationsSeen(steps, i + 1, operations[op.id := op])
  {
  }

  lemma IdsNext(steps: seq<Step>, i: nat, ids: set<string>)
    requires i < |steps| && IdsSeen(steps, i, ids)
    ensures IdsSeen(steps, i + 1, ids + {steps[i].id})
  {
  }

  lemma NoIdentityNext(steps: seq<Step>, i: nat, sources: map<string, Source>, operations: map<string, Operation>)
    requires i < |steps| && SourcesSeen(steps, i, sources) && OperationsSeen(steps, i, operations) && Identity(steps, i).None?
    ensures SourcesSeen(steps, i + 1, sources) && OperationsSeen(steps, i + 1, operations)
  {
  }

  /** The identity checks of one step against the maps. */
  method CheckIdentity(steps: seq<Step>, i: nat, ghost ids: set<string>, sources: map<string, Source>, operations: map<string, Operation>)
    returns (ok: bool, sources': map<string, Source>, operations': map<string, Operation>)
    requires i < |steps| && Maps(steps, i, ids, sources, operations)
    ensures ok <==> forall k :: 0 <= k < i ==> SameIdentities(Identity(steps, k), Identity(steps, i))
    ensures ok ==> Maps(steps, i + 1, ids + {steps[i].id}, sources', operations')
  {
    hide IdsSeen, SourcesSeen, OperationsSeen;
    sources', operations' := sources, operations;
    IdsNext(steps, i, ids);
    var identity := steps[i].operation.identity;
    if identity.Some? {
      hide SameIdentities;
      var op := identity.value;
      if (op.source.id in sources && sources[op.source.id] != op.source) || (op.id in operations && operations[op.id] != op) {
        Clash(steps, i, ids, sources, operations, op);
        return false, sources', operations';
      }
      NoClash(steps, i, ids, sources, operations, op);
      SourcesNext(steps, i, sources);
      OperationsNext(steps, i, operations);
      sources' := sources[op.source.id := op.source];
      operations' := operations[op.id := op];
    } else {
      NoIdentityNext(steps, i, sources, operations);
    }
    return true, sources', operations';
  }

  lemma PrefixInconsistent(steps: seq<Step>, i: nat)
    requires i <= |steps| && !OutlineConsistent(steps[..i])
    ensures !OutlineConsistent(steps)
  {
  }

  lemma NextStepConsistent(steps: seq<Step>, i: nat)
    requires i < |steps| && OutlineConsistent(steps[..i])
    ensures OutlineConsistent(steps[..i + 1]) <==>
            && (forall k :: 0 <= k < i ==> steps[k].id != steps[i].id && SameIdentities(Identity(steps, k), Identity(steps, i)))
            && Targets(steps[i].mappings)
  {
    hide SameIdentities, Targets;
    var head := steps[..i + 1];
    assert forall k :: 0 <= k < i ==> head[k] == steps[..i][k] == steps[k];
    assert head[i] == steps[i];
  }

  /** One round of the outline loop. */
  method CheckStep(steps: seq<Step>, i: nat, ids: set<string>, sources: map<string, Source>, operations: map<string, Operation>)
    returns (ok: bool, open: bool, sources': map<string, Source>, operations': map<string, Operation>)
    requires i < |steps| && Maps(steps, i, ids, sources, operations) && OutlineConsistent(steps[..i])
    ensures ok <==> OutlineConsistent(steps[..i + 1])
    ensures ok ==> Maps(steps, i + 1, ids + {steps[i].id}, sources', operations') && (open <==> StepUnfinished(steps[i]))
  {
    var step := steps[i];
    ok, open, sources', operations' := false, false, sources, operations;
    NextStepConsistent(steps, i);
    MapsIds(steps, i, ids, sources, operations);
    hide Maps, OutlineConsistent, SameIdentities, Targets;
    if step.id in ids { return; }
    ok, sources', operations' := CheckIdentity(steps, i, ids, sources, operations);
    if !ok { return; }
    ok, open := CheckTargets(step.mappings);
    open := step.operation.state != "known" || open;
  }

  lemma UnfinishedWhen(c: Card, start: bool)
    requires start <==> c.intent.state != "known" || c.outcome.state != "known" || c.outline == []
    ensures Unfinished(c) <==> start || exists k :: 0 <= k < |c.outline| && StepUnfinished(c.outline[k])
  {
    hide StepUnfinished;
  }

  lemma NothingOutlined(steps: seq<Step>)
    ensures OutlineConsistent(steps[..0]) && Maps(steps, 0, {}, map[], map[])
  {
  }

  /** The outline loop. */
  method CheckOutline(c: Card) returns (ok: bool, unfinished: bool)
    ensures ok <==> OutlineConsistent(c.outline)
    ensures ok ==> (unfinished <==> Unfinished(c))
  {
    var steps := c.outline;
    unfinished := c.intent.state != "known" || c.outcome.state != "known" || steps == [];
    ghost var start := unfinished;
    var ids: set<string> := {};
    var sources: map<string, Source>, operations: map<string, Operation> := map[], map[];
    NothingOutlined(steps);
    hide Maps, OutlineConsistent, SameIdentities, Targets, StepUnfinished, Unfinished;
    for i := 0 to |steps|
      invariant Maps(steps, i, ids, sources, operations) && OutlineConsistent(steps[..i])
      invariant unfinished <==> start || exists k :: 0 <= k < i && StepUnfinished(steps[k])
    {
      var open;
      ok, open, sources, operations := CheckStep(steps, i, ids, sources, operations);
      if !ok { PrefixInconsistent(steps, i + 1); return; }
      ids := ids + {steps[i].id};
      unfinished := unfinished || open;
    }
    assert steps[..|steps|] == steps;
    UnfinishedWhen(c, start);
    return true, unfinished;
  }

  lemma MapsIds(steps: seq<Step>, i: nat, ids: set<string>, sources: map<string, Source>, operations: map<string, Operation>)
    requires i <= |steps| && Maps(steps, i, ids, sources, operations)
    ensures forall id :: id in ids <==> exists k :: 0 <= k < i && steps[k].id == id
  {
  }

  /** Card.Validate. */
  method Validate(schema: Card -> bool, c: Card) returns (ok: bool)
    ensures ok <==> CardValid(schema, c)
  {
    hide Bounded, OutlineConsistent, Unfinished;
    ok := IsBounded(c);
    if !ok || !schema(c) { return false; }
    var unfinished;
    ok, unfinished := CheckOutline(c);
    if !ok { return; }
    match c.validation.outcome {
      case "valid" => return !unfinished && c.validation.findings == [];
      case "invalid" => return c.validation.findings != [];
      case "unresolved" => return unfinished || c.validation.findings != [];
      case _ => return true;
    }
  }

  // ---------- RenderText ----------

  function RowsText(printable: char -> bool, rows: seq<Row>): string {
    LinesText(printable, Lines(rows))
  }

  /** The line closure: what was still to be written loses its first row. */
  method Emit(printable: char -> bool, text: string, head: Head, values: seq<string>, ghost whole: string, ghost rest: seq<Row>) returns (text': string)
    requires whole == text + RowsText(printable, [Row(head, values)] + rest)
    ensures whole == text' + RowsText(printable, rest)
  {
    text' := text + LineText(printable, Line(HeadText(head), values));
    assert ([Row(head, values)] + rest)[1..] == rest;
    var rows := [Row(head, values)] + rest;
    assert Lines(rows)[1..] == Lines(rest);
    assert RowsText(printable, rows) == LineText(printable, Line(HeadText(head), values)) + RowsText(printable, rest);
  }

  method EmitOptional(printable: char -> bool, text: string, head: Head, value: string, ghost whole: string, ghost rest: seq<Row>) returns (text': string)
    requires whole == text + RowsText(printable, OptionalRow(head, value, rest))
    ensures whole == text' + RowsText(printable, rest)
  {
    hide RowsText;
    text' := text;
    if value != "" { text' := Emit(printable, text, head, [value], whole, rest); }
  }

  method EmitText(printable: char -> bool, text: string, head: Head, v: TextValue, ghost whole: string, ghost rest: seq<Row>) returns (text': string)
    requires whole == text + RowsText(printable, TextRows(head, v, rest))
    ensures whole == text' + RowsText(printable, rest)
  {
    hide RowsText;
    ghost var detail := OptionalRow(DetailOf, v.detail, rest);
    text' := Emit(printable, text, head, [v.state], whole, OptionalRow(TextOf, v.text, detail));
    text' := EmitOptional(printable, text', TextOf, v.text, whole, detail);
    text' := EmitOptional(printable, text', DetailOf, v.detail, whole, rest);
  }

  method EmitSelection(printable: char -> bool, text: string, s: Selection, ghost whole: string, ghost rest: seq<Row>) returns (text': string)
    requires whole == text + RowsText(printable, SelectionRows(s, rest))
    ensures whole == text' + RowsText(printable, rest)
  {
    hide RowsText;
    ghost var detail := OptionalRow(OperationDetail, s.detail, rest);
    text' := Emit(printable, text, OperationState, [s.state], whole, if s.identity.None? then detail else OperationRows(s.identity.value, detail));
    if s.identity.Some? {
      var op := s.identity.value;
      var source, selector := [op.source.id, op.source.kind, op.source.sha256], [op.selector.kind, op.selector.value, op.selector.key];
      ghost var selected := [Row(SelectorOf, selector)] + detail;
      ghost var located := OptionalRow(SourceUrl, op.source.url, selected);
      assert OperationRows(op, detail) == [Row(OperationId, [op.id])] + ([Row(SourceOf, source)] + located);
      text' := Emit(printable, text', OperationId, [op.id], whole, [Row(SourceOf, source)] + located);
      text' := Emit(printable, text', SourceOf, source, whole, located);
      text' := EmitOptional(printable, text', SourceUrl, op.source.url, whole, selected);
      text' := Emit(printable, text', SelectorOf, selector, whole, detail);
    }
    text' := EmitOptional(printable, text', OperationDetail, s.detail, whole, rest);
  }

  method EmitMapping(printable: char -> bool, text: string, m: Mapping, ghost whole: string, ghost rest: seq<Row>) returns (text': string)
    requires whole == text + RowsText(printable, [Row(FieldOf, [m.location, m.name, m.value.state])] + PayloadRows(m.value, rest))
    ensures whole == text' + RowsText(printable, rest)
  {
    hide RowsText;
    var v := m.value;
    ghost var detail := OptionalRow(MappingDetail, v.detail, rest);
    ghost var binding := OptionalRow(BindingOf, v.binding, detail);
    text' := Emit(printable, text, FieldOf, [m.location, m.name, v.state], whole, PayloadRows(v, rest));
    if v.literal.Some? { text' := Emit(printable, text', LiteralJson, [v.literal.value], whole, binding); }
    text' := EmitOptional(printable, text', BindingOf, v.binding, whole, detail);
    text' := EmitOptional(printable, text', MappingDetail, v.detail, whole, rest);
  }

  method EmitStep(printable: char -> bool, text: string, number: nat, step: Step, ghost whole: string, ghost rest: seq<Row>) returns (text': string)
    requires whole == text + RowsText(printable, StepRows(number, step, rest))
    ensures whole == text' + RowsText(printable, rest)
  {
    hide RowsText, SelectionRows, PayloadRows;
    ghost var mapped := MappingRows(step.mappings, rest);
    ghost var counted := [Row(Mappings(|step.mappings|), [])] + mapped;
    text' := Emit(printable, text, StepNo(number), [step.id, step.title], whole, SelectionRows(step.operation, counted));
    text' := EmitSelection(printable, text', step.operation, whole, counted);
    text' := Emit(printable, text', Mappings(|step.mappings|), [], whole, mapped);
    for k := 0 to |step.mappings|
      invariant whole == text' + RowsText(printable, MappingRows(step.mappings[k..], rest))
    {
      assert step.mappings[k..][1..] == step.mappings[k + 1..];
      text' := EmitMapping(printable, text', step.mappings[k], whole, MappingRows(step.mappings[k + 1..], rest));
    }
  }

  method EmitFindings(printable: char -> bool, text: string, findings: seq<Finding>, ghost whole: string) returns (text': string)
    requires whole == text + RowsText(printable, FindingRows(findings))
    ensures whole == text'
  {
    text' := text;
    for k := 0 to |findings|
      invariant whole == text' + RowsText(printable, FindingRows(findings[k..]))
    {
      hide RowsText;
      var f := findings[k];
      assert findings[k..][1..] == findings[k + 1..];
      text' := Emit(printable, text', FindingOf, [f.path, f.code, f.message], whole, FindingRows(findings[k + 1..]));
    }
    assert RowsText(printable, []) == [];
  }

  /** RenderText. */
  method RenderText(schema: Card -> bool, printable: char -> bool, card: Card) returns (text: Option<string>)
    ensures text.Some? <==> CardValid(schema, card)
    ensures text.Some? ==> text.value == Rendered(printable, card)
  {
    hide RowsText, CardValid, TextRows, StepRows;
    var valid := Validate(schema, card);
    if !valid { return None; }
    ghost var whole := RowsText(printable, CardRows(card));
    ghost var validation := ValidationRows(card.validation);
    ghost var steps := OutlineRows(0, card.outline, validation);
    ghost var outline := [Row(Outline(|card.outline|), [])] + steps;
    ghost var outcome := TextRows(Outcome, card.outcome, outline);
    ghost var intent := TextRows(Intent, card.intent, outcome);
    assert CardRows(card) == [Row(Review, [card.version])] + ([Row(Authority, [NO_AUTHORITY])] + intent);
    var t := Emit(printable, "", Review, [card.version], whole, [Row(Authority, [NO_AUTHORITY])] + intent);
    t := Emit(printable, t, Authority, [NO_AUTHORITY], whole, intent);
    t := EmitText(printable, t, Intent, card.intent, whole, outcome);
    t := EmitText(printable, t, Outcome, card.outcome, whole, outline);
    t := Emit(printable, t, Outline(|card.outline|), [], whole, steps);
    for k := 0 to |card.outline|
      invariant whole == t + RowsText(printable, OutlineRows(k, card.outline[k..], validation))
    {
      assert card.outline[k..][1..] == card.outline[k + 1..];
      t := EmitStep(printable, t, k + 1, card.outline[k], whole, OutlineRows(k + 1, card.outline[k + 1..], validation));
    }
    ghost var findings := FindingRows(card.validation.findings);
    ghost var counted := [Row(Findings(|card.validation.findings|), [])] + findings;
    assert validation == [Row(ValidationOutcome, [card.validation.outcome])] + counted;
    t := Emit(printable, t, ValidationOutcome, [card.validation.outcome], whole, counted);
    t := Emit(printable, t, Findings(|card.validation.findings|), [], whole, findings);
    t := EmitFindings(printable, t, card.validation.findings, whole);
    WholeIsRendered(printable, card);
    return Some(t);
  }

  lemma WholeIsRendered(printable: char -> bool, card: Card)
    ensures RowsText(printable, CardRows(card)) == Rendered(printable, card)
  {
  }
}
