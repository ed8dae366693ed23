/** The static checker of workflow references: expressionContracts in
    packagev3/expression_contracts.go. Texts arrive parsed; `Parse` is what the
    expression grammar makes of them. */
module ExpressionContracts {
  import opened Common
  import opened JsonSchema

  const MAX_DEPTH := 64

  // ---------- References and documents ----------

  datatype Pointer = Whole | Tokens(parts: seq<string>) | Malformed

  /** A parsed expression: refused by the grammar, built with an operator, or one reference. */
  datatype Reference =
    | Refused
    | Operated
    | Variable(name: string, path: seq<string>)
    | StepReference(parts: seq<string>)
    | OutputReference(name: string, path: seq<string>)
    | StatusCode
    | Body(pointer: Pointer)
    | Header(name: string)
    | OtherReference

  datatype Place = InBody | InHeader

  datatype Declared = Declared(place: Place, name: string, contract: Contract)

  datatype Shape = Shape(protocol: string, browserAction: bool, complete: bool, outputs: seq<Declared>)

  /** One output of a step, operation or workflow: its name and its expression text. */
  datatype Entry = Entry(name: string, text: string)

  /** `flat` is flatStep: no condition, loop, nesting, wait or other control. */
  datatype Step = Step(stepId: string, operation: string, flat: bool, outputs: seq<Entry>)

  /** The document as one workflow's references see it. A null step is None; an operation
      without a resolved shape is absent from `shapes`. */
  datatype Document = Document(
    l: Library, parse: string -> Reference,
    variables: map<string, Value>, overlay: map<string, Value>, components: map<string, Value>,
    sequential: bool, steps: seq<Option<Step>>, shapes: map<string, Shape>)

  /** Whose output is being resolved. */
  datatype Owner = AtStep(index: nat) | OfWorkflow | Detached(operation: string)

  datatype Scope = Scope(owner: Owner, outputs: seq<Entry>, outputName: string)

  datatype Status = Compatible | Incompatible | Indeterminate

  datatype Answer = Answer(contract: Contract, status: Status)

  const INCOMPATIBLE := Answer(Unproved, Incompatible)
  const INDETERMINATE := Answer(Unproved, Indeterminate)

  // ---------- Small steps of the checker ----------

  /** The declared value of a variable; None with `collides` when a component and the
      document or data both declare it. */
  predicate Collides(d: Document, name: string) {
    name in d.components && (name in d.variables || name in d.overlay)
  }

  function Declaration(d: Document, name: string): Option<Value> {
    if name in d.overlay then Some(d.overlay[name])
    else if name in d.variables then Some(d.variables[name])
    else if name in d.components then Some(d.components[name])
    else None
  }

  function OnVariable(d: Document, name: string, path: seq<string>): Answer {
    if Collides(d, name) then INDETERMINATE
    else if Declaration(d, name).None? then INCOMPATIBLE
    else
      var v := Lookup(Declaration(d, name).value, path);
      if v.None? then INCOMPATIBLE
      else if LiteralContract(d.l, v.value).Unproved? then INDETERMINATE
      else Answer(LiteralContract(d.l, v.value), Compatible)
  }

  predicate Names(d: Document, i: int, id: string) {
    0 <= i < |d.steps| && d.steps[i].Some? && d.steps[i].value.stepId == id
  }

  /** The one step with this id; None when there is none or several. */
  function FindStep(d: Document, id: string): (r: Option<nat>)
    ensures r.Some? <==> (exists i :: Names(d, i, id)) && forall i, j :: Names(d, i, id) && Names(d, j, id) ==> i == j
    ensures r.Some? ==> Names(d, r.value, id)
  {
    FindStepFrom(d, id, 0)
  }

  function FindStepFrom(d: Document, id: string, i: nat): (r: Option<nat>)
    requires i <= |d.steps|
    ensures r.Some? <==> (exists k :: i <= k && Names(d, k, id)) && forall k, j :: i <= k && i <= j && Names(d, k, id) && Names(d, j, id) ==> k == j
    ensures r.Some? ==> i <= r.value && Names(d, r.value, id)
    decreases |d.steps| - i
  {
    if i == |d.steps| then None
    else
      assert forall k :: i <= k && Names(d, k, id) <==> (k == i && Names(d, i, id)) || (i + 1 <= k && Names(d, k, id));
      if !Names(d, i, id) then FindStepFrom(d, id, i + 1)
      else if exists k :: i < k < |d.steps| && Names(d, k, id) then None
      else Some(i)
  }

  function FindEntry(outputs: seq<Entry>, name: string): (r: Option<nat>)
    ensures r.Some? ==> r.value < |outputs| && outputs[r.value].name == name
    ensures r.None? ==> forall i :: 0 <= i < |outputs| ==> outputs[i].name != name
  {
    if outputs == [] then None
    else if outputs[|outputs| - 1].name == name then Some(|outputs| - 1)
    else FindEntry(outputs[..|outputs| - 1], name)
  }

  function ShapeOf(d: Document, owner: Owner): Option<Shape> {
    match owner
    case OfWorkflow => None
    case AtStep(i) =>
      if i < |d.steps| && d.steps[i].Some? && d.steps[i].value.operation in d.shapes
      then Some(d.shapes[d.steps[i].value.operation]) else None
    case Detached(op) => if op in d.shapes then Some(d.shapes[op]) else None
  }

  predicate ScalarDeclaration(c: Contract) {
    && c.Known? && c.schema.Obj? && "type" in c.schema.members
    && c.schema.members["type"] in {Str("string"), Str("boolean"), Str("integer"), Str("number"), Str("null")}
  }

  /** childContract of the checker: a path below a scalar of a browser action is missing,
      not merely unproved. */
  function Below(d: Document, owner: Owner, c: Contract, parts: seq<string>): Answer {
    var shape := ShapeOf(d, owner);
    if parts != [] && shape.Some? && shape.value.browserAction && ScalarDeclaration(c) then Answer(Known(NEVER), Incompatible)
    else
      var r := ChildContract(d.l, c, parts);
      if r.Unproved? then INDETERMINATE else Answer(r, Compatible)
  }

  /** responseReference: which declared output a response reference selects, and the
      path left inside it. A browser action declares one output per name, selected by
      the first token. */
  function Selected(shape: Option<Shape>, ref: Reference): (Place, string, Pointer)
    requires ref.Body? || ref.Header?
  {
    if ref.Header? then (InHeader, ref.name, Whole)
    else if shape.Some? && shape.value.browserAction then
      match ref.pointer
      case Tokens(parts) =>
        if parts == [] then (InBody, "", ref.pointer)
        else if |parts| == 1 then (InBody, parts[0], Whole)
        else (InBody, parts[0], Tokens(parts[1..]))
      case _ => (InBody, "", ref.pointer)
    else if shape.Some? && shape.value.protocol == "fnct" then (InBody, "received_body", ref.pointer)
    else (InBody, "body", ref.pointer)
  }

  function FindDeclared(outputs: seq<Declared>, place: Place, name: string): (r: Option<Declared>)
    ensures r.Some? ==> r.value in outputs && r.value.place == place && r.value.name == name
  {
    if outputs == [] then None
    else if outputs[0].place == place && outputs[0].name == name then Some(outputs[0])
    else FindDeclared(outputs[1..], place, name)
  }

  function OnDeclared(d: Document, owner: Owner, c: Contract, pointer: Pointer): Answer {
    if pointer.Malformed? then INCOMPATIBLE
    else
      var a := if pointer.Tokens? then Below(d, owner, c, pointer.parts)
               else if c.Unproved? then INDETERMINATE else Answer(c, Compatible);
      if a.contract == Known(NEVER) then Answer(a.contract, Incompatible) else a
  }

  function OnResponse(d: Document, owner: Owner, ref: Reference): Answer
    requires ref.Body? || ref.Header?
  {
    var shape := ShapeOf(d, owner);
    if shape.None? then INDETERMINATE
    else
      var (place, name, pointer) := Selected(shape, ref);
      var declared := FindDeclared(shape.value.outputs, place, name);
      if declared.Some? then OnDeclared(d, owner, declared.value.contract, pointer)
      else if shape.value.complete then INCOMPATIBLE else INDETERMINATE
  }

  function OnStatusCode(d: Document, owner: Owner): Answer {
    var shape := ShapeOf(d, owner);
    if shape.None? || shape.value.protocol != "http" then INDETERMINATE
    else Answer(Known(Obj(map["type" := Str("integer")])), Compatible)
  }

  /** The step a step reference names, once the checks that do not depend on its
      outputs have passed; otherwise the answer they give. */
  datatype Target = Settled(answer: Answer) | Step(index: nat)

  predicate TooLate(owner: Owner, index: nat) {
    owner.AtStep? && index >= owner.index
  }

  function FindTarget(d: Document, owner: Owner, parts: seq<string>): (r: Target)
    ensures r.Step? ==> |parts| >= 3 && FindStep(d, parts[0]) == Some(r.index) && Names(d, r.index, parts[0])
    ensures r.Step? ==> d.steps[r.index].value.flat && d.sequential && !TooLate(owner, r.index)
  {
    if |parts| < 3 then Settled(INCOMPATIBLE)
    else if owner.Detached? then Settled(INDETERMINATE)
    else
      var found := FindStep(d, parts[0]);
      if found.None? then Settled(INCOMPATIBLE)
      else if !d.sequential || !d.steps[found.value].value.flat then Settled(INDETERMINATE)
      else if TooLate(owner, found.value) then Settled(INCOMPATIBLE)
      else Target.Step(found.value)
  }

  // ---------- The recursive checker ----------

  function StepKey(id: string, name: string): string {
    "step/" + id + "/" + name
  }

  /** contract: the schema proved for an expression text in a scope. `active` holds the
      keys of the step outputs being resolved. */
  function Check(d: Document, text: string, scope: Scope, active: set<string>, depth: nat): Answer
    decreases MAX_DEPTH + 2 - depth, 1
  {
    if depth > MAX_DEPTH then INDETERMINATE
    else match d.parse(text)
      case Refused => INCOMPATIBLE
      case Operated => INDETERMINATE
      case Variable(name, path) => OnVariable(d, name, path)
      case StepReference(parts) =>
        var target := FindTarget(d, scope.owner, parts);
        if target.Settled? then target.answer
        else
          var a := CheckOutput(d, parts[2], target.index, active, depth + 1);
          if !a.status.Compatible? then a else Below(d, AtStep(target.index), a.contract, parts[3..])
      case OutputReference(name, path) =>
        if scope.outputName == "" || !Less(name, scope.outputName) then INCOMPATIBLE
        else
          var entry := FindEntry(scope.outputs, name);
          if entry.None? then INCOMPATIBLE
          else
            var a := Check(d, scope.outputs[entry.value].text, scope.(outputName := name), active, depth + 1);
            if !a.status.Compatible? then a else Below(d, scope.owner, a.contract, path)
      case StatusCode => OnStatusCode(d, scope.owner)
      case Body(_) => OnResponse(d, scope.owner, d.parse(text))
      case Header(_) => OnResponse(d, scope.owner, d.parse(text))
      case OtherReference => INDETERMINATE
  }

  /** output: the contract of a step's named output. */
  function CheckOutput(d: Document, name: string, index: nat, active: set<string>, depth: nat): Answer
    requires depth <= MAX_DEPTH + 1 && index < |d.steps| && d.steps[index].Some?
    decreases MAX_DEPTH + 2 - depth, 0
  {
    var step := d.steps[index].value;
    var entry := FindEntry(step.outputs, name);
    if entry.None? then INCOMPATIBLE
    else
      var key := StepKey(step.stepId, name);
      if key in active then INCOMPATIBLE
      else Check(d, step.outputs[entry.value].text, Scope(AtStep(index), step.outputs, name), active + {key}, depth + 1)
  }
}
