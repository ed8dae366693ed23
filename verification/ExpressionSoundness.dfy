/** Type soundness of the expression checker against a runtime that executes the steps
    in order and resolves each owner's outputs in name order. */
module ExpressionSoundness {
  import opened Common
  import opened JsonSchema
  import opened ExpressionContracts

  // ---------- The runtime ----------

  datatype Response = Response(values: map<(Place, string), Value>, status: Option<Value>)

  /** What happens at run time: the responses of the leaves, which declaration of a
      colliding variable wins, and whatever the runtime makes of texts and data the
      checker proves nothing about. */
  datatype Runtime = Runtime(
    componentsFirst: bool, responses: nat -> Response, detached: string -> Response,
    computed: string -> Option<Value>, resolved: Value -> Option<Value>)

  type Outputs = map<string, Value>

  /** The value a variable has at run time: reviewed data replaces what the document declares,
      and a component of the same name comes first or last. */
  function RuntimeDeclaration(d: Document, rt: Runtime, name: string): Option<Value> {
    if name in d.components && (rt.componentsFirst || (name !in d.overlay && name !in d.variables)) then Some(d.components[name])
    else if name in d.overlay then Some(d.overlay[name])
    else if name in d.variables then Some(d.variables[name])
    else None
  }

  /** The shape of the operation an owner runs. */
  function RuntimeShape(d: Document, owner: Owner): Option<Shape> {
    match owner
    case AtStep(i) => if i < |d.steps| && d.steps[i].Some? then ShapeNamed(d, d.steps[i].value.operation) else None
    case Detached(op) => ShapeNamed(d, op)
    case OfWorkflow => None
  }

  function ShapeNamed(d: Document, op: string): Option<Shape> {
    if op in d.shapes then Some(d.shapes[op]) else None
  }

  function ResponseOf(rt: Runtime, owner: Owner): Response {
    match owner
    case AtStep(i) => rt.responses(i)
    case OfWorkflow => Response(map[], None)
    case Detached(op) => rt.detached(op)
  }

  function Follow(v: Option<Value>, path: seq<string>): Option<Value> {
    if v.None? then None else Lookup(v.value, path)
  }

  predicate HasId(d: Document, i: int, id: string) {
    0 <= i < |d.steps| && d.steps[i].Some? && d.steps[i].value.stepId == id
  }

  /** The first executed step with this id. */
  function Executed(d: Document, n: nat, id: string): (r: Option<nat>)
    ensures r.Some? ==> r.value < n && HasId(d, r.value, id)
    ensures r.None? ==> forall i :: 0 <= i < n ==> !HasId(d, i, id)
  {
    if n == 0 then None
    else
      var earlier := Executed(d, n - 1, id);
      if earlier.Some? then earlier else if HasId(d, n - 1, id) then Some(n - 1) else None
  }

  /** What a pointer finds in a value. */
  function Pointed(v: Value, pointer: Pointer): Option<Value> {
    match pointer
    case Whole => Some(v)
    case Tokens(parts) => Lookup(v, parts)
    case Malformed => None
  }

  function Held(values: map<(Place, string), Value>, place: Place, name: string): Option<Value> {
    if (place, name) in values then Some(values[(place, name)]) else None
  }

  /** What a response reference reads. A browser action returns its outputs one by one, and the
      first token of a pointer names one; a function's body is the one it received; every other
      operation has one body. */
  function Read(values: map<(Place, string), Value>, shape: Shape, ref: Reference): Option<Value>
    requires ref.Body? || ref.Header?
  {
    if ref.Header? then Held(values, InHeader, ref.name)
    else if shape.browserAction && ref.pointer.Tokens? && ref.pointer.parts != [] then
      Follow(Held(values, InBody, ref.pointer.parts[0]), ref.pointer.parts[1..])
    else
      var body := Held(values, InBody, if shape.browserAction then "" else if shape.protocol == "fnct" then "received_body" else "body");
      if body.None? then None else Pointed(body.value, ref.pointer)
  }

  /** The value of a text when the outputs of the steps in `done` and the owner's own
      outputs in `own` have been resolved. */
  function Evaluate(d: Document, rt: Runtime, text: string, owner: Owner, done: seq<Outputs>, own: Outputs): Option<Value> {
    var ref := d.parse(text);
    match ref
    case Refused => None
    case Operated => rt.computed(text)
    case OtherReference => rt.computed(text)
    case Variable(name, path) =>
      var v := Follow(RuntimeDeclaration(d, rt, name), path);
      if v.Some? && Dynamic(d.l, v.value) then rt.resolved(v.value) else v
    case StepReference(parts) =>
      if |parts| < 3 then None
      else
        var i := Executed(d, |done|, parts[0]);
        if i.None? || parts[2] !in done[i.value] then None else Lookup(done[i.value][parts[2]], parts[3..])
    case OutputReference(name, path) => if name in own then Lookup(own[name], path) else None
    case StatusCode => ResponseOf(rt, owner).status
    case _ =>
      var shape := RuntimeShape(d, owner);
      if shape.None? then rt.computed(text) else Read(ResponseOf(rt, owner).values, shape.value, ref)
  }

  /** One owner's outputs, resolved in name order; an output without a value is absent. */
  function Resolve(d: Document, rt: Runtime, outputs: seq<Entry>, owner: Owner, done: seq<Outputs>): Outputs {
    if outputs == [] then map[]
    else
      var last := outputs[|outputs| - 1];
      var own := Resolve(d, rt, outputs[..|outputs| - 1], owner, done);
      var v := Evaluate(d, rt, last.text, owner, done, own);
      if v.None? then own else own[last.name := v.value]
  }

  /** The outputs of the first n steps, executed in order. */
  function Execute(d: Document, rt: Runtime, n: nat): (done: seq<Outputs>)
    requires n <= |d.steps|
    ensures |done| == n
  {
    if n == 0 then []
    else
      var done := Execute(d, rt, n - 1);
      done + [if d.steps[n - 1].None? then map[] else Resolve(d, rt, d.steps[n - 1].value.outputs, AtStep(n - 1), done)]
  }

  // ---------- Scopes at run time ----------

  predicate Ordered(outputs: seq<Entry>) {
    forall i, j :: 0 <= i < j < |outputs| ==> Less(outputs[i].name, outputs[j].name)
  }

  predicate WellFormed(d: Document) {
    forall i :: 0 <= i < |d.steps| && d.steps[i].Some? ==> Ordered(d.steps[i].value.outputs)
  }

  /** What the checker needs of schemas: that only references look at the document around
      an object, and that no shape declares an output with one. */
  ghost predicate LocalSchemas(d: Document) {
    && LocalMeaning(d.l)
    && forall op, o :: op in d.shapes && o in d.shapes[op].outputs && o.contract.Known? ==> StandsAlone(o.contract.schema)
  }

  predicate ScopeOk(d: Document, scope: Scope) {
    Ordered(scope.outputs) && (scope.owner.AtStep? ==> scope.owner.index < |d.steps| && d.steps[scope.owner.index].Some?)
  }

  function Horizon(d: Document, owner: Owner): (n: nat)
    requires owner.AtStep? ==> owner.index <= |d.steps|
    ensures n <= |d.steps|
  {
    match owner
    case AtStep(i) => i
    case OfWorkflow => |d.steps|
    case Detached(_) => 0
  }

  /** The owner's outputs named before `name`. */
  function Earlier(outputs: seq<Entry>, name: string): seq<Entry> {
    if outputs == [] || Less(outputs[|outputs| - 1].name, name) then outputs else Earlier(outputs[..|outputs| - 1], name)
  }

  function ValueIn(d: Document, rt: Runtime, text: string, scope: Scope): Option<Value>
    requires ScopeOk(d, scope)
  {
    var done := Execute(d, rt, Horizon(d, scope.owner));
    Evaluate(d, rt, text, scope.owner, done, Resolve(d, rt, Earlier(scope.outputs, scope.outputName), scope.owner, done))
  }

  /** The leaf supplies what its shape declares. */
  predicate Supplies(d: Document, owner: Owner, r: Response) {
    var shape := RuntimeShape(d, owner);
    shape.Some? ==>
      && (forall o :: o in shape.value.outputs && o.contract.Known? && o.contract.schema != NEVER ==>
            (o.place, o.name) in r.values && Meets(d.l, o.contract.schema, r.values[(o.place, o.name)]))
      && (shape.value.protocol == "http" ==> r.status.Some? && HasType("integer", r.status.value))
  }

  ghost predicate Supplied(d: Document, rt: Runtime) {
    && (forall i: nat :: i < |d.steps| ==> Supplies(d, AtStep(i), rt.responses(i)))
    && forall op :: Supplies(d, Detached(op), rt.detached(op))
  }

  // ---------- Order lemmas ----------

  lemma {:induction false} EarlierIsPrefix(outputs: seq<Entry>, k: nat)
    requires Ordered(outputs) && k < |outputs|
    ensures Earlier(outputs, outputs[k].name) == outputs[..k]
    decreases |outputs|
  {
    var last := |outputs| - 1;
    LessTotal(outputs[last].name, outputs[k].name);
    if k < last {
      assert outputs[..last][..k] == outputs[..k];
      EarlierIsPrefix(outputs[..last], k);
    } else if k > 0 {
      var front := outputs[..last];
      assert Earlier(outputs, outputs[k].name) == Earlier(front, outputs[k].name);
      assert front[|front| - 1] == outputs[last - 1];
    }
  }

  /** Resolving in name order gives each output the value of its text over the outputs before it. */
  lemma {:induction false} ResolvedAt(d: Document, rt: Runtime, outputs: seq<Entry>, owner: Owner, done: seq<Outputs>, k: nat)
    requires Ordered(outputs) && k < |outputs|
    ensures var own, v := Resolve(d, rt, outputs, owner, done), Evaluate(d, rt, outputs[k].text, owner, done, Resolve(d, rt, outputs[..k], owner, done));
            (outputs[k].name in own <==> v.Some?) && (v.Some? ==> own[outputs[k].name] == v.value)
    decreases |outputs|
  {
    var last := |outputs| - 1;
    var front := outputs[..last];
    ResolveLast(d, rt, outputs, owner, done, outputs[k].name);
    hide Evaluate, Resolve;
    if k < last {
      assert front[..k] == outputs[..k];
      LessTotal(outputs[k].name, outputs[last].name);
      hide Less;
      ResolvedAt(d, rt, front, owner, done, k);
    } else {
      hide Less;
      OnlyOwnNames(d, rt, front, owner, done, outputs[last].name);
    }
  }

  lemma ResolveLast(d: Document, rt: Runtime, outputs: seq<Entry>, owner: Owner, done: seq<Outputs>, name: string)
    requires outputs != []
    ensures var last, front := outputs[|outputs| - 1], outputs[..|outputs| - 1];
            var own, all_ := Resolve(d, rt, front, owner, done), Resolve(d, rt, outputs, owner, done);
            var v := Evaluate(d, rt, last.text, owner, done, own);
            if name == last.name && v.Some? then name in all_ && all_[name] == v.value
            else (name in all_ <==> name in own) && (name in own ==> all_[name] == own[name])
  {
    hide Evaluate;
  }

  lemma {:induction false} OnlyOwnNames(d: Document, rt: Runtime, outputs: seq<Entry>, owner: Owner, done: seq<Outputs>, name: string)
    requires forall i :: 0 <= i < |outputs| ==> Less(outputs[i].name, name)
    ensures name !in Resolve(d, rt, outputs, owner, done)
    decreases |outputs|
  {
    if outputs != [] {
      LessTotal(outputs[|outputs| - 1].name, name);
      OnlyOwnNames(d, rt, outputs[..|outputs| - 1], owner, done, name);
    }
  }

  lemma {:induction false} ExecutedAt(d: Document, rt: Runtime, n: nat, i: nat)
    requires i < n <= |d.steps| && d.steps[i].Some?
    ensures Execute(d, rt, n)[i] == Resolve(d, rt, d.steps[i].value.outputs, AtStep(i), Execute(d, rt, i))
    decreases n
  {
    if i < n - 1 { ExecutedAt(d, rt, n - 1, i); }
  }

  /** The run-time value of a step's output is the value of its text in the scope the
      checker resolves it in. */
  lemma StepOutputValue(d: Document, rt: Runtime, n: nat, i: nat, k: nat)
    requires WellFormed(d) && i < n <= |d.steps| && d.steps[i].Some? && k < |d.steps[i].value.outputs|
    ensures var step := d.steps[i].value;
            var v := ValueIn(d, rt, step.outputs[k].text, Scope(AtStep(i), step.outputs, step.outputs[k].name));
            var own := Execute(d, rt, n)[i];
            (step.outputs[k].name in own <==> v.Some?) && (v.Some? ==> own[step.outputs[k].name] == v.value)
  {
    var outputs := d.steps[i].value.outputs;
    ExecutedAt(d, rt, n, i);
    EarlierIsPrefix(outputs, k);
    ResolvedAt(d, rt, outputs, AtStep(i), Execute(d, rt, i), k);
  }

  /** The same for an output of the scope's own owner. */
  lemma OwnOutputValue(d: Document, rt: Runtime, scope: Scope, k: nat)
    requires ScopeOk(d, scope) && k < |scope.outputs| && Less(scope.outputs[k].name, scope.outputName)
    ensures var v := ValueIn(d, rt, scope.outputs[k].text, scope.(outputName := scope.outputs[k].name));
            var own := Resolve(d, rt, Earlier(scope.outputs, scope.outputName), scope.owner, Execute(d, rt, Horizon(d, scope.owner)));
            (scope.outputs[k].name in own <==> v.Some?) && (v.Some? ==> own[scope.outputs[k].name] == v.value)
  {
    var early := Earlier(scope.outputs, scope.outputName);
    EarlierContains(scope.outputs, scope.outputName, k);
    EarlierIsPrefix(scope.outputs, k);
    assert early[..k] == scope.outputs[..k];
    ResolvedAt(d, rt, early, scope.owner, Execute(d, rt, Horizon(d, scope.owner)), k);
  }

  lemma {:induction false} EarlierContains(outputs: seq<Entry>, name: string, k: nat)
    requires Ordered(outputs) && k < |outputs| && Less(outputs[k].name, name)
    ensures k < |Earlier(outputs, name)| && Earlier(outputs, name) <= outputs
    decreases |outputs|
  {
    if !Less(outputs[|outputs| - 1].name, name) {
      EarlierContains(outputs[..|outputs| - 1], name, k);
    }
  }

  // ---------- Soundness ----------

  lemma BelowSound(d: Document, owner: Owner, c: Contract, parts: seq<string>, v: Option<Value>)
    requires LocalMeaning(d.l) && c.Known? && StandsAlone(c.schema)
    requires Promises(d.l, c.schema, v) && Below(d, owner, c, parts).status.Compatible?
    ensures var a := Below(d, owner, c, parts);
            a.contract.Known? && StandsAlone(a.contract.schema) && Promises(d.l, a.contract.schema, Follow(v, parts))
  {
    ProjectionStandsAlone(d.l, c.schema, parts);
    if v.Some? { ProjectionSound(d.l, c.schema, parts, v.value); }
  }

  lemma VariableSound(d: Document, rt: Runtime, name: string, path: seq<string>)
    requires OnVariable(d, name, path).status.Compatible?
    ensures var a, v := OnVariable(d, name, path), Follow(RuntimeDeclaration(d, rt, name), path);
            a.contract.Known? && StandsAlone(a.contract.schema) && v.Some? && !Dynamic(d.l, v.value) && Promises(d.l, a.contract.schema, v)
  {
    var v := Lookup(Declaration(d, name).value, path).value;
    ConstantSatisfied(d.l, v, v);
    ConstantStandsAlone(v);
  }

  lemma ResponseSound(d: Document, owner: Owner, ref: Reference, r: Response)
    requires LocalSchemas(d) && (ref.Body? || ref.Header?) && Supplies(d, owner, r) && OnResponse(d, owner, ref).status.Compatible?
    ensures var a := OnResponse(d, owner, ref);
            && RuntimeShape(d, owner).Some? && a.contract.Known? && a.contract.schema != NEVER && StandsAlone(a.contract.schema)
            && Promises(d.l, a.contract.schema, Read(r.values, RuntimeShape(d, owner).value, ref))
  {
    assert RuntimeShape(d, owner) == ShapeOf(d, owner);
    var shape := ShapeOf(d, owner).value;
    var (place, name, pointer) := Selected(Some(shape), ref);
    var declared := FindDeclared(shape.outputs, place, name).value;
    if declared.contract.Known? && declared.contract.schema != NEVER && pointer.Tokens? {
      BelowSound(d, owner, declared.contract, pointer.parts, Some(r.values[(place, name)]));
    }
  }

  /** The scope in which the checker resolves the k-th output of a step. */
  function StepScope(d: Document, index: nat, k: nat): Scope
    requires index < |d.steps| && d.steps[index].Some? && k < |d.steps[index].value.outputs|
  {
    Scope(AtStep(index), d.steps[index].value.outputs, d.steps[index].value.outputs[k].name)
  }

  /** At run time a step reference follows its path into the referenced output. */
  lemma StepReferenceValue(d: Document, rt: Runtime, text: string, scope: Scope, parts: seq<string>, index: nat, k: nat)
    requires WellFormed(d) && ScopeOk(d, scope) && !scope.owner.Detached? && d.parse(text) == StepReference(parts)
    requires FindTarget(d, scope.owner, parts) == Target.Step(index) && k < |d.steps[index].value.outputs|
    requires d.steps[index].value.outputs[k].name == parts[2]
    ensures ValueIn(d, rt, text, scope)
            == Follow(ValueIn(d, rt, d.steps[index].value.outputs[k].text, StepScope(d, index, k)), parts[3..])
  {
    var n := Horizon(d, scope.owner);
    assert Names(d, index, parts[0]) && forall i :: HasId(d, i, parts[0]) <==> Names(d, i, parts[0]);
    assert Executed(d, n, parts[0]) == Some(index);
    StepOutputValue(d, rt, n, index, k);
  }

  lemma OutputReferenceValue(d: Document, rt: Runtime, text: string, scope: Scope, name: string, path: seq<string>, k: nat)
    requires ScopeOk(d, scope) && d.parse(text) == OutputReference(name, path) && k < |scope.outputs|
    requires scope.outputs[k].name == name && Less(name, scope.outputName)
    ensures ValueIn(d, rt, text, scope)
            == Follow(ValueIn(d, rt, scope.outputs[k].text, scope.(outputName := name)), path)
  {
    OwnOutputValue(d, rt, scope, k);
  }

  /** What the checker does with a step reference it accepts. */
  lemma StepReferenceChecked(d: Document, text: string, scope: Scope, active: set<string>, depth: nat) returns (index: nat, k: nat)
    requires d.parse(text).StepReference? && Check(d, text, scope, active, depth).status.Compatible?
    ensures depth <= MAX_DEPTH && !scope.owner.Detached?
    ensures var parts := d.parse(text).parts;
            && FindTarget(d, scope.owner, parts) == Target.Step(index) && k < |d.steps[index].value.outputs|
            && d.steps[index].value.outputs[k].name == parts[2]
            && var inner := Check(d, d.steps[index].value.outputs[k].text, StepScope(d, index, k),
                                  active + {StepKey(d.steps[index].value.stepId, parts[2])}, depth + 2);
            inner.status.Compatible? && Check(d, text, scope, active, depth) == Below(d, AtStep(index), inner.contract, parts[3..])
  {
    var parts := d.parse(text).parts;
    index := FindTarget(d, scope.owner, parts).index;
    k := FindEntry(d.steps[index].value.outputs, parts[2]).value;
  }

  lemma SuppliedAt(d: Document, rt: Runtime, scope: Scope)
    requires Supplied(d, rt) && ScopeOk(d, scope)
    ensures Supplies(d, scope.owner, ResponseOf(rt, scope.owner))
  {
  }

  lemma StatusSound(d: Document, owner: Owner, r: Response)
    requires Supplies(d, owner, r) && OnStatusCode(d, owner).status.Compatible?
    ensures var a := OnStatusCode(d, owner); a.contract.Known? && StandsAlone(a.contract.schema) && Promises(d.l, a.contract.schema, r.status)
  {
  }

  lemma LeafSound(d: Document, rt: Runtime, text: string, scope: Scope, active: set<string>, depth: nat)
    requires LocalSchemas(d) && Supplied(d, rt) && ScopeOk(d, scope) && Check(d, text, scope, active, depth).status.Compatible?
    requires !d.parse(text).StepReference? && !d.parse(text).OutputReference?
    ensures var c := Check(d, text, scope, active, depth).contract;
            c.Known? && StandsAlone(c.schema) && Promises(d.l, c.schema, ValueIn(d, rt, text, scope))
  {
    hide Meets, StandsAlone, LocalSchemas, Execute, Resolve, OnVariable, OnResponse, OnStatusCode, Supplies;
    SuppliedAt(d, rt, scope);
    if d.parse(text).Variable? {
      VariableSound(d, rt, d.parse(text).name, d.parse(text).path);
    } else if d.parse(text).StatusCode? {
      StatusSound(d, scope.owner, ResponseOf(rt, scope.owner));
    } else if d.parse(text).Body? || d.parse(text).Header? {
      ResponseSound(d, scope.owner, d.parse(text), ResponseOf(rt, scope.owner));
    }
  }

  /** Type soundness. Whatever text the checker answers compatible, the schema it gives
      keeps its promise: `false` that the runtime gives the text no value, any other
      schema that it gives one and that the value satisfies the schema; for either
      precedence of components over the document's variables. */
  lemma {:induction false} CheckSound(d: Document, rt: Runtime, text: string, scope: Scope, active: set<string>, depth: nat)
    requires WellFormed(d) && LocalSchemas(d) && Supplied(d, rt) && ScopeOk(d, scope) && Check(d, text, scope, active, depth).status.Compatible?
    ensures var c := Check(d, text, scope, active, depth).contract;
            c.Known? && StandsAlone(c.schema) && Promises(d.l, c.schema, ValueIn(d, rt, text, scope))
    decreases MAX_DEPTH + 2 - depth
  {
    if d.parse(text).StepReference? {
      var parts := d.parse(text).parts;
      var index, k := StepReferenceChecked(d, text, scope, active, depth);
      var step, inner := d.steps[index].value, StepScope(d, index, k);
      var grown := active + {StepKey(step.stepId, parts[2])};
      CheckSound(d, rt, step.outputs[k].text, inner, grown, depth + 2);
      StepReferenceValue(d, rt, text, scope, parts, index, k);
      BelowSound(d, AtStep(index), Check(d, step.outputs[k].text, inner, grown, depth + 2).contract, parts[3..],
                 ValueIn(d, rt, step.outputs[k].text, inner));
    } else if d.parse(text).OutputReference? {
      var name, path := d.parse(text).name, d.parse(text).path;
      var k := FindEntry(scope.outputs, name).value;
      var inner := scope.(outputName := name);
      CheckSound(d, rt, scope.outputs[k].text, inner, active, depth + 1);
      OutputReferenceValue(d, rt, text, scope, name, path, k);
      BelowSound(d, scope.owner, Check(d, scope.outputs[k].text, inner, active, depth + 1).contract, path,
                 ValueIn(d, rt, scope.outputs[k].text, inner));
    } else {
      LeafSound(d, rt, text, scope, active, depth);
    }
  }

  // ---------- Checked outputs are delivered ----------

  function Answered(d: Document, outputs: seq<Entry>, owner: Owner, k: nat): Answer
    requires k < |outputs|
  {
    Check(d, outputs[k].text, Scope(owner, outputs, outputs[k].name), {}, 0)
  }

  function Statuses(d: Document, outputs: seq<Entry>, owner: Owner): (r: seq<Status>)
    ensures |r| == |outputs|
  {
    seq(|outputs|, k requires 0 <= k < |outputs| => Answered(d, outputs, owner, k).status)
  }

  /** One finding per output, in name order, whose text is not compatible. */
  function Findings(outputs: seq<Entry>, statuses: seq<Status>): seq<(string, Status)>
    requires |outputs| == |statuses|
  {
    if outputs == [] then []
    else
      var last := |outputs| - 1;
      Findings(outputs[..last], statuses[..last]) + if statuses[last].Compatible? then [] else [(outputs[last].name, statuses[last])]
  }

  /** checkOutputs. */
  method CheckOutputs(d: Document, outputs: seq<Entry>, owner: Owner) returns (findings: seq<(string, Status)>)
    ensures findings == Findings(outputs, Statuses(d, outputs, owner))
  {
    ghost var statuses := Statuses(d, outputs, owner);
    findings := [];
    for n := 0 to |outputs|
      invariant findings == Findings(outputs[..n], statuses[..n])
    {
      assert outputs[..n + 1][..n] == outputs[..n] && statuses[..n + 1][..n] == statuses[..n];
      var status := Answered(d, outputs, owner, n).status;
      if !status.Compatible? { findings := findings + [(outputs[n].name, status)]; }
    }
    assert outputs[..|outputs|] == outputs && statuses[..|outputs|] == statuses;
  }

  lemma {:induction false} NoFindings(outputs: seq<Entry>, statuses: seq<Status>, k: nat)
    requires |outputs| == |statuses| && k < |outputs| && Findings(outputs, statuses) == []
    ensures statuses[k].Compatible?
  {
    var last := |outputs| - 1;
    if k < last { NoFindings(outputs[..last], statuses[..last], k); }
  }

  /** When the checker has no finding about a step's outputs, executing the workflow
      resolves each of them to a value of its proved schema (or, for `false`, to none). */
  lemma CheckedStepDelivers(d: Document, rt: Runtime, i: nat, k: nat)
    requires WellFormed(d) && LocalSchemas(d) && Supplied(d, rt) && i < |d.steps| && d.steps[i].Some? && k < |d.steps[i].value.outputs|
    requires var outputs := d.steps[i].value.outputs; Findings(outputs, Statuses(d, outputs, AtStep(i))) == []
    ensures var outputs, own := d.steps[i].value.outputs, Execute(d, rt, |d.steps|)[i];
            var c := Answered(d, outputs, AtStep(i), k).contract;
            c.Known? && Promises(d.l, c.schema, if outputs[k].name in own then Some(own[outputs[k].name]) else None)
  {
    var outputs := d.steps[i].value.outputs;
    NoFindings(outputs, Statuses(d, outputs, AtStep(i)), k);
    CheckSound(d, rt, outputs[k].text, StepScope(d, i, k), {}, 0);
    StepOutputValue(d, rt, |d.steps|, i, k);
  }
}
