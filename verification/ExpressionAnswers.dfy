/** Which of the three answers the checker gives to each reference, written out
    (packagev3/expression_contracts.go). */
module ExpressionAnswers {
  import opened Common
  import opened JsonSchema
  import opened ExpressionContracts
  import opened ExpressionTermination

  // ---------- Variables ----------

  /** Reviewed data before the document's own declaration before a component. */
  predicate DeclaredAs(d: Document, name: string, v: Value) {
    || (name in d.overlay && d.overlay[name] == v)
    || (name !in d.overlay && name in d.variables && d.variables[name] == v)
    || (name !in d.overlay && name !in d.variables && name in d.components && d.components[name] == v)
  }

  /** A component and the document, or its data, declare the name. */
  predicate Ambiguous(d: Document, name: string) {
    name in d.components && (name in d.overlay || name in d.variables)
  }

  /** Compatible with exactly the value at the path of the one declaration, where that is
      fixed and small; incompatible where nothing is declared or nothing lies there. */
  lemma VariableAnswers(d: Document, name: string, path: seq<string>)
    ensures var a := OnVariable(d, name, path);
            && (a.status == Compatible <==>
                  && !Ambiguous(d, name)
                  && exists v, found :: DeclaredAs(d, name, v) && Lookup(v, path) == Some(found) && !Dynamic(d.l, found) && d.l.fits(Obj(map["const" := found])))
            && (a.status == Compatible ==> forall v, found :: DeclaredAs(d, name, v) && Lookup(v, path) == Some(found) ==>
                  a.contract == Known(Obj(map["const" := found])))
            && (a.status == Incompatible <==> !Ambiguous(d, name) && forall v :: DeclaredAs(d, name, v) ==> Lookup(v, path).None?)
            && (a.status != Compatible ==> a.contract == Unproved)
  {
    hide Lookup, Dynamic;
    var declared := Declaration(d, name);
    assert forall v :: DeclaredAs(d, name, v) <==> declared == Some(v);
    if declared.Some? && Lookup(declared.value, path).Some? {
      assert DeclaredAs(d, name, declared.value) && Lookup(declared.value, path) == Some(Lookup(declared.value, path).value);
    }
  }

  // ---------- Steps ----------

  predicate IsStep(d: Document, i: int, id: string) {
    0 <= i < |d.steps| && d.steps[i].Some? && d.steps[i].value.stepId == id
  }

  /** Exactly one step has the id. */
  ghost predicate OnlyStep(d: Document, i: int, id: string) {
    IsStep(d, i, id) && forall k :: IsStep(d, k, id) ==> k == i
  }

  /** A step reference resolves to the only step of its id, in a sequence, flat, and for an
      owning step an earlier one. */
  lemma TargetIs(d: Document, owner: Owner, parts: seq<string>, i: nat)
    ensures FindTarget(d, owner, parts) == Target.Step(i) <==>
            && |parts| >= 3 && !owner.Detached? && OnlyStep(d, i, parts[0])
            && d.sequential && d.steps[i].value.flat && (owner.AtStep? ==> i < owner.index)
  {
    hide FindStep;
    if |parts| >= 3 { FindStepIs(d, parts[0], i); }
  }

  lemma FindStepIs(d: Document, id: string, i: nat)
    ensures FindStep(d, id) == Some(i) <==> OnlyStep(d, i, id)
  {
    var found := FindStep(d, id);
    hide FindStep;
    assert forall k :: Names(d, k, id) <==> IsStep(d, k, id);
  }

  /** It is unproved for an operation on its own and for a step that may not run in order, and
      incompatible for everything else that does not resolve. */
  lemma UnresolvedIs(d: Document, owner: Owner, parts: seq<string>)
    ensures FindTarget(d, owner, parts) == Target.Settled(Answer(Unproved, Indeterminate)) <==>
            |parts| >= 3 && (owner.Detached? || exists i :: OnlyStep(d, i, parts[0]) && !(d.sequential && d.steps[i].value.flat))
    ensures FindTarget(d, owner, parts) == Target.Settled(Answer(Unproved, Incompatible)) <==>
            || |parts| < 3
            || (!owner.Detached? &&
                 (|| (forall i :: !OnlyStep(d, i, parts[0]))
                  || exists i :: OnlyStep(d, i, parts[0]) && d.sequential && d.steps[i].value.flat && owner.AtStep? && owner.index <= i))
  {
    hide FindStep;
    if |parts| >= 3 {
      forall i: nat ensures FindStep(d, parts[0]) == Some(i) <==> OnlyStep(d, i, parts[0]) {
        FindStepIs(d, parts[0], i);
      }
      var found := FindStep(d, parts[0]);
      if found.Some? { assert OnlyStep(d, found.value, parts[0]); }
      hide OnlyStep;
    }
  }

  /** An earlier step's output is answered as its text is in that step; below it, a path. */
  lemma StepAnswers(d: Document, text: string, scope: Scope, parts: seq<string>, i: nat, k: nat)
    requires d.parse(text) == StepReference(parts) && |parts| >= 3 && !scope.owner.Detached? && OnlyStep(d, i, parts[0])
    requires d.sequential && d.steps[i].value.flat && (scope.owner.AtStep? ==> i < scope.owner.index)
    requires var outputs := d.steps[i].value.outputs;
             k < |outputs| && outputs[k].name == parts[2] && forall n :: 0 <= n < |outputs| && n != k ==> outputs[n].name != parts[2]
    ensures var outputs := d.steps[i].value.outputs;
            var a := Unbounded(d, outputs[k].text, Scope(AtStep(i), outputs, parts[2]));
            Unbounded(d, text, scope) == if a.status == Compatible then Below(d, AtStep(i), a.contract, parts[3..]) else a
  {
    TargetIs(d, scope.owner, parts, i);
    assert FindEntry(d.steps[i].value.outputs, parts[2]) == Some(k);
    hide Below, FindTarget, FindEntry;
  }

  /** An output that the step does not have is missing. */
  lemma MissingOutput(d: Document, text: string, scope: Scope, parts: seq<string>, i: nat)
    requires d.parse(text) == StepReference(parts) && |parts| >= 3 && !scope.owner.Detached? && OnlyStep(d, i, parts[0])
    requires d.sequential && d.steps[i].value.flat && (scope.owner.AtStep? ==> i < scope.owner.index)
    requires forall n :: 0 <= n < |d.steps[i].value.outputs| ==> d.steps[i].value.outputs[n].name != parts[2]
    ensures Unbounded(d, text, scope) == Answer(Unproved, Incompatible)
  {
    TargetIs(d, scope.owner, parts, i);
    assert FindEntry(d.steps[i].value.outputs, parts[2]).None?;
    hide Below, FindTarget, FindEntry;
  }

  /** The same for an owner's own outputs: only those whose names come before. */
  lemma OutputAnswers(d: Document, text: string, scope: Scope, name: string, path: seq<string>, k: nat)
    requires d.parse(text) == OutputReference(name, path)
    requires k < |scope.outputs| && scope.outputs[k].name == name && forall n :: 0 <= n < |scope.outputs| && n != k ==> scope.outputs[n].name != name
    ensures scope.outputName == "" || !Less(name, scope.outputName) ==> Unbounded(d, text, scope) == Answer(Unproved, Incompatible)
    ensures scope.outputName != "" && Less(name, scope.outputName) ==>
              var a := Unbounded(d, scope.outputs[k].text, scope.(outputName := name));
              Unbounded(d, text, scope) == if a.status == Compatible then Below(d, scope.owner, a.contract, path) else a
  {
    assert FindEntry(scope.outputs, name) == Some(k);
    hide Below, FindEntry, Less;
  }

  // ---------- Paths below ----------

  /** A declaration whose type is one of the five scalar words. */
  predicate Scalar(c: Contract) {
    && c.Known? && c.schema.Obj? && "type" in c.schema.members && c.schema.members["type"].Str?
    && var t := c.schema.members["type"].text;
    t == "string" || t == "boolean" || t == "integer" || t == "number" || t == "null"
  }

  predicate RunsBrowserAction(d: Document, owner: Owner) {
    exists op :: op in d.shapes && d.shapes[op].browserAction && Runs(d, owner, op)
  }

  /** The operation an owner runs. */
  predicate Runs(d: Document, owner: Owner, op: string) {
    || (owner.AtStep? && owner.index < |d.steps| && d.steps[owner.index].Some? && d.steps[owner.index].value.operation == op)
    || (owner.Detached? && owner.operation == op)
  }

  lemma ShapeIs(d: Document, owner: Owner, op: string)
    ensures Runs(d, owner, op) ==> ShapeOf(d, owner) == (if op in d.shapes then Some(d.shapes[op]) else None)
    ensures owner.OfWorkflow? ==> ShapeOf(d, owner).None?
    ensures ShapeOf(d, owner).Some? ==> exists o :: o in d.shapes && Runs(d, owner, o) && ShapeOf(d, owner).value == d.shapes[o]
  {
    if ShapeOf(d, owner).Some? {
      var o := if owner.AtStep? then d.steps[owner.index].value.operation else owner.operation;
      assert o in d.shapes && Runs(d, owner, o);
    }
  }

  /** A path below a scalar of a browser action is missing; every other path is what projection
      proves of it. */
  lemma BelowAnswers(d: Document, owner: Owner, c: Contract, path: seq<string>)
    ensures Below(d, owner, c, path) ==
            if path != [] && RunsBrowserAction(d, owner) && Scalar(c) then Answer(Known(Bool(false)), Incompatible)
            else if c.Unproved? || Project(d.l, c.schema, path).Unproved? then Answer(Unproved, Indeterminate)
            else Answer(Project(d.l, c.schema, path), Compatible)
  {
    var shape := ShapeOf(d, owner);
    forall op ensures Runs(d, owner, op) ==> shape == (if op in d.shapes then Some(d.shapes[op]) else None) {
      ShapeIs(d, owner, op);
    }
    ShapeIs(d, owner, "");
    assert RunsBrowserAction(d, owner) <==> shape.Some? && shape.value.browserAction;
    ScalarIs(c);
    hide Scalar, ScalarDeclaration, RunsBrowserAction, Project, ShapeOf;
  }

  lemma ScalarIs(c: Contract)
    ensures Scalar(c) <==> ScalarDeclaration(c)
  {
  }

  // ---------- Responses ----------

  /** The place and name of the output a response reference reads, and the path left in it; no
      path where the pointer cannot be read. */
  predicate Reads(shape: Shape, ref: Reference, place: Place, name: string, path: Option<seq<string>>)
    requires ref.Body? || ref.Header?
  {
    if ref.Header? then place == InHeader && name == ref.name && path == Some([])
    else
      && place == InBody
      && (if shape.browserAction && ref.pointer.Tokens? && ref.pointer.parts != []
          then name == ref.pointer.parts[0] && path == Some(ref.pointer.parts[1..])
          else
            && name == (if shape.browserAction then "" else if shape.protocol == "fnct" then "received_body" else "body")
            && path == (match ref.pointer case Whole => Some([]) case Tokens(parts) => Some(parts) case Malformed => None))
  }

  /** The first output declared with this place and name. */
  predicate DeclaredFirst(outputs: seq<Declared>, place: Place, name: string, k: int) {
    && 0 <= k < |outputs| && outputs[k].place == place && outputs[k].name == name
    && forall i :: 0 <= i < k ==> outputs[i].place != place || outputs[i].name != name
  }

  lemma {:induction false} FindDeclaredIs(outputs: seq<Declared>, place: Place, name: string)
    ensures var r := FindDeclared(outputs, place, name);
            if r.Some? then exists k :: DeclaredFirst(outputs, place, name, k) && outputs[k] == r.value
            else forall i :: 0 <= i < |outputs| ==> outputs[i].place != place || outputs[i].name != name
  {
    if outputs != [] && !(outputs[0].place == place && outputs[0].name == name) {
      FindDeclaredIs(outputs[1..], place, name);
      var r := FindDeclared(outputs[1..], place, name);
      if r.Some? {
        var k :| DeclaredFirst(outputs[1..], place, name, k) && outputs[1..][k] == r.value;
        assert DeclaredFirst(outputs, place, name, k + 1);
      }
    } else if outputs != [] {
      assert DeclaredFirst(outputs, place, name, 0);
    }
  }

  /** The answer to a declared output: `false` is incompatible, as is an unreadable pointer. */
  function DeclaredAnswer(d: Document, owner: Owner, c: Contract, path: Option<seq<string>>): Answer {
    if path.None? then Answer(Unproved, Incompatible)
    else
      var a := Below(d, owner, c, path.value);
      if a.contract == Known(Bool(false)) then Answer(Known(Bool(false)), Incompatible) else a
  }

  /** A response reference is answered from the first declaration of what it reads; without
      one it is incompatible if the shape is complete and unproved if not. */
  lemma ResponseAnswers(d: Document, owner: Owner, ref: Reference, shape: Shape, place: Place, name: string, path: Option<seq<string>>)
    requires ref.Body? || ref.Header?
    requires ShapeOf(d, owner) == Some(shape) && Reads(shape, ref, place, name, path)
    ensures (exists k :: DeclaredFirst(shape.outputs, place, name, k)) ==>
              exists k :: DeclaredFirst(shape.outputs, place, name, k) && OnResponse(d, owner, ref) == DeclaredAnswer(d, owner, shape.outputs[k].contract, path)
    ensures (forall k :: !DeclaredFirst(shape.outputs, place, name, k)) ==>
              OnResponse(d, owner, ref) == Answer(Unproved, if shape.complete then Incompatible else Indeterminate)
  {
    FindDeclaredIs(shape.outputs, place, name);
    var declared := FindDeclared(shape.outputs, place, name);
    var (p, n, pointer) := Selected(Some(shape), ref);
    if ref.Body? && ref.pointer.Tokens? && |ref.pointer.parts| == 1 { assert ref.pointer.parts[1..] == []; }
    assert p == place && n == name;
    if declared.Some? {
      var k :| DeclaredFirst(shape.outputs, place, name, k) && shape.outputs[k] == declared.value;
      PointerIs(d, owner, declared.value.contract, pointer, path);
      assert OnResponse(d, owner, ref) == DeclaredAnswer(d, owner, shape.outputs[k].contract, path);
    }
  }

  lemma PointerIs(d: Document, owner: Owner, c: Contract, pointer: Pointer, path: Option<seq<string>>)
    requires path == (match pointer case Whole => Some([]) case Tokens(parts) => Some(parts) case Malformed => None)
    ensures OnDeclared(d, owner, c, pointer) == DeclaredAnswer(d, owner, c, path)
  {
    if path == Some([]) { BelowAnswers(d, owner, c, []); }
  }

  /** Without a shape a response is unproved; a status code is an integer of an http operation. */
  lemma PlainAnswers(d: Document, owner: Owner, ref: Reference)
    requires ref.Body? || ref.Header?
    ensures ShapeOf(d, owner).None? ==> OnResponse(d, owner, ref) == Answer(Unproved, Indeterminate)
    ensures OnStatusCode(d, owner) ==
            if ShapeOf(d, owner).Some? && ShapeOf(d, owner).value.protocol == "http"
            then Answer(Known(Obj(map["type" := Str("integer")])), Compatible) else Answer(Unproved, Indeterminate)
  {
  }

  /** Texts that are refused, computed or of another kind. */
  lemma OtherAnswers(d: Document, text: string, scope: Scope)
    ensures d.parse(text).Refused? ==> Unbounded(d, text, scope) == Answer(Unproved, Incompatible)
    ensures d.parse(text).Operated? || d.parse(text).OtherReference? ==> Unbounded(d, text, scope) == Answer(Unproved, Indeterminate)
  {
  }
}
