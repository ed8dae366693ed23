/** Why resolving references ends, and what its limits change: the depth limit replaces
    exactly the answers of chains that are too deep, and the guard against cycles never
    fires, since the step ids of a document that passed the workflow schema have no slash. */
module ExpressionTermination {
  import opened Common
  import opened JsonSchema
  import opened ExpressionContracts

  // ---------- Depth ----------

  lemma LeafIgnoresDepth(d: Document, text: string, scope: Scope, active: set<string>, depth: nat, less: nat)
    requires less <= depth <= MAX_DEPTH && !d.parse(text).StepReference? && !d.parse(text).OutputReference?
    ensures Check(d, text, scope, active, less) == Check(d, text, scope, active, depth)
  {
  }

  /** Starting less deep never changes a compatible or incompatible answer. */
  lemma {:induction false} DepthOnlyHides(d: Document, text: string, scope: Scope, active: set<string>, depth: nat, less: nat)
    requires less <= depth && !Check(d, text, scope, active, depth).status.Indeterminate?
    ensures Check(d, text, scope, active, less) == Check(d, text, scope, active, depth)
    decreases MAX_DEPTH + 2 - depth, 1
  {
    hide CheckOutput, FindTarget, FindEntry, OnVariable, OnResponse, OnStatusCode, OnDeclared, Below, Less;
    if d.parse(text).StepReference? {
      var parts := d.parse(text).parts;
      var target := FindTarget(d, scope.owner, parts);
      if target.Step? && !CheckOutput(d, parts[2], target.index, active, depth + 1).status.Indeterminate? {
        OutputDepth(d, parts[2], target.index, active, depth + 1, less + 1);
      }
    } else if d.parse(text).OutputReference? {
      var name := d.parse(text).name;
      var entry := FindEntry(scope.outputs, name);
      if scope.outputName != "" && Less(name, scope.outputName) && entry.Some? {
        var inner := scope.outputs[entry.value].text;
        if !Check(d, inner, scope.(outputName := name), active, depth + 1).status.Indeterminate? {
          DepthOnlyHides(d, inner, scope.(outputName := name), active, depth + 1, less + 1);
        }
      }
    } else {
      LeafIgnoresDepth(d, text, scope, active, depth, less);
    }
  }

  lemma {:induction false} OutputDepth(d: Document, name: string, index: nat, active: set<string>, depth: nat, less: nat)
    requires less <= depth <= MAX_DEPTH + 1 && index < |d.steps| && d.steps[index].Some?
    requires !CheckOutput(d, name, index, active, depth).status.Indeterminate?
    ensures CheckOutput(d, name, index, active, less) == CheckOutput(d, name, index, active, depth)
    decreases MAX_DEPTH + 2 - depth, 0
  {
    var step := d.steps[index].value;
    var entry := FindEntry(step.outputs, name);
    if entry.Some? && StepKey(step.stepId, name) !in active {
      DepthOnlyHides(d, step.outputs[entry.value].text, Scope(AtStep(index), step.outputs, name), active + {StepKey(step.stepId, name)}, depth + 1, less + 1);
    }
  }

  // ---------- The resolver without limits ----------

  /** The step whose outputs a scope may not reach or pass. */
  function Level(d: Document, owner: Owner): nat {
    if owner.AtStep? then owner.index else |d.steps|
  }

  function EarlierNames(outputs: seq<Entry>, name: string): set<int> {
    set k | 0 <= k < |outputs| && Less(outputs[k].name, name)
  }

  lemma EarlierFewer(outputs: seq<Entry>, name: string, bound: string, k: nat)
    requires k < |outputs| && outputs[k].name == name && Less(name, bound)
    ensures |EarlierNames(outputs, name)| < |EarlierNames(outputs, bound)|
  {
    LessTotal(name, name);
    forall i | i in EarlierNames(outputs, name) ensures i in EarlierNames(outputs, bound) {
      LessTransitive(outputs[i].name, name, bound);
    }
    var a, b := EarlierNames(outputs, name), EarlierNames(outputs, bound);
    assert k in b - a;
    assert a + (b - a) == b && |a + (b - a)| == |a| + |b - a|;
  }

  /** The checker without depth limit and without guard. It ends because every reference
      strictly decreases the pair of step index and output name. */
  function Unbounded(d: Document, text: string, scope: Scope): Answer
    decreases Level(d, scope.owner), |EarlierNames(scope.outputs, scope.outputName)|
  {
    match d.parse(text)
    case Refused => INCOMPATIBLE
    case Operated => INDETERMINATE
    case Variable(name, path) => OnVariable(d, name, path)
    case StepReference(parts) =>
      var target := FindTarget(d, scope.owner, parts);
      if target.Settled? then target.answer
      else
        var outputs := d.steps[target.index].value.outputs;
        var entry := FindEntry(outputs, parts[2]);
        if entry.None? then INCOMPATIBLE
        else
          var a := Unbounded(d, outputs[entry.value].text, Scope(AtStep(target.index), outputs, parts[2]));
          if !a.status.Compatible? then a else Below(d, AtStep(target.index), a.contract, parts[3..])
    case OutputReference(name, path) =>
      if scope.outputName == "" || !Less(name, scope.outputName) then INCOMPATIBLE
      else
        var entry := FindEntry(scope.outputs, name);
        if entry.None? then INCOMPATIBLE
        else
          EarlierFewer(scope.outputs, name, scope.outputName, entry.value);
          var a := Unbounded(d, scope.outputs[entry.value].text, scope.(outputName := name));
          if !a.status.Compatible? then a else Below(d, scope.owner, a.contract, path)
    case StatusCode => OnStatusCode(d, scope.owner)
    case Body(_) => OnResponse(d, scope.owner, d.parse(text))
    case Header(_) => OnResponse(d, scope.owner, d.parse(text))
    case OtherReference => INDETERMINATE
  }

  // ---------- The depth limit alone ----------

  /** The checker with its depth limit and without the guard. */
  function Unguarded(d: Document, text: string, scope: Scope, depth: nat): Answer
    decreases MAX_DEPTH + 2 - depth
  {
    if depth > MAX_DEPTH then INDETERMINATE
    else match d.parse(text)
      case Refused => INCOMPATIBLE
      case Operated => INDETERMINATE
      case Variable(name, path) => OnVariable(d, name, path)
      case StepReference(parts) =>
        var target := FindTarget(d, scope.owner, parts);
        if target.Settled? then target.answer
        else
          var outputs := d.steps[target.index].value.outputs;
          var entry := FindEntry(outputs, parts[2]);
          if entry.None? then INCOMPATIBLE
          else
            var a := Unguarded(d, outputs[entry.value].text, Scope(AtStep(target.index), outputs, parts[2]), depth + 2);
            if !a.status.Compatible? then a else Below(d, AtStep(target.index), a.contract, parts[3..])
      case OutputReference(name, path) =>
        if scope.outputName == "" || !Less(name, scope.outputName) then INCOMPATIBLE
        else
          var entry := FindEntry(scope.outputs, name);
          if entry.None? then INCOMPATIBLE
          else
            var a := Unguarded(d, scope.outputs[entry.value].text, scope.(outputName := name), depth + 1);
            if !a.status.Compatible? then a else Below(d, scope.owner, a.contract, path)
      case StatusCode => OnStatusCode(d, scope.owner)
      case Body(_) => OnResponse(d, scope.owner, d.parse(text))
      case Header(_) => OnResponse(d, scope.owner, d.parse(text))
      case OtherReference => INDETERMINATE
  }

  /** How deep the chain of references behind a text is: two for each step reference, one
      for each reference to an output of the same owner. */
  function Need(d: Document, text: string, scope: Scope): nat
    decreases Level(d, scope.owner), |EarlierNames(scope.outputs, scope.outputName)|
  {
    match d.parse(text)
    case StepReference(parts) =>
      var target := FindTarget(d, scope.owner, parts);
      if target.Settled? then 0
      else
        var outputs := d.steps[target.index].value.outputs;
        var entry := FindEntry(outputs, parts[2]);
        if entry.None? then 0 else Need(d, outputs[entry.value].text, Scope(AtStep(target.index), outputs, parts[2])) + 2
    case OutputReference(name, _) =>
      if scope.outputName == "" || !Less(name, scope.outputName) then 0
      else
        var entry := FindEntry(scope.outputs, name);
        if entry.None? then 0
        else
          EarlierFewer(scope.outputs, name, scope.outputName, entry.value);
          Need(d, scope.outputs[entry.value].text, scope.(outputName := name)) + 1
    case _ => 0
  }

  /** The depth limit replaces the unlimited answer exactly where the chain is too deep for it. */
  lemma {:induction false} DepthDecides(d: Document, text: string, scope: Scope, depth: nat)
    ensures Unguarded(d, text, scope, depth) == if depth + Need(d, text, scope) <= MAX_DEPTH then Unbounded(d, text, scope) else INDETERMINATE
    decreases MAX_DEPTH + 2 - depth
  {
    hide OnVariable, OnResponse, OnStatusCode, Below, Less, FindTarget, FindEntry;
    if depth > MAX_DEPTH {
    } else if d.parse(text).StepReference? {
      var parts := d.parse(text).parts;
      var target := FindTarget(d, scope.owner, parts);
      if target.Step? {
        var outputs := d.steps[target.index].value.outputs;
        var entry := FindEntry(outputs, parts[2]);
        if entry.Some? { DepthDecides(d, outputs[entry.value].text, Scope(AtStep(target.index), outputs, parts[2]), depth + 2); }
      }
    } else if d.parse(text).OutputReference? {
      var name := d.parse(text).name;
      var entry := FindEntry(scope.outputs, name);
      if scope.outputName != "" && Less(name, scope.outputName) && entry.Some? {
        DepthDecides(d, scope.outputs[entry.value].text, scope.(outputName := name), depth + 1);
      }
    }
  }

  // ---------- The guard ----------

  /** The pattern every version of the workflow schema gives a step id: ^[A-Za-z0-9_-]+$. */
  predicate SchemaId(s: string) {
    s != "" && forall i :: 0 <= i < |s| ==> Alphanumeric(s[i]) || s[i] in "_-"
  }

  /** The document's step ids passed the schema, as those of every document do that the
      checker is built for. */
  predicate SchemaIds(d: Document) {
    forall i :: 0 <= i < |d.steps| && d.steps[i].Some? ==> SchemaId(d.steps[i].value.stepId)
  }

  /** A step some reference can resolve to. */
  predicate Referable(d: Document, i: int) {
    && 0 <= i < |d.steps| && d.sequential && d.steps[i].Some? && d.steps[i].value.flat
    && FindStep(d, d.steps[i].value.stepId) == Some(i)
  }

  predicate KeyOf(d: Document, i: int, name: string, key: string) {
    Referable(d, i) && key == StepKey(d.steps[i].value.stepId, name)
  }

  /** A key joined with slashes still tells its step, since ids have no slash. */
  lemma KeyNamesStep(id: string, a: string, other: string, b: string)
    requires SchemaId(id) && SchemaId(other) && StepKey(id, a) == StepKey(other, b)
    ensures id == other && a == b
  {
    var rest := StepKey(id, a)[5..];
    assert rest == id + "/" + a && rest == other + "/" + b;
    assert rest[|id|] == '/' && rest[|other|] == '/';
    SlashEnds(id, rest, |other|);
    SlashEnds(other, rest, |id|);
    assert rest[..|id|] == id && rest[..|other|] == other;
    assert rest[|id| + 1..] == a && rest[|other| + 1..] == b;
  }

  lemma SlashEnds(id: string, s: string, k: nat)
    requires SchemaId(id) && id <= s && k < |s| && s[k] == '/'
    ensures |id| <= k
  {
    assert forall i {:trigger s[i]} :: 0 <= i < |id| ==> s[i] == id[i];
  }

  /** No two steps share the guard key of an output. */
  lemma KeysApart(d: Document, i: int, j: int, a: string, b: string, key: string)
    requires SchemaIds(d) && KeyOf(d, i, a, key) && KeyOf(d, j, b, key)
    ensures i == j && a == b
  {
    KeyNamesStep(d.steps[i].value.stepId, a, d.steps[j].value.stepId, b);
  }

  /** Every key in use belongs to an output of a step at or after this one. */
  ghost predicate HeldAbove(d: Document, active: set<string>, level: int) {
    forall key :: key in active ==> exists j, b :: level <= j && KeyOf(d, j, b, key)
  }

  /** The key of an earlier step's output is not in use. */
  lemma GuardIdle(d: Document, active: set<string>, level: int, index: nat, name: string)
    requires SchemaIds(d) && HeldAbove(d, active, level) && index < level && Referable(d, index)
    ensures var key := StepKey(d.steps[index].value.stepId, name); key !in active && HeldAbove(d, active + {key}, index)
  {
    hide StepKey, SchemaIds, FindStep;
    var key := StepKey(d.steps[index].value.stepId, name);
    assert KeyOf(d, index, name, key);
    if key in active {
      var j, b :| level <= j && KeyOf(d, j, b, key);
      KeysApart(d, index, j, name, b, key);
    }
    forall k | k in active + {key} ensures exists j, b :: index <= j && KeyOf(d, j, b, k) {
      if k in active {
        var j, b :| level <= j && KeyOf(d, j, b, k);
        assert index <= j;
      }
    }
  }

  lemma TargetReferable(d: Document, owner: Owner, parts: seq<string>)
    requires FindTarget(d, owner, parts).Step?
    ensures Referable(d, FindTarget(d, owner, parts).index) && FindTarget(d, owner, parts).index < Level(d, owner)
  {
  }

  /** Wherever the checker gets, the guard does not fire: it answers as it would without. */
  lemma {:induction false} GuardNeverFires(d: Document, text: string, scope: Scope, active: set<string>, depth: nat)
    requires SchemaIds(d) && HeldAbove(d, active, Level(d, scope.owner))
    ensures Check(d, text, scope, active, depth) == Unguarded(d, text, scope, depth)
    decreases MAX_DEPTH + 2 - depth
  {
    hide OnVariable, OnResponse, OnStatusCode, Below, Less, FindTarget, FindEntry, SchemaIds, HeldAbove, Referable;
    if depth > MAX_DEPTH {
    } else if d.parse(text).StepReference? {
      var parts := d.parse(text).parts;
      var target := FindTarget(d, scope.owner, parts);
      if target.Step? {
        TargetReferable(d, scope.owner, parts);
        var step := d.steps[target.index].value;
        var entry := FindEntry(step.outputs, parts[2]);
        if entry.Some? {
          GuardIdle(d, active, Level(d, scope.owner), target.index, parts[2]);
          var inner, key := Scope(AtStep(target.index), step.outputs, parts[2]), StepKey(step.stepId, parts[2]);
          GuardNeverFires(d, step.outputs[entry.value].text, inner, active + {key}, depth + 2);
        }
      }
    } else if d.parse(text).OutputReference? {
      var name := d.parse(text).name;
      var entry := FindEntry(scope.outputs, name);
      if scope.outputName != "" && Less(name, scope.outputName) && entry.Some? {
        GuardNeverFires(d, scope.outputs[entry.value].text, scope.(outputName := name), active, depth + 1);
      }
    }
  }

  /** From a checker's own start, with no key in use, the answer is that of the resolver
      without limits, unless the chain of references is deeper than the limit; then it is
      indeterminate. */
  lemma CheckIsUnbounded(d: Document, text: string, scope: Scope)
    requires SchemaIds(d)
    ensures Check(d, text, scope, {}, 0) == if Need(d, text, scope) <= MAX_DEPTH then Unbounded(d, text, scope) else INDETERMINATE
  {
    GuardNeverFires(d, text, scope, {}, 0);
    DepthDecides(d, text, scope, 0);
  }

  /** So limits only turn answers into unproved ones, also in the middle of a resolution. */
  lemma LimitsOnlyHide(d: Document, text: string, scope: Scope, active: set<string>, depth: nat)
    requires SchemaIds(d) && HeldAbove(d, active, Level(d, scope.owner))
    requires !Check(d, text, scope, active, depth).status.Indeterminate?
    ensures Check(d, text, scope, active, depth) == Unbounded(d, text, scope)
  {
    GuardNeverFires(d, text, scope, active, depth);
    DepthDecides(d, text, scope, depth);
  }

  // ---------- Chains that are too deep ----------

  /** The text of an output. */
  function TextOf(d: Document, k: nat, name: string): string
    requires k < |d.steps| && d.steps[k].Some? && FindEntry(d.steps[k].value.outputs, name).Some?
  {
    var outputs := d.steps[k].value.outputs;
    outputs[FindEntry(outputs, name).value].text
  }

  function OutputScope(d: Document, k: nat, name: string): Scope
    requires k < |d.steps| && d.steps[k].Some?
  {
    Scope(AtStep(k), d.steps[k].value.outputs, name)
  }

  /** A text that refers to an output of step k. */
  predicate RefersTo(d: Document, text: string, k: nat, name: string) {
    && k < |d.steps| && Referable(d, k) && FindEntry(d.steps[k].value.outputs, name).Some?
    && d.parse(text).StepReference? && var parts := d.parse(text).parts; |parts| >= 3 && parts[0] == d.steps[k].value.stepId && parts[2] == name
  }

  /** Output `name` of step 0 refers to nothing, and that of every step up to n to that of
      the step before. */
  predicate Relays(d: Document, name: string, n: nat) {
    && n < |d.steps| && (forall k: nat :: k <= n ==> Referable(d, k) && FindEntry(d.steps[k].value.outputs, name).Some?)
    && Need(d, TextOf(d, 0, name), OutputScope(d, 0, name)) == 0
    && forall k: nat :: 0 < k <= n ==> RefersTo(d, TextOf(d, k, name), k - 1, name)
  }

  lemma ReferenceNeed(d: Document, text: string, k: nat, name: string, scope: Scope)
    requires RefersTo(d, text, k, name) && !scope.owner.Detached? && (scope.owner.AtStep? ==> k < scope.owner.index)
    ensures Need(d, text, scope) == Need(d, TextOf(d, k, name), OutputScope(d, k, name)) + 2
  {
    assert FindTarget(d, scope.owner, d.parse(text).parts) == Target.Step(k);
  }

  /** A reference to step k of a relay needs depth 2 (k + 1) … */
  lemma {:induction false} RelayNeed(d: Document, name: string, n: nat, k: nat, text: string, scope: Scope)
    requires Relays(d, name, n) && k <= n && RefersTo(d, text, k, name)
    requires !scope.owner.Detached? && (scope.owner.AtStep? ==> k < scope.owner.index)
    ensures Need(d, text, scope) == 2 * (k + 1)
    decreases k
  {
    hide Need, RefersTo, FindEntry, FindStep;
    ReferenceNeed(d, text, k, name, scope);
    if k > 0 { RelayNeed(d, name, n, k - 1, TextOf(d, k, name), OutputScope(d, k, name)); }
  }

  /** … so a workflow's reference to the thirty-third step of one, or a later step, is
      unproved whatever it resolves to. */
  lemma LongRelayIsUnproved(d: Document, name: string, n: nat, k: nat, text: string, scope: Scope)
    requires SchemaIds(d) && Relays(d, name, n) && k <= n && RefersTo(d, text, k, name) && scope.owner.OfWorkflow?
    ensures Check(d, text, scope, {}, 0) == if k < 32 then Unbounded(d, text, scope) else INDETERMINATE
  {
    CheckIsUnbounded(d, text, scope);
    RelayNeed(d, name, n, k, text, scope);
  }
}
