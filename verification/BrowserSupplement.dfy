/** Deriving the browser supplement of a package and checking one that was shipped
    (packagev3/browser.go). The binding resolver, the shape table and the decoded
    extensions of an operation are parameters. */
module BrowserSupplement {
  import opened Common
  import opened BrowserContract
  import opened Digests
  import opened SessionBinding

  datatype SourceKind = BrowserProfile | RuntimeSource | ApiSource

  datatype Source = Source(id: string, kind: SourceKind, path: string, sha: string)

  datatype Permission = Permission(reuse: bool, save: bool)

  const NO_PERMISSION := Permission(false, false)

  /** What the resolver is asked, and the browser shape it finds. */
  datatype Selected = Selected(sourceId: string, sourceSha: string, value: string)

  datatype Shape = Shape(
    sourceId: string, sourceSha: string, selector: Selector, kind: CallKind, profileVersion: string, selectedSha: string,
    origins: seq<string>, effects: seq<string>, confirmationSha: string, authenticationRequired: bool, slots: seq<string>)

  datatype SessionExtension = NoExtension | SessionNamed(name: string) | Malformed

  /** How an operation calls the browser; `proper` is the shape of its extensions. */
  datatype Form =
    | AuthenticationForm(proper: bool, path: string, flow: string, session: string, credentials: map<string, string>)
    | RegistrationForm(proper: bool, path: string, flow: string, input: string, credentials: map<string, string>)
    | SourceForm(sourceId: string, isRef: bool, selector: string, extension: SessionExtension)
    | NoForm

  /** `timed` says that only an authored timeout of at most 600 keeps it from being flat. */
  datatype Operation = Operation(id: string, profile: string, form: Form, flat: bool, timed: bool)

  datatype Step = Step(id: string, operation: string, flat: bool)

  datatype Document = Document(operations: seq<Operation>, steps: seq<Step>)

  /** Resolver, profile version by source, and the call profiles that belong to a
      profile version. */
  datatype World = World(
    resolve: Selected -> Option<Shape>, version: string -> string,
    authenticationProfile: string -> string, registrationProfile: string -> string)

  datatype SourceRef = SourceRef(id: string, path: string, sha: string, profileVersion: string)

  datatype Supplement = Supplement(workflowSha: string, sources: seq<SourceRef>, calls: seq<Call>, reviews: seq<Artifact>)

  // ---------- One call ----------

  function SourceAt(path: string, sources: seq<Source>): Option<Source> {
    if sources == [] then None
    else if sources[0].kind.BrowserProfile? && sources[0].path == path then Some(sources[0])
    else SourceAt(path, sources[1..])
  }

  function SourceNamed(id: string, sources: seq<Source>): Option<Source> {
    if sources == [] then None else if sources[0].id == id then Some(sources[0]) else SourceNamed(id, sources[1..])
  }

  /** A reference selector names one action of its profile. */
  function ActionOf(selector: string): Option<string> {
    var prefix := "#/actions/";
    if prefix <= selector && forall i :: |prefix| <= i < |selector| ==> selector[i] != '/' && selector[i] != '~'
    then Some(selector[|prefix|..]) else None
  }

  function SessionSource(sessions: map<string, string>, name: string): string {
    if name in sessions then sessions[name] else ""
  }

  /** What the operation asks for: whom to resolve, and the names it supplies. */
  datatype Request = Refused | NotBrowser | Asks(selected: Selected, credentials: map<string, string>, session: string, input: string)

  function RequestOf(sources: seq<Source>, op: Operation): Request {
    match op.form
    case AuthenticationForm(proper, path, flow, session, credentials) =>
      var source := SourceAt(path, sources);
      if !proper || source.None? then Refused
      else Asks(Selected(source.value.id, source.value.sha, flow), credentials, session, "")
    case RegistrationForm(proper, path, flow, input, credentials) =>
      var source := SourceAt(path, sources);
      if !proper || source.None? then Refused
      else Asks(Selected(source.value.id, source.value.sha, flow), credentials, "", input)
    case SourceForm(id, isRef, selector, extension) =>
      var source := SourceNamed(id, sources);
      if source.None? || source.value.kind.RuntimeSource? then Refused
      else if !source.value.kind.BrowserProfile? then NotBrowser
      else
        var value := if isRef then ActionOf(selector) else Some(selector);
        if value.None? || extension.Malformed? then Refused
        else Asks(Selected(id, source.value.sha, value.value), map[], if extension.SessionNamed? then extension.name else "", "")
    case NoForm => NotBrowser
  }

  /** The credential names of the profile's slots, in slot order. */
  function SlotsFor(slots: seq<string>, credentials: map<string, string>): Option<seq<CredentialSlot>> {
    if slots == [] then Some([])
    else
      var front, last := SlotsFor(slots[..|slots| - 1], credentials), slots[|slots| - 1];
      if front.None? || last !in credentials || !AuthorityId(credentials[last]) then None
      else Some(front.value + [CredentialSlot(last, credentials[last])])
  }

  method BindSlots(slots: seq<string>, credentials: map<string, string>) returns (r: Option<seq<CredentialSlot>>)
    ensures r == SlotsFor(slots, credentials)
  {
    var bound: seq<CredentialSlot> := [];
    for i := 0 to |slots|
      invariant SlotsFor(slots[..i], credentials) == Some(bound)
    {
      assert slots[..i + 1][..i] == slots[..i];
      if slots[i] !in credentials || !AuthorityId(credentials[slots[i]]) {
        SlotsRefused(slots, credentials, i + 1);
        return None;
      }
      bound := bound + [CredentialSlot(slots[i], credentials[slots[i]])];
    }
    assert slots[..|slots|] == slots;
    return Some(bound);
  }

  lemma {:induction false} SlotsRefused(slots: seq<string>, credentials: map<string, string>, i: nat)
    requires i <= |slots| && SlotsFor(slots[..i], credentials).None?
    ensures SlotsFor(slots, credentials).None?
    decreases |slots|
  {
    if i < |slots| {
      assert slots[..|slots| - 1][..i] == slots[..i];
      SlotsRefused(slots[..|slots| - 1], credentials, i);
    } else {
      assert slots[..i] == slots;
    }
  }

  /** The kind-specific checks: the source an action's session was authenticated by, if
      they pass. */
  function SessionCheck(w: World, op: Operation, shape: Shape, session: string, input: string, sessions: map<string, string>): Option<string> {
    match shape.kind
    case Authentication =>
      if AuthorityId(session) && SessionSource(sessions, session) == "" && op.profile == w.authenticationProfile(shape.profileVersion)
      then Some("") else None
    case Registration =>
      if op.profile == w.registrationProfile(shape.profileVersion) && (shape.profileVersion == "uws.browser-registration.1.0" || AuthorityId(input))
      then Some("") else None
    case Action =>
      if session == "" then if shape.authenticationRequired then None else Some("")
      else if SessionSource(sessions, session) == "" then None
      else Some(SessionSource(sessions, session))
  }

  function CallFrom(step: Step, op: Operation, shape: Shape, r: Request, authenticationSource: string, slots: seq<CredentialSlot>): Call
    requires r.Asks?
  {
    var (outer, inner) := Protocols(shape.profileVersion);
    Call(step.id, op.id, step.id, shape.kind, shape.sourceId, shape.sourceSha, shape.profileVersion, shape.selector,
         shape.selectedSha, outer, inner, shape.origins, shape.effects, shape.confirmationSha, slots, authenticationSource,
         r.session, r.input, false, false)
  }

  datatype Derived = Rejected | Skipped | Made(call: Call)

  /** browserCall, before permissions. */
  function BrowserCall(w: World, sources: seq<Source>, step: Step, op: Operation, sessions: map<string, string>): Derived {
    var r := RequestOf(sources, op);
    if r.Refused? then Rejected
    else if r.NotBrowser? then Skipped
    else
      var shape := w.resolve(r.selected);
      if shape.None? || Protocols(shape.value.profileVersion).0 == "" then Rejected
      else
        var session := SessionCheck(w, op, shape.value, r.session, r.input, sessions);
        var slots := SlotsFor(shape.value.slots, r.credentials);
        if session.None? || |r.credentials| != |shape.value.slots| || slots.None? then Rejected
        else Made(CallFrom(step, op, shape.value, r, session.value, slots.value))
  }

  predicate FlatEnough(w: World, op: Operation, d: Derived) {
    op.flat || (op.timed && d.Made? && d.call.kind.Authentication? && op.profile == w.authenticationProfile(d.call.profileVersion))
  }

  // ---------- All steps ----------

  datatype Progress = Progress(sessions: map<string, string>, used: set<string>, seen: set<string>, calls: seq<Call>)

  function PermissionFor(permissions: map<string, Permission>, step: string): Permission {
    if step in permissions then permissions[step] else NO_PERMISSION
  }

  predicate PermissionFits(p: Permission, c: Call) {
    && (p.reuse || p.save ==> c.sessionName != "" && !c.kind.Registration?)
    && (p.save ==> c.kind.Authentication?)
  }

  function OperationNamed(operations: seq<Operation>, id: string): Option<Operation> {
    if operations == [] then None
    else if operations[0].id == id then Some(operations[0])
    else OperationNamed(operations[1..], id)
  }

  /** One round of the derivation loop. */
  function Advance(w: World, doc: Document, sources: seq<Source>, permissions: map<string, Permission>, p: Progress, step: Step): Option<Progress> {
    var op := OperationNamed(doc.operations, step.operation);
    if !step.flat || step.operation in p.used || op.None? then None
    else
      var d := BrowserCall(w, sources, step, op.value, p.sessions);
      var used := p.used + {step.operation};
      if d.Rejected? || !FlatEnough(w, op.value, d) then None
      else if d.Skipped? then Some(p.(used := used))
      else
        var permission := PermissionFor(permissions, step.id);
        if !PermissionFits(permission, d.call) then None
        else
          var call := d.call.(reuseAllowed := permission.reuse, saveAllowed := permission.save);
          Some(Progress(
            if call.kind.Authentication? then p.sessions[call.sessionName := call.sourceId] else p.sessions,
            used, if step.id in permissions then p.seen + {step.id} else p.seen, p.calls + [call]))
  }

  function Walk(w: World, doc: Document, sources: seq<Source>, permissions: map<string, Permission>, n: nat): Option<Progress>
    requires n <= |doc.steps|
  {
    if n == 0 then Some(Progress(map[], {}, {}, []))
    else
      var before := Walk(w, doc, sources, permissions, n - 1);
      if before.None? then None else Advance(w, doc, sources, permissions, before.value, doc.steps[n - 1])
  }

  predicate ById(a: SourceRef, b: SourceRef) {
    AtMost(a.id, b.id)
  }

  /** The browser-profile sources, as the supplement lists them. */
  function Refs(w: World, sources: seq<Source>): seq<SourceRef> {
    if sources == [] then []
    else
      var front, last := Refs(w, sources[..|sources| - 1]), sources[|sources| - 1];
      if last.kind.BrowserProfile? then front + [SourceRef(last.id, last.path, last.sha, w.version(last.id))] else front
  }

  predicate UniqueOperations(doc: Document) {
    forall i, j :: 0 <= i < j < |doc.operations| ==> doc.operations[i].id != doc.operations[j].id
  }

  datatype Derivation = Failure | Nothing | Success(supplement: Supplement)

  /** What the end of the loop asks of its progress. */
  predicate Complete(doc: Document, permissions: map<string, Permission>, p: Progress) {
    && |p.seen| == |permissions| && 1 <= |p.calls| <= 100
    && forall i :: 0 <= i < |doc.operations| ==> doc.operations[i].id in p.used
  }

  /** deriveBrowserSupplement; an undecodable workflow is no document. */
  function Derive(w: World, doc: Option<Document>, workflowSha: string, sources: seq<Source>,
                  permissions: map<string, Permission>, reviews: seq<Artifact>): Derivation
  {
    var refs := Refs(w, sources);
    if refs == [] then if permissions == map[] && reviews == [] then Nothing else Failure
    else if doc.None? || !UniqueOperations(doc.value) || exists i :: 0 <= i < |refs| && refs[i].profileVersion == "" then Failure
    else
      var p := Walk(w, doc.value, sources, permissions, |doc.value.steps|);
      if p.None? || !Complete(doc.value, permissions, p.value) then Failure
      else Success(Supplement(workflowSha, Sort(ById, refs), p.value.calls, reviews))
  }

  // ---------- The derivation loops ----------

  lemma {:induction false} WalkRefused(w: World, doc: Document, sources: seq<Source>, permissions: map<string, Permission>, n: nat, m: nat)
    requires n <= m <= |doc.steps| && Walk(w, doc, sources, permissions, n).None?
    ensures Walk(w, doc, sources, permissions, m).None?
    decreases m
  {
    hide Advance;
    if n < m { WalkRefused(w, doc, sources, permissions, n, m - 1); }
  }

  lemma {:induction false} NamedIn(operations: seq<Operation>, i: nat)
    requires i < |operations| && forall j, k :: 0 <= j < k < |operations| ==> operations[j].id != operations[k].id
    ensures OperationNamed(operations, operations[i].id) == Some(operations[i])
  {
    if i > 0 { NamedIn(operations[1..], i - 1); }
  }

  lemma {:induction false} NotNamed(operations: seq<Operation>, id: string)
    requires forall i :: 0 <= i < |operations| ==> operations[i].id != id
    ensures OperationNamed(operations, id).None?
  {
    if operations != [] { NotNamed(operations[1..], id); }
  }

  /** The operations map of the derivation. */
  method IndexOperations(operations: seq<Operation>) returns (ok: bool, named: map<string, Operation>)
    ensures ok <==> forall i, j :: 0 <= i < j < |operations| ==> operations[i].id != operations[j].id
    ensures ok ==> forall id :: OperationNamed(operations, id) == if id in named then Some(named[id]) else None
  {
    named := map[];
    for k := 0 to |operations|
      invariant forall i, j :: 0 <= i < j < k ==> operations[i].id != operations[j].id
      invariant forall id :: id in named <==> exists i :: 0 <= i < k && operations[i].id == id
      invariant forall i :: 0 <= i < k ==> operations[i].id in named && named[operations[i].id] == operations[i]
    {
      if operations[k].id in named { return false, named; }
      named := named[operations[k].id := operations[k]];
    }
    forall id ensures OperationNamed(operations, id) == if id in named then Some(named[id]) else None {
      if id in named {
        var i :| 0 <= i < |operations| && operations[i].id == id;
        NamedIn(operations, i);
      } else {
        NotNamed(operations, id);
      }
    }
    return true, named;
  }

  /** The source loop: references of the browser profiles, or a profile without a version. */
  method ListSources(w: World, sources: seq<Source>) returns (ok: bool, refs: seq<SourceRef>)
    ensures ok <==> forall i :: 0 <= i < |Refs(w, sources)| ==> Refs(w, sources)[i].profileVersion != ""
    ensures ok ==> refs == Refs(w, sources)
  {
    refs := [];
    for k := 0 to |sources|
      invariant refs == Refs(w, sources[..k])
      invariant forall i :: 0 <= i < |refs| ==> refs[i].profileVersion != ""
    {
      var s := sources[k];
      assert sources[..k + 1][..k] == sources[..k];
      RefsStart(w, sources, k + 1);
      if s.kind.BrowserProfile? {
        var ref := SourceRef(s.id, s.path, s.sha, w.version(s.id));
        if ref.profileVersion == "" {
          assert Refs(w, sources[..k + 1])[|refs|] == ref;
          return false, refs;
        }
        refs := refs + [ref];
      }
    }
    assert sources[..|sources|] == sources;
    return true, refs;
  }

  lemma {:induction false} RefsStart(w: World, sources: seq<Source>, k: nat)
    requires k <= |sources|
    ensures Refs(w, sources[..k]) <= Refs(w, sources)
    decreases |sources|
  {
    if k < |sources| {
      RefsStart(w, sources[..|sources| - 1], k);
      assert sources[..|sources| - 1][..k] == sources[..k];
    } else {
      assert sources[..k] == sources;
    }
  }

  /** The step loop. */
  method RunSteps(w: World, doc: Document, sources: seq<Source>, permissions: map<string, Permission>, named: map<string, Operation>)
    returns (p: Option<Progress>)
    requires forall id :: OperationNamed(doc.operations, id) == if id in named then Some(named[id]) else None
    ensures p == Walk(w, doc, sources, permissions, |doc.steps|)
  {
    hide Walk, BrowserCall, FlatEnough;
    var sessions: map<string, string>, used: set<string>, seen: set<string>, calls: seq<Call> := map[], {}, {}, [];
    NoSteps(w, doc, sources, permissions);
    for k := 0 to |doc.steps|
      invariant Walk(w, doc, sources, permissions, k) == Some(Progress(sessions, used, seen, calls))
    {
      ghost var before := Progress(sessions, used, seen, calls);
      WalkStep(w, doc, sources, permissions, k);
      var step := doc.steps[k];
      if !step.flat || step.operation in used || step.operation !in named { WalkRefused(w, doc, sources, permissions, k + 1, |doc.steps|); return None; }
      var op := named[step.operation];
      used := used + {step.operation};
      var d := BrowserCall(w, sources, step, op, sessions);
      if d.Rejected? || !FlatEnough(w, op, d) { WalkRefused(w, doc, sources, permissions, k + 1, |doc.steps|); return None; }
      if d.Made? {
        var call := d.call;
        if call.kind.Authentication? { sessions := sessions[call.sessionName := call.sourceId]; }
        var permission := PermissionFor(permissions, step.id);
        if step.id in permissions { seen := seen + {step.id}; }
        if !PermissionFits(permission, call) { WalkRefused(w, doc, sources, permissions, k + 1, |doc.steps|); return None; }
        call := call.(reuseAllowed := permission.reuse, saveAllowed := permission.save);
        calls := calls + [call];
      }
    }
    return Some(Progress(sessions, used, seen, calls));
  }

  lemma NoSteps(w: World, doc: Document, sources: seq<Source>, permissions: map<string, Permission>)
    ensures Walk(w, doc, sources, permissions, 0) == Some(Progress(map[], {}, {}, []))
  {
  }

  lemma WalkStep(w: World, doc: Document, sources: seq<Source>, permissions: map<string, Permission>, n: nat)
    requires n < |doc.steps|
    ensures var before := Walk(w, doc, sources, permissions, n);
            Walk(w, doc, sources, permissions, n + 1) == if before.None? then None else Advance(w, doc, sources, permissions, before.value, doc.steps[n])
  {
  }

  /** deriveBrowserSupplement as it runs. */
  method DeriveBrowserSupplement(w: World, doc: Option<Document>, workflowSha: string, sources: seq<Source>,
                                 permissions: map<string, Permission>, reviews: seq<Artifact>) returns (r: Derivation)
    ensures r == Derive(w, doc, workflowSha, sources, permissions, reviews)
  {
    hide Walk, Refs, Sort;
    var proper, refs := ListSources(w, sources);
    if proper && refs == [] {
      return if |permissions| + |reviews| != 0 then Failure else Nothing;
    }
    if doc.None? || !proper { return Failure; }
    var unique, named := IndexOperations(doc.value.operations);
    if !unique { return Failure; }
    var p := RunSteps(w, doc.value, sources, permissions, named);
    if p.None? || |p.value.seen| != |permissions| || |p.value.calls| == 0 || |p.value.calls| > 100 { return Failure; }
    for i := 0 to |doc.value.operations|
      invariant forall k :: 0 <= k < i ==> doc.value.operations[k].id in p.value.used
    {
      if doc.value.operations[i].id !in p.value.used { return Failure; }
    }
    return Success(Supplement(workflowSha, Sort(ById, refs), p.value.calls, reviews));
  }
}
