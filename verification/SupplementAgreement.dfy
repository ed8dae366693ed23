/** Why a shipped supplement is accepted exactly when its permissions can be read back,
    and what every derived supplement guarantees to the run checker
    (packagev3/browser.go). */
module SupplementAgreement {
  import opened Common
  import opened BrowserContract
  import opened SessionBinding
  import opened BrowserSupplement
  import opened Digests

  function Flags(c: Call): Permission {
    Permission(c.reuseAllowed, c.saveAllowed)
  }

  // ---------- Permissions ----------

  lemma CallStepsNext(calls: seq<Call>, c: Call)
    ensures CallSteps(calls + [c]) == CallSteps(calls) + {c.stepId}
  {
    var more := calls + [c];
    assert more[|calls|] == c;
    forall i | 0 <= i < |calls| ensures calls[i].stepId in CallSteps(more) {
      assert more[i] == calls[i];
    }
  }

  ghost predicate Permitted(permissions: map<string, Permission>, p: Progress) {
    && p.seen == CallSteps(p.calls) * permissions.Keys
    && forall i :: 0 <= i < |p.calls| ==> Flags(p.calls[i]) == PermissionFor(permissions, p.calls[i].stepId)
  }

  lemma AdvancePermitted(w: World, doc: Document, sources: seq<Source>, permissions: map<string, Permission>, p: Progress, step: Step)
    requires Permitted(permissions, p) && Advance(w, doc, sources, permissions, p, step).Some?
    ensures Permitted(permissions, Advance(w, doc, sources, permissions, p, step).value)
  {
    var after := Advance(w, doc, sources, permissions, p, step).value;
    MadeFor(w, doc, sources, p, step);
    hide BrowserCall, FlatEnough, PermissionFits, OperationNamed;
    if |after.calls| > |p.calls| {
      CallStepsNext(p.calls, after.calls[|p.calls|]);
    }
  }

  /** A derived call carries the permission of its step, and the permissions seen are the
      supplied ones of browser steps. */
  lemma {:induction false} WalkPermitted(w: World, doc: Document, sources: seq<Source>, permissions: map<string, Permission>, n: nat)
    requires n <= |doc.steps| && Walk(w, doc, sources, permissions, n).Some?
    ensures Permitted(permissions, Walk(w, doc, sources, permissions, n).value)
  {
    hide Advance;
    if n > 0 {
      WalkPermitted(w, doc, sources, permissions, n - 1);
      AdvancePermitted(w, doc, sources, permissions, Walk(w, doc, sources, permissions, n - 1).value, doc.steps[n - 1]);
    }
  }

  lemma MadeFor(w: World, doc: Document, sources: seq<Source>, p: Progress, step: Step)
    ensures var op := OperationNamed(doc.operations, step.operation);
            op.Some? ==> var d := BrowserCall(w, sources, step, op.value, p.sessions); d.Made? ==> d.call.stepId == step.id
  {
  }

  lemma SamePermissionAdvance(w: World, doc: Document, sources: seq<Source>, p: map<string, Permission>, q: map<string, Permission>,
                              before: Progress, seen: set<string>, step: Step)
    requires Advance(w, doc, sources, p, before, step).Some?
    requires var after := Advance(w, doc, sources, p, before, step).value;
             |after.calls| > |before.calls| ==> PermissionFor(q, step.id) == PermissionFor(p, step.id)
    ensures var a, b := Advance(w, doc, sources, p, before, step), Advance(w, doc, sources, q, before.(seen := seen), step);
            b.Some? && b.value.calls == a.value.calls && b.value.used == a.value.used && b.value.sessions == a.value.sessions
  {
    hide BrowserCall, FlatEnough, PermissionFits, OperationNamed;
  }

  predicate Agree(p: map<string, Permission>, q: map<string, Permission>, calls: seq<Call>) {
    forall i :: 0 <= i < |calls| ==> PermissionFor(q, calls[i].stepId) == PermissionFor(p, calls[i].stepId)
  }

  lemma AgreeOn(p: map<string, Permission>, q: map<string, Permission>, before: seq<Call>, after: seq<Call>)
    requires Agree(p, q, after) && before <= after
    ensures Agree(p, q, before)
    ensures |after| > |before| ==> PermissionFor(q, after[|before|].stepId) == PermissionFor(p, after[|before|].stepId)
  {
    hide PermissionFor;
    assert forall i :: 0 <= i < |before| ==> after[i] == before[i];
  }

  /** Two permission maps that agree on the browser steps derive the same calls. */
  lemma {:induction false} SameWalk(w: World, doc: Document, sources: seq<Source>, p: map<string, Permission>, q: map<string, Permission>, n: nat)
    requires n <= |doc.steps| && Walk(w, doc, sources, p, n).Some? && Agree(p, q, Walk(w, doc, sources, p, n).value.calls)
    ensures var a, b := Walk(w, doc, sources, p, n), Walk(w, doc, sources, q, n);
            b.Some? && b.value.calls == a.value.calls && b.value.used == a.value.used && b.value.sessions == a.value.sessions
  {
    hide Advance, PermissionFor, Agree;
    if n > 0 {
      var before, after := Walk(w, doc, sources, p, n - 1).value, Walk(w, doc, sources, p, n).value;
      AdvanceExtends(w, doc, sources, p, before, doc.steps[n - 1]);
      AgreeOn(p, q, before.calls, after.calls);
      SameWalk(w, doc, sources, p, q, n - 1);
      SamePermissionAdvance(w, doc, sources, p, q, before, Walk(w, doc, sources, q, n - 1).value.seen, doc.steps[n - 1]);
    }
  }

  lemma AdvanceExtends(w: World, doc: Document, sources: seq<Source>, p: map<string, Permission>, before: Progress, step: Step)
    requires Advance(w, doc, sources, p, before, step).Some?
    ensures var a := Advance(w, doc, sources, p, before, step).value;
            before.calls <= a.calls && |a.calls| <= |before.calls| + 1 && (|a.calls| > |before.calls| ==> a.calls[|before.calls|].stepId == step.id)
  {
    MadeFor(w, doc, sources, before, step);
    hide BrowserCall, FlatEnough, PermissionFits, OperationNamed;
  }

  /** Permissions that agree on the derived calls and name only their steps derive the same
      supplement, for instance after all-false permissions were added or dropped. */
  lemma Rederived(w: World, doc: Option<Document>, sha: string, sources: seq<Source>,
                  p: map<string, Permission>, q: map<string, Permission>, reviews: seq<Artifact>)
    requires Derive(w, doc, sha, sources, p, reviews).Success?
    requires var calls := Derive(w, doc, sha, sources, p, reviews).supplement.calls;
             q.Keys <= CallSteps(calls) && Agree(p, q, calls)
    ensures Derive(w, doc, sha, sources, q, reviews) == Derive(w, doc, sha, sources, p, reviews)
  {
    hide Walk, Refs, Sort;
    SameWalk(w, doc.value, sources, p, q, |doc.value.steps|);
    WalkPermitted(w, doc.value, sources, q, |doc.value.steps|);
    var b := Walk(w, doc.value, sources, q, |doc.value.steps|).value;
    assert b.seen == q.Keys;
    assert |q.Keys| == |q|;
  }

  // ---------- Reading permissions back ----------

  /** A step with a permission is called again. */
  predicate SharedPermission(calls: seq<Call>) {
    exists i, j :: 0 <= i < j < |calls| && calls[i].stepId == calls[j].stepId && Flags(calls[i]) != NO_PERMISSION
  }

  /** The permissions the last call of each step carries. */
  function LastFlags(calls: seq<Call>): map<string, Permission> {
    if calls == [] then map[] else LastFlags(calls[..|calls| - 1])[calls[|calls| - 1].stepId := Flags(calls[|calls| - 1])]
  }

  /** The loop of verifyBrowserSupplement. */
  method ReadPermissions(calls: seq<Call>) returns (ok: bool, permissions: map<string, Permission>)
    ensures ok <==> !SharedPermission(calls)
    ensures ok ==> permissions == LastFlags(calls)
  {
    permissions := map[];
    for k := 0 to |calls|
      invariant !SharedPermission(calls[..k]) && permissions == LastFlags(calls[..k])
    {
      var c := calls[k];
      assert calls[..k + 1][..k] == calls[..k];
      LastOf(calls[..k], c.stepId);
      if PermissionFor(permissions, c.stepId) != NO_PERMISSION {
        SharedBy(calls, k);
        return false, permissions;
      }
      NotShared(calls, k);
      permissions := permissions[c.stepId := Flags(c)];
    }
    assert calls[..|calls|] == calls;
    return true, permissions;
  }

  /** The map holds the flags of some call of each step, and of the last one. */
  lemma {:induction false} LastOf(calls: seq<Call>, step: string)
    ensures step in LastFlags(calls) ==> exists i :: 0 <= i < |calls| && calls[i].stepId == step && LastFlags(calls)[step] == Flags(calls[i])
    ensures step !in LastFlags(calls) ==> forall i :: 0 <= i < |calls| ==> calls[i].stepId != step
  {
    if calls != [] {
      LastOf(calls[..|calls| - 1], step);
      var front := calls[..|calls| - 1];
      assert forall i :: 0 <= i < |front| ==> front[i] == calls[i];
      assert calls[|calls| - 1].stepId == step ==> LastFlags(calls)[step] == Flags(calls[|calls| - 1]);
    }
  }

  lemma SharedBy(calls: seq<Call>, k: nat)
    requires k < |calls| && PermissionFor(LastFlags(calls[..k]), calls[k].stepId) != NO_PERMISSION
    ensures SharedPermission(calls)
  {
    LastOf(calls[..k], calls[k].stepId);
    var i :| 0 <= i < k && calls[..k][i].stepId == calls[k].stepId && Flags(calls[..k][i]) != NO_PERMISSION;
    assert calls[i] == calls[..k][i];
  }

  lemma NotShared(calls: seq<Call>, k: nat)
    requires k < |calls| && !SharedPermission(calls[..k]) && PermissionFor(LastFlags(calls[..k]), calls[k].stepId) == NO_PERMISSION
    ensures !SharedPermission(calls[..k + 1])
  {
    var front := calls[..k];
    forall i, j | 0 <= i < j < k + 1 && calls[i].stepId == calls[j].stepId ensures Flags(calls[i]) == NO_PERMISSION {
      assert calls[i] == front[i];
      if j < k {
        assert calls[j] == front[j];
      } else if Flags(front[i]) != NO_PERMISSION {
        LastUnshared(front, i);
        assert false;
      }
    }
  }

  /** Without sharing, a permitted call is the only one of its step. */
  lemma {:induction false} LastUnshared(calls: seq<Call>, i: nat)
    requires i < |calls| && !SharedPermission(calls) && Flags(calls[i]) != NO_PERMISSION
    ensures calls[i].stepId in LastFlags(calls) && LastFlags(calls)[calls[i].stepId] == Flags(calls[i])
  {
    if i < |calls| - 1 {
      var front := calls[..|calls| - 1];
      assert !SharedPermission(front) by {
        assert forall a :: 0 <= a < |front| ==> front[a] == calls[a];
      }
      assert front[i] == calls[i];
      LastUnshared(front, i);
      assert calls[|calls| - 1].stepId != calls[i].stepId;
    }
  }

  // ---------- Source order ----------

  predicate DistinctSources(sources: seq<Source>) {
    forall i, j :: 0 <= i < j < |sources| ==> sources[i].id != sources[j].id && sources[i].path != sources[j].path
  }

  ghost predicate SameSources(a: seq<Source>, b: seq<Source>) {
    DistinctSources(a) && DistinctSources(b) && forall s :: s in a <==> s in b
  }

  lemma {:induction false} SourceAtFinds(path: string, sources: seq<Source>)
    ensures var r := SourceAt(path, sources);
            if r.Some? then r.value in sources && r.value.kind.BrowserProfile? && r.value.path == path
            else forall s :: s in sources ==> !(s.kind.BrowserProfile? && s.path == path)
  {
    if sources != [] { SourceAtFinds(path, sources[1..]); }
  }

  lemma {:induction false} SourceNamedFinds(id: string, sources: seq<Source>)
    ensures var r := SourceNamed(id, sources);
            if r.Some? then r.value in sources && r.value.id == id else forall s :: s in sources ==> s.id != id
  {
    if sources != [] { SourceNamedFinds(id, sources[1..]); }
  }

  lemma SameLookups(a: seq<Source>, b: seq<Source>)
    requires SameSources(a, b)
    ensures forall path :: SourceAt(path, a) == SourceAt(path, b)
    ensures forall id :: SourceNamed(id, a) == SourceNamed(id, b)
  {
    forall path ensures SourceAt(path, a) == SourceAt(path, b) {
      SourceAtFinds(path, a);
      SourceAtFinds(path, b);
    }
    forall id ensures SourceNamed(id, a) == SourceNamed(id, b) {
      SourceNamedFinds(id, a);
      SourceNamedFinds(id, b);
    }
  }

  lemma SameCalls(w: World, a: seq<Source>, b: seq<Source>, step: Step, op: Operation, sessions: map<string, string>)
    requires SameSources(a, b)
    ensures BrowserCall(w, a, step, op, sessions) == BrowserCall(w, b, step, op, sessions)
  {
    SameLookups(a, b);
    hide SourceAt, SourceNamed;
    assert RequestOf(a, op) == RequestOf(b, op);
  }

  lemma SameAdvance(w: World, doc: Document, a: seq<Source>, b: seq<Source>, permissions: map<string, Permission>, p: Progress, step: Step)
    requires SameSources(a, b)
    ensures Advance(w, doc, a, permissions, p, step) == Advance(w, doc, b, permissions, p, step)
  {
    hide BrowserCall, FlatEnough, PermissionFits, SameSources, OperationNamed;
    var op := OperationNamed(doc.operations, step.operation);
    if op.Some? { SameCalls(w, a, b, step, op.value, p.sessions); }
  }

  lemma {:induction false} SameSteps(w: World, doc: Document, a: seq<Source>, b: seq<Source>, permissions: map<string, Permission>, n: nat)
    requires SameSources(a, b) && n <= |doc.steps|
    ensures Walk(w, doc, a, permissions, n) == Walk(w, doc, b, permissions, n)
  {
    hide Advance, SameSources;
    if n > 0 {
      SameSteps(w, doc, a, b, permissions, n - 1);
      var before := Walk(w, doc, a, permissions, n - 1);
      if before.Some? { SameAdvance(w, doc, a, b, permissions, before.value, doc.steps[n - 1]); }
    }
  }

  function RefOf(w: World, s: Source): SourceRef {
    SourceRef(s.id, s.path, s.sha, w.version(s.id))
  }

  lemma {:induction false} RefsAre(w: World, sources: seq<Source>)
    requires DistinctSources(sources)
    ensures forall r :: r in Refs(w, sources) <==> exists s :: s in sources && s.kind.BrowserProfile? && r == RefOf(w, s)
    ensures forall i, j :: 0 <= i < j < |Refs(w, sources)| ==> Refs(w, sources)[i].id != Refs(w, sources)[j].id
  {
    if sources != [] {
      var front, last := sources[..|sources| - 1], sources[|sources| - 1];
      RefsAre(w, front);
      assert forall s :: s in sources <==> s in front || s == last;
      forall r | r in Refs(w, front) ensures r.id != last.id {
        var s :| s in front && s.kind.BrowserProfile? && r == RefOf(w, s);
      }
    }
  }

  lemma ByIdOrders()
    ensures Preorder(ById)
  {
    forall a: SourceRef, b: SourceRef ensures ById(a, b) || ById(b, a) {
      LessTotal(a.id, b.id);
    }
    forall a: SourceRef, b: SourceRef, c: SourceRef | ById(a, b) && ById(b, c) ensures ById(a, c) {
      if a.id != b.id && b.id != c.id { LessTransitive(a.id, b.id, c.id); }
    }
  }

  lemma SameRefs(w: World, a: seq<Source>, b: seq<Source>)
    requires SameSources(a, b)
    ensures Sort(ById, Refs(w, a)) == Sort(ById, Refs(w, b))
    ensures forall r :: r in Refs(w, a) <==> r in Refs(w, b)
  {
    RefsAre(w, a);
    RefsAre(w, b);
    var x, y := Refs(w, a), Refs(w, b);
    forall r ensures multiset(x)[r] == multiset(y)[r] {
      CountOf(x, r);
      CountOf(y, r);
    }
    ByIdOrders();
    forall r, s | r in x && s in x && ById(r, s) && ById(s, r) ensures r == s {
      LessTotal(r.id, s.id);
    }
    SortPermuted(ById, x, y);
  }

  /** The order of the sources is immaterial. */
  lemma SourceOrderIsImmaterial(w: World, doc: Option<Document>, sha: string, a: seq<Source>, b: seq<Source>,
                                permissions: map<string, Permission>, reviews: seq<Artifact>)
    requires SameSources(a, b)
    ensures Derive(w, doc, sha, a, permissions, reviews) == Derive(w, doc, sha, b, permissions, reviews)
  {
    hide Walk, Refs, Sort, SameSources, UniqueOperations, BrowserSupplement.Complete;
    SameRefs(w, a, b);
    SameVersions(Refs(w, a), Refs(w, b));
    if doc.Some? { SameSteps(w, doc.value, a, b, permissions, |doc.value.steps|); }
  }

  lemma SameVersions(x: seq<SourceRef>, y: seq<SourceRef>)
    requires forall r :: r in x <==> r in y
    ensures x == [] <==> y == []
    ensures (exists i :: 0 <= i < |x| && x[i].profileVersion == "") <==> (exists i :: 0 <= i < |y| && y[i].profileVersion == "")
  {
    if x != [] { assert x[0] in y; }
    if y != [] { assert y[0] in x; }
    if i :| 0 <= i < |x| && x[i].profileVersion == "" { assert x[i] in y; }
    if i :| 0 <= i < |y| && y[i].profileVersion == "" { assert y[i] in x; }
  }

  // ---------- Writer and verifier ----------

  const MAX_BYTES: nat := 1048576

  /** Canonical JSON of a supplement and its strict decoding. */
  datatype Codec = Codec(encode: Supplement -> seq<bv8>, decode: seq<bv8> -> Option<Supplement>)

  ghost predicate Lossless(c: Codec) {
    forall s {:trigger c.encode(s)} :: |c.encode(s)| <= MAX_BYTES ==> c.decode(c.encode(s)) == Some(s)
  }

  datatype Options = Options(permissions: map<string, Permission>, reviews: seq<Artifact>)

  datatype Addition = Refusal | NoSupplement | Written(bytes: seq<bv8>, reviews: seq<Artifact>)

  /** addBrowserSupplement, after the review files have been stored. */
  method AddBrowserSupplement(w: World, doc: Option<Document>, sha: string, sources: seq<Source>, c: Codec, options: Option<Options>)
    returns (r: Addition)
    ensures r == Added(w, doc, sha, sources, c, options)
  {
    var permissions: map<string, Permission>, reviews: seq<Artifact> := map[], [];
    if options.Some? {
      permissions := options.value.permissions;
      reviews := Sort(ByPath, options.value.reviews);
    }
    var d := DeriveBrowserSupplement(w, doc, sha, sources, permissions, reviews);
    match d {
      case Failure => return Refusal;
      case Nothing => return if options.Some? then Refusal else NoSupplement;
      case Success(s) =>
        var bytes := c.encode(s);
        return if |bytes| > MAX_BYTES then Refusal else Written(bytes, reviews);
    }
  }

  function Added(w: World, doc: Option<Document>, sha: string, sources: seq<Source>, c: Codec, options: Option<Options>): Addition {
    var permissions := if options.Some? then options.value.permissions else map[];
    var reviews := if options.Some? then Sort(ByPath, options.value.reviews) else [];
    match Derive(w, doc, sha, sources, permissions, reviews)
    case Failure => Refusal
    case Nothing => if options.Some? then Refusal else NoSupplement
    case Success(s) => if |c.encode(s)| > MAX_BYTES then Refusal else Written(c.encode(s), reviews)
  }

  /** The supplement in the file can be derived again from its own permissions. */
  predicate Verifies(w: World, doc: Option<Document>, sha: string, sources: seq<Source>, reviews: seq<Artifact>, s: Supplement) {
    !SharedPermission(s.calls) && Derive(w, doc, sha, sources, LastFlags(s.calls), reviews) == Success(s)
  }

  predicate Accepts(w: World, doc: Option<Document>, sha: string, sources: seq<Source>, c: Codec, reviews: seq<Artifact>, bytes: seq<bv8>) {
    var s := c.decode(bytes);
    |bytes| <= MAX_BYTES && s.Some? && Verifies(w, doc, sha, sources, reviews, s.value) && c.encode(s.value) == bytes
  }

  /** verifyBrowserSupplement. */
  method VerifyBrowserSupplement(w: World, doc: Option<Document>, sha: string, sources: seq<Source>, c: Codec, reviews: seq<Artifact>, bytes: seq<bv8>)
    returns (r: Option<Supplement>)
    ensures r.Some? <==> Accepts(w, doc, sha, sources, c, reviews, bytes)
    ensures r.Some? ==> r == c.decode(bytes)
  {
    hide Derive, SharedPermission;
    if |bytes| > MAX_BYTES { return None; }
    var s := c.decode(bytes);
    if s.None? { return None; }
    var readable, permissions := ReadPermissions(s.value.calls);
    if !readable { return None; }
    var expected := DeriveBrowserSupplement(w, doc, sha, sources, permissions, reviews);
    if expected != Success(s.value) || c.encode(s.value) != bytes { return None; }
    return s;
  }

  lemma {:induction false} LastFlagsKeys(calls: seq<Call>)
    ensures LastFlags(calls).Keys == CallSteps(calls)
  {
    if calls != [] {
      LastFlagsKeys(calls[..|calls| - 1]);
      CallStepsNext(calls[..|calls| - 1], calls[|calls| - 1]);
      assert calls == calls[..|calls| - 1] + [calls[|calls| - 1]];
    }
  }

  lemma DerivedFlags(w: World, doc: Option<Document>, sha: string, sources: seq<Source>, p: map<string, Permission>, reviews: seq<Artifact>)
    requires Derive(w, doc, sha, sources, p, reviews).Success?
    ensures var calls := Derive(w, doc, sha, sources, p, reviews).supplement.calls;
            forall i :: 0 <= i < |calls| ==> Flags(calls[i]) == PermissionFor(p, calls[i].stepId)
  {
    hide Refs, Sort, Walk;
    WalkPermitted(w, doc.value, sources, p, |doc.value.steps|);
  }

  /** Reading the permissions back from derived calls and deriving again gives the same
      supplement. */
  lemma ReadBackDerives(w: World, doc: Option<Document>, sha: string, sources: seq<Source>, p: map<string, Permission>, reviews: seq<Artifact>)
    requires Derive(w, doc, sha, sources, p, reviews).Success?
    ensures var s := Derive(w, doc, sha, sources, p, reviews).supplement;
            Derive(w, doc, sha, sources, LastFlags(s.calls), reviews) == Success(s)
  {
    var s := Derive(w, doc, sha, sources, p, reviews).supplement;
    var q := LastFlags(s.calls);
    DerivedFlags(w, doc, sha, sources, p, reviews);
    LastFlagsKeys(s.calls);
    hide Derive;
    forall i | 0 <= i < |s.calls| ensures PermissionFor(q, s.calls[i].stepId) == PermissionFor(p, s.calls[i].stepId) {
      LastOf(s.calls, s.calls[i].stepId);
    }
    Rederived(w, doc, sha, sources, p, q, reviews);
  }

  // ---------- Which steps derive calls ----------

  /** The step's operation calls the browser, as far as its form and its source tell. */
  predicate AsksBrowser(doc: Document, sources: seq<Source>, step: Step) {
    var op := OperationNamed(doc.operations, step.operation);
    op.Some? && RequestOf(sources, op.value).Asks?
  }

  /** Positions of the steps that do, among the first n. */
  function Positions(doc: Document, sources: seq<Source>, n: nat): (r: seq<nat>)
    requires n <= |doc.steps|
    ensures forall i :: 0 <= i < |r| ==> r[i] < n && AsksBrowser(doc, sources, doc.steps[r[i]])
    ensures forall i, j :: 0 <= i < j < |r| ==> r[i] < r[j]
    ensures forall k :: 0 <= k < n && AsksBrowser(doc, sources, doc.steps[k]) ==> k in r
  {
    if n == 0 then []
    else Positions(doc, sources, n - 1) + if AsksBrowser(doc, sources, doc.steps[n - 1]) then [n - 1] else []
  }

  lemma AdvanceAsks(w: World, doc: Document, sources: seq<Source>, permissions: map<string, Permission>, before: Progress, step: Step)
    requires Advance(w, doc, sources, permissions, before, step).Some?
    ensures var calls := Advance(w, doc, sources, permissions, before, step).value.calls;
            if AsksBrowser(doc, sources, step) then |calls| == |before.calls| + 1 && calls[..|before.calls|] == before.calls && calls[|before.calls|].stepId == step.id
            else calls == before.calls
  {
    MadeFor(w, doc, sources, before, step);
    hide SessionCheck, SlotsFor, FlatEnough, PermissionFits, OperationNamed, RequestOf;
  }

  /** The derived calls are those of the steps that ask for the browser, in order. */
  lemma {:induction false} CallsOfPositions(w: World, doc: Document, sources: seq<Source>, permissions: map<string, Permission>, n: nat)
    requires n <= |doc.steps| && Walk(w, doc, sources, permissions, n).Some?
    ensures var calls, at := Walk(w, doc, sources, permissions, n).value.calls, Positions(doc, sources, n);
            |calls| == |at| && forall i :: 0 <= i < |calls| ==> calls[i].stepId == doc.steps[at[i]].id
  {
    hide Advance, AsksBrowser;
    if n > 0 {
      WalkStep(w, doc, sources, permissions, n - 1);
      hide Walk;
      CallsOfPositions(w, doc, sources, permissions, n - 1);
      var before, after := Walk(w, doc, sources, permissions, n - 1).value, Walk(w, doc, sources, permissions, n).value;
      AdvanceAsks(w, doc, sources, permissions, before, doc.steps[n - 1]);
      assert forall i :: 0 <= i < |before.calls| ==> after.calls[i] == after.calls[..|before.calls|][i];
    }
  }

  predicate RepeatsAt(doc: Document, sources: seq<Source>, permissions: map<string, Permission>, i: int, j: int) {
    && 0 <= i < j < |doc.steps| && doc.steps[i].id == doc.steps[j].id && PermissionFor(permissions, doc.steps[i].id) != NO_PERMISSION
    && AsksBrowser(doc, sources, doc.steps[i]) && AsksBrowser(doc, sources, doc.steps[j])
  }

  /** Two browser steps share one id, and that id has a permission. */
  ghost predicate RepeatsPermitted(doc: Document, sources: seq<Source>, permissions: map<string, Permission>) {
    exists i, j :: RepeatsAt(doc, sources, permissions, i, j)
  }

  ghost predicate CallsAtPositions(doc: Document, sources: seq<Source>, p: map<string, Permission>, calls: seq<Call>) {
    var at := Positions(doc, sources, |doc.steps|);
    && |calls| == |at|
    && forall i :: 0 <= i < |calls| ==> calls[i].stepId == doc.steps[at[i]].id && Flags(calls[i]) == PermissionFor(p, calls[i].stepId)
  }

  lemma RepeatIsShared(doc: Document, sources: seq<Source>, p: map<string, Permission>, calls: seq<Call>, i: nat, j: nat)
    requires CallsAtPositions(doc, sources, p, calls) && RepeatsAt(doc, sources, p, i, j)
    ensures SharedPermission(calls)
  {
    hide Positions, AsksBrowser, PermissionFor, Flags;
    var at := Positions(doc, sources, |doc.steps|);
    var x :| 0 <= x < |at| && at[x] == i;
    var y :| 0 <= y < |at| && at[y] == j;
    assert x < y && calls[x].stepId == calls[y].stepId;
  }

  lemma SharedIsRepeat(doc: Document, sources: seq<Source>, p: map<string, Permission>, calls: seq<Call>, i: nat, j: nat)
    requires CallsAtPositions(doc, sources, p, calls)
    requires i < j < |calls| && calls[i].stepId == calls[j].stepId && Flags(calls[i]) != NO_PERMISSION
    ensures RepeatsPermitted(doc, sources, p)
  {
    hide Positions, AsksBrowser, PermissionFor, Flags;
    var at := Positions(doc, sources, |doc.steps|);
    assert at[i] < at[j];
    assert RepeatsAt(doc, sources, p, at[i], at[j]);
  }

  lemma SharedWhenRepeated(doc: Document, sources: seq<Source>, p: map<string, Permission>, calls: seq<Call>)
    requires CallsAtPositions(doc, sources, p, calls)
    ensures SharedPermission(calls) <==> RepeatsPermitted(doc, sources, p)
  {
    hide CallsAtPositions, RepeatsAt, Flags;
    if RepeatsPermitted(doc, sources, p) {
      var i, j :| RepeatsAt(doc, sources, p, i, j);
      RepeatBounds(doc, sources, p, i, j);
      RepeatIsShared(doc, sources, p, calls, i, j);
    }
    if SharedPermission(calls) {
      var i, j :| 0 <= i < j < |calls| && calls[i].stepId == calls[j].stepId && Flags(calls[i]) != NO_PERMISSION;
      SharedIsRepeat(doc, sources, p, calls, i, j);
    }
  }

  lemma RepeatBounds(doc: Document, sources: seq<Source>, p: map<string, Permission>, i: int, j: int)
    requires RepeatsAt(doc, sources, p, i, j)
    ensures 0 <= i < j && doc.steps[i].id == doc.steps[j].id
  {
  }

  /** So whether permissions can be read back is settled by the workflow and the options. */
  lemma SharedIffRepeated(w: World, doc: Document, sha: string, sources: seq<Source>, p: map<string, Permission>, reviews: seq<Artifact>)
    requires Derive(w, Some(doc), sha, sources, p, reviews).Success?
    ensures SharedPermission(Derive(w, Some(doc), sha, sources, p, reviews).supplement.calls) <==> RepeatsPermitted(doc, sources, p)
  {
    DerivedFlags(w, Some(doc), sha, sources, p, reviews);
    hide Walk, Refs, Sort, PermissionFor, Positions, Flags, RepeatsAt, SharedPermission, RepeatsPermitted;
    CallsOfPositions(w, doc, sources, p, |doc.steps|);
    var calls := Walk(w, doc, sources, p, |doc.steps|).value.calls;
    SharedWhenRepeated(doc, sources, p, calls);
  }

  /** What was written is accepted, from the sources in any order, exactly when no two
      browser steps share an id that has a permission. */
  lemma WrittenIsAccepted(w: World, doc: Document, sha: string, a: seq<Source>, b: seq<Source>, c: Codec, options: Option<Options>)
    requires Lossless(c) && SameSources(a, b) && Added(w, Some(doc), sha, a, c, options).Written?
    ensures var r := Added(w, Some(doc), sha, a, c, options);
            Accepts(w, Some(doc), sha, b, c, r.reviews, r.bytes)
            <==> !RepeatsPermitted(doc, a, if options.Some? then options.value.permissions else map[])
  {
    hide Derive, SharedPermission, RepeatsPermitted, SameSources;
    var permissions := if options.Some? then options.value.permissions else map[];
    var r := Added(w, Some(doc), sha, a, c, options);
    var s := Derive(w, Some(doc), sha, a, permissions, r.reviews).supplement;
    assert c.decode(c.encode(s)) == Some(s);
    ReadBackDerives(w, Some(doc), sha, a, permissions, r.reviews);
    SourceOrderIsImmaterial(w, Some(doc), sha, a, b, LastFlags(s.calls), r.reviews);
    SharedIffRepeated(w, doc, sha, a, permissions, r.reviews);
  }

  /** With distinct step ids everything that was written is accepted. */
  lemma DistinctStepsAreAccepted(w: World, doc: Document, sha: string, a: seq<Source>, b: seq<Source>, c: Codec, options: Option<Options>)
    requires Lossless(c) && SameSources(a, b) && Added(w, Some(doc), sha, a, c, options).Written?
    requires forall i, j :: 0 <= i < j < |doc.steps| ==> doc.steps[i].id != doc.steps[j].id
    ensures var r := Added(w, Some(doc), sha, a, c, options); Accepts(w, Some(doc), sha, b, c, r.reviews, r.bytes)
  {
    hide SameSources, Accepts, Added, AsksBrowser;
    WrittenIsAccepted(w, doc, sha, a, b, c, options);
  }

  // ---------- A supplement that is written and then refused ----------

  function SignIn(operation: string, session: string): Operation {
    Operation(operation, "call", AuthenticationForm(true, "login.json", "login", session, map[]), true, false)
  }

  /** Two steps with one id sign in to two sessions. */
  function RepeatedStep(): Document {
    Document([SignIn("p", "one"), SignIn("q", "two")], [Step("s", "p", true), Step("s", "q", true)])
  }

  function LoginShape(): Shape {
    Shape("login", "", Selector("id", "login", "login"), Authentication, "uws.browser-authentication.1.0", "", [], [], "", false, [])
  }

  function LoginWorld(): World {
    World(_ => Some(LoginShape()), _ => "uws.browser-authentication.1.0", _ => "call", _ => "")
  }

  function SignedIn(operation: string, session: string): Call {
    var shape := LoginShape();
    CallFrom(Step("s", operation, true), SignIn(operation, session), shape, Asks(Selected("login", "", "login"), map[], session, ""), "", [])
      .(reuseAllowed := true)
  }

  const LOGIN := Source("login", BrowserProfile, "login.json", "")
  const REUSE: map<string, Permission> := map["s" := Permission(true, false)]

  lemma SignInIsDerived(operation: string, session: string, sessions: map<string, string>)
    requires AuthorityId(session) && session !in sessions
    ensures BrowserCall(LoginWorld(), [LOGIN], Step("s", operation, true), SignIn(operation, session), sessions)
            == Made(SignedIn(operation, session).(reuseAllowed := false))
  {
    assert SourceAt("login.json", [LOGIN]) == Some(LOGIN);
    assert Protocols("uws.browser-authentication.1.0").0 == "udon.browser-driver.v2";
    assert |Protocols("uws.browser-authentication.1.0").0| == 22;
  }

  lemma SignInAdvances(p: Progress, operation: string, session: string)
    requires AuthorityId(session) && session !in p.sessions && operation !in p.used
    requires OperationNamed(RepeatedStep().operations, operation) == Some(SignIn(operation, session))
    ensures Advance(LoginWorld(), RepeatedStep(), [LOGIN], REUSE, p, Step("s", operation, true))
            == Some(Progress(p.sessions[session := "login"], p.used + {operation}, p.seen + {"s"}, p.calls + [SignedIn(operation, session)]))
  {
    SignInIsDerived(operation, session, p.sessions);
    hide BrowserCall, Protocols;
    assert |session| > 0;
  }

  function SignedInOnce(): Progress {
    Progress(map[]["one" := "login"], {} + {"p"}, {} + {"s"}, [] + [SignedIn("p", "one")])
  }

  function SignedInTwice(): Progress {
    var p := SignedInOnce();
    Progress(p.sessions["two" := "login"], p.used + {"q"}, p.seen + {"s"}, p.calls + [SignedIn("q", "two")])
  }

  lemma SignsInTwice()
    ensures Walk(LoginWorld(), RepeatedStep(), [LOGIN], REUSE, 2) == Some(SignedInTwice())
  {
    assert RepeatedStep().steps[0] == Step("s", "p", true) && RepeatedStep().steps[1] == Step("s", "q", true);
    NoSteps(LoginWorld(), RepeatedStep(), [LOGIN], REUSE);
    WalkStep(LoginWorld(), RepeatedStep(), [LOGIN], REUSE, 0);
    WalkStep(LoginWorld(), RepeatedStep(), [LOGIN], REUSE, 1);
    SignInsAdvance();
    hide *;
  }

  lemma SignInsAdvance()
    ensures Advance(LoginWorld(), RepeatedStep(), [LOGIN], REUSE, Progress(map[], {}, {}, []), Step("s", "p", true)) == Some(SignedInOnce())
    ensures Advance(LoginWorld(), RepeatedStep(), [LOGIN], REUSE, SignedInOnce(), Step("s", "q", true)) == Some(SignedInTwice())
  {
    FindsSignIns();
    SignInAdvances(Progress(map[], {}, {}, []), "p", "one");
    SignInAdvances(SignedInOnce(), "q", "two");
    hide Advance, SignedIn, SignIn, RepeatedStep, LoginWorld;
  }

  lemma FindsSignIns()
    ensures OperationNamed(RepeatedStep().operations, "p") == Some(SignIn("p", "one"))
    ensures OperationNamed(RepeatedStep().operations, "q") == Some(SignIn("q", "two"))
    ensures AuthorityId("one") && AuthorityId("two") && "p" != "q" && "one" != "two"
  {
    assert "p"[0] != "q"[0] && "one"[0] != "two"[0];
  }

  lemma SignedInTwiceCompletes()
    ensures BrowserSupplement.Complete(RepeatedStep(), REUSE, SignedInTwice())
    ensures SignedInTwice().calls == [SignedIn("p", "one"), SignedIn("q", "two")]
  {
    hide SignedIn;
    assert SignedInTwice().seen == {"s"} == REUSE.Keys;
    assert |REUSE.Keys| == |REUSE|;
  }

  function LoginRefs(): seq<SourceRef> {
    [SourceRef("login", "login.json", "", "uws.browser-authentication.1.0")]
  }

  lemma LoginIsListed()
    ensures Refs(LoginWorld(), [LOGIN]) == LoginRefs() == Sort(ById, LoginRefs())
    ensures LoginRefs() != [] && forall i :: 0 <= i < |LoginRefs()| ==> LoginRefs()[i].profileVersion != ""
  {
    assert Refs(LoginWorld(), [LOGIN][..0]) == [];
    assert |LoginRefs()[0].profileVersion| > 0;
  }

  lemma DistinctSignIns()
    ensures UniqueOperations(RepeatedStep()) && |RepeatedStep().steps| == 2
  {
    assert "p"[0] != "q"[0];
  }

  lemma RepeatedStepDerives(sha: string)
    ensures Derive(LoginWorld(), Some(RepeatedStep()), sha, [LOGIN], REUSE, []) == Success(TwiceSupplement(sha))
  {
    SignsInTwice();
    SignedInTwiceCompletes();
    LoginIsListed();
    DistinctSignIns();
    hide Walk, Refs, Sort, BrowserSupplement.Complete, UniqueOperations, Derive, SignedInTwice, SignedIn, LoginWorld, RepeatedStep, LoginRefs;
    DerivesFrom(LoginWorld(), RepeatedStep(), sha, [LOGIN], REUSE, SignedInTwice());
  }

  lemma DerivesFrom(w: World, doc: Document, sha: string, sources: seq<Source>, permissions: map<string, Permission>, p: Progress)
    requires Walk(w, doc, sources, permissions, |doc.steps|) == Some(p) && BrowserSupplement.Complete(doc, permissions, p)
    requires Refs(w, sources) != [] && UniqueOperations(doc)
    requires forall i :: 0 <= i < |Refs(w, sources)| ==> Refs(w, sources)[i].profileVersion != ""
    ensures Derive(w, Some(doc), sha, sources, permissions, []) == Success(Supplement(sha, Sort(ById, Refs(w, sources)), p.calls, []))
  {
    hide Walk, Refs, Sort, BrowserSupplement.Complete, UniqueOperations;
  }

  /** What the two sign-ins derive. */
  function TwiceSupplement(sha: string): Supplement {
    Supplement(sha, LoginRefs(), [SignedIn("p", "one"), SignedIn("q", "two")], [])
  }

  lemma RepeatedStepRepeats()
    ensures RepeatsPermitted(RepeatedStep(), [LOGIN], REUSE)
  {
    assert SourceAt("login.json", [LOGIN]) == Some(LOGIN);
    assert "p"[0] != "q"[0];
    assert RepeatsAt(RepeatedStep(), [LOGIN], REUSE, 0, 1);
  }

  /** That document is written by every lossless codec the supplement fits in, and what was
      written is refused. */
  lemma RepeatedStepIsRefused(c: Codec, sha: string)
    requires Lossless(c) && |c.encode(TwiceSupplement(sha))| <= MAX_BYTES
    ensures var r := Added(LoginWorld(), Some(RepeatedStep()), sha, [LOGIN], c, Some(Options(REUSE, [])));
            r.Written? && !Accepts(LoginWorld(), Some(RepeatedStep()), sha, [LOGIN], c, r.reviews, r.bytes)
  {
    RepeatedStepDerives(sha);
    RepeatedStepRepeats();
    var w, doc := LoginWorld(), RepeatedStep();
    hide Derive, LoginWorld, RepeatedStep, TwiceSupplement, Accepts, RepeatsPermitted;
    WrittenIsAccepted(w, doc, sha, [LOGIN], [LOGIN], c, Some(Options(REUSE, [])));
  }

  /** What is accepted could have been written, from the permissions it carries. */
  lemma AcceptedIsWritable(w: World, doc: Option<Document>, sha: string, sources: seq<Source>, c: Codec, reviews: seq<Artifact>, bytes: seq<bv8>)
    requires Accepts(w, doc, sha, sources, c, reviews, bytes)
    requires forall i, j :: 0 <= i < j < |reviews| ==> Less(reviews[i].path, reviews[j].path)
    ensures var s := c.decode(bytes).value;
            Added(w, doc, sha, sources, c, Some(Options(LastFlags(s.calls), reviews))) == Written(bytes, reviews)
  {
    hide Derive;
    ReviewsStaySorted(reviews);
  }

  lemma IncreasingPaths(reviews: seq<Artifact>)
    requires forall i, j :: 0 <= i < j < |reviews| ==> Less(reviews[i].path, reviews[j].path)
    ensures Sorted(ByPath, reviews)
    ensures forall a, b :: a in reviews && b in reviews && ByPath(a, b) && ByPath(b, a) ==> a == b
  {
    hide Less;
    forall a, b | a in reviews && b in reviews && ByPath(a, b) && ByPath(b, a) ensures a == b {
      LessTotal(a.path, b.path);
    }
  }

  lemma ReviewsStaySorted(reviews: seq<Artifact>)
    requires forall i, j :: 0 <= i < j < |reviews| ==> Less(reviews[i].path, reviews[j].path)
    ensures Sort(ByPath, reviews) == reviews
  {
    ByPathOrders();
    IncreasingPaths(reviews);
    hide *;
    SortOfSorted(ByPath, reviews);
  }

  // ---------- What the run checker may rely on ----------

  /** Every resolved shape names its source. */
  ghost predicate NamesSources(w: World) {
    forall selected :: w.resolve(selected).Some? ==> w.resolve(selected).value.sourceId != ""
  }

  /** The sessions map holds the source of each session's one authentication. */
  predicate Authenticated(calls: seq<Call>, sessions: map<string, string>) {
    && SessionDiscipline(calls)
    && (forall name :: name in sessions ==> sessions[name] != "")
    && (forall i :: 0 <= i < |calls| && calls[i].kind.Authentication? ==> calls[i].sessionName in sessions)
    && (forall name :: name in sessions ==> exists j :: 0 <= j < |calls| && Authenticates(calls[j], name) && calls[j].sourceId == sessions[name])
  }

  lemma DisciplineNext(calls: seq<Call>, sessions: map<string, string>, c: Call)
    requires Authenticated(calls, sessions)
    requires c.kind.Authentication? ==> SessionSource(sessions, c.sessionName) == ""
    requires c.kind.Action? && c.sessionName != "" ==> SessionSource(sessions, c.sessionName) == c.authenticationSourceId != ""
    ensures SessionDiscipline(calls + [c])
  {
    var more := calls + [c];
    forall i | 0 <= i < |more| && more[i].kind.Action? && more[i].sessionName != ""
      ensures exists j :: 0 <= j < i && Authenticates(more[j], more[i].sessionName) && more[j].sourceId == more[i].authenticationSourceId
    {
      var name, source := more[i].sessionName, more[i].authenticationSourceId;
      var j :| 0 <= j < i && j < |calls| && Authenticates(calls[j], name) && calls[j].sourceId == source;
      assert more[j] == calls[j];
    }
  }

  lemma AuthenticatedNext(calls: seq<Call>, sessions: map<string, string>, c: Call)
    requires Authenticated(calls, sessions)
    requires c.kind.Authentication? ==> c.sourceId != "" && SessionSource(sessions, c.sessionName) == ""
    requires c.kind.Action? && c.sessionName != "" ==> SessionSource(sessions, c.sessionName) == c.authenticationSourceId != ""
    ensures Authenticated(calls + [c], if c.kind.Authentication? then sessions[c.sessionName := c.sourceId] else sessions)
  {
    DisciplineNext(calls, sessions, c);
    hide SessionDiscipline;
    var more := calls + [c];
    var after := if c.kind.Authentication? then sessions[c.sessionName := c.sourceId] else sessions;
    forall name | name in after ensures exists j :: 0 <= j < |more| && Authenticates(more[j], name) && more[j].sourceId == after[name] {
      if c.kind.Authentication? && name == c.sessionName {
        assert Authenticates(more[|calls|], name);
      } else {
        var j :| 0 <= j < |calls| && Authenticates(calls[j], name) && calls[j].sourceId == sessions[name];
        assert more[j] == calls[j];
      }
    }
  }

  lemma MadeChecked(w: World, sources: seq<Source>, step: Step, op: Operation, sessions: map<string, string>)
    requires NamesSources(w) && BrowserCall(w, sources, step, op, sessions).Made?
    ensures var c := BrowserCall(w, sources, step, op, sessions).call;
            && (c.kind.Authentication? ==> c.sourceId != "" && SessionSource(sessions, c.sessionName) == "")
            && (c.kind.Action? && c.sessionName != "" ==> SessionSource(sessions, c.sessionName) == c.authenticationSourceId != "")
  {
    hide SlotsFor, RequestOf;
  }

  lemma AdvanceAuthenticated(w: World, doc: Document, sources: seq<Source>, permissions: map<string, Permission>, p: Progress, step: Step)
    requires NamesSources(w) && Authenticated(p.calls, p.sessions) && Advance(w, doc, sources, permissions, p, step).Some?
    ensures var after := Advance(w, doc, sources, permissions, p, step).value; Authenticated(after.calls, after.sessions)
  {
    hide Authenticated, BrowserCall, FlatEnough, PermissionFits, NamesSources;
    var op := OperationNamed(doc.operations, step.operation).value;
    var d := BrowserCall(w, sources, step, op, p.sessions);
    if d.Made? {
      MadeChecked(w, sources, step, op, p.sessions);
      var permission := PermissionFor(permissions, step.id);
      AuthenticatedNext(p.calls, p.sessions, d.call.(reuseAllowed := permission.reuse, saveAllowed := permission.save));
    }
  }

  lemma {:induction false} WalkAuthenticated(w: World, doc: Document, sources: seq<Source>, permissions: map<string, Permission>, n: nat)
    requires NamesSources(w) && n <= |doc.steps| && Walk(w, doc, sources, permissions, n).Some?
    ensures var p := Walk(w, doc, sources, permissions, n).value; Authenticated(p.calls, p.sessions)
  {
    hide Advance, NamesSources;
    if n > 0 {
      WalkAuthenticated(w, doc, sources, permissions, n - 1);
      AdvanceAuthenticated(w, doc, sources, permissions, Walk(w, doc, sources, permissions, n - 1).value, doc.steps[n - 1]);
    }
  }

  /** In a derived supplement every action with a session points to the source of the one
      earlier authentication of that session. */
  lemma DerivedCallsAreDisciplined(w: World, doc: Option<Document>, sha: string, sources: seq<Source>,
                                   permissions: map<string, Permission>, reviews: seq<Artifact>)
    requires NamesSources(w) && Derive(w, doc, sha, sources, permissions, reviews).Success?
    ensures SessionDiscipline(Derive(w, doc, sha, sources, permissions, reviews).supplement.calls)
  {
    hide Walk, Refs, Sort;
    WalkAuthenticated(w, doc.value, sources, permissions, |doc.value.steps|);
  }

  /** So a valid configuration of derived calls never lacks a session binding for duplicate
      or mismatched authentication or for missing credential revisions. */
  lemma DerivedCallsBind(w: World, doc: Option<Document>, sha: string, sources: seq<Source>, permissions: map<string, Permission>,
                         reviews: seq<Artifact>, canonical: string -> bool, config: Config, independent: Option<Binding>)
    requires NamesSources(w) && Derive(w, doc, sha, sources, permissions, reviews).Success?
    requires config.calls == Derive(w, doc, sha, sources, permissions, reviews).supplement.calls && ConfigValid(canonical, config)
    ensures var r := ExpectedBinding(config, independent);
            !r.DuplicateAuthentication? && !r.MismatchedAuthentication? && !r.MissingRevisions?
  {
    hide Derive, ConfigValid, ExpectedBinding;
    DerivedCallsAreDisciplined(w, doc, sha, sources, permissions, reviews);
    BindingNeverLacksAuthentication(canonical, config, independent);
  }
}
