/** What a derived browser call is made of, and exactly when a step derives one
    (packagev3/browser.go). */
module SupplementMeaning {
  import opened Common
  import opened BrowserContract
  import opened BrowserSupplement
  import opened SupplementAgreement
  import opened Digests

  // ---------- What an operation asks for ----------

  /** The first listed source with this property. */
  predicate FirstSource(sources: seq<Source>, test: Source -> bool, s: Source) {
    exists k :: 0 <= k < |sources| && sources[k] == s && test(s) && forall i :: 0 <= i < k ==> !test(sources[i])
  }

  function BrowserAt(path: string): Source -> bool {
    (s: Source) => s.kind == BrowserProfile && s.path == path
  }

  function WithId(id: string): Source -> bool {
    (s: Source) => s.id == id
  }

  lemma {:induction false} SourceAtIs(path: string, sources: seq<Source>, s: Source)
    ensures SourceAt(path, sources) == Some(s) <==> FirstSource(sources, BrowserAt(path), s)
  {
    FirstIs(sources, BrowserAt(path), s);
    if sources != [] && !BrowserAt(path)(sources[0]) { SourceAtIs(path, sources[1..], s); }
  }

  lemma {:induction false} SourceNamedIs(id: string, sources: seq<Source>, s: Source)
    ensures SourceNamed(id, sources) == Some(s) <==> FirstSource(sources, WithId(id), s)
  {
    FirstIs(sources, WithId(id), s);
    if sources != [] && !WithId(id)(sources[0]) { SourceNamedIs(id, sources[1..], s); }
  }

  lemma FirstIs(sources: seq<Source>, test: Source -> bool, s: Source)
    ensures sources == [] ==> !FirstSource(sources, test, s)
    ensures sources != [] && test(sources[0]) ==> (FirstSource(sources, test, s) <==> s == sources[0])
    ensures sources != [] && !test(sources[0]) ==> (FirstSource(sources, test, s) <==> FirstSource(sources[1..], test, s))
  {
    if sources != [] && !test(sources[0]) {
      if FirstSource(sources, test, s) {
        var k :| 0 <= k < |sources| && sources[k] == s && test(s) && forall i :: 0 <= i < k ==> !test(sources[i]);
        assert sources[1..][k - 1] == s;
      }
      if FirstSource(sources[1..], test, s) {
        var k :| 0 <= k < |sources[1..]| && sources[1..][k] == s && test(s) && forall i :: 0 <= i < k ==> !test(sources[1..][i]);
        forall i | 0 <= i < k + 1 ensures !test(sources[i]) {
          assert i > 0 ==> sources[i] == sources[1..][i - 1];
        }
        assert sources[k + 1] == s;
      }
    } else if sources != [] {
      assert sources[0] == sources[0];
    }
  }

  /** The operation asks the resolver for this, with these credentials, session and input: a
      sign-in or registration names its profile by path and its flow, any other operation its
      source by id and an action by name or by reference. */
  ghost predicate AsksFor(sources: seq<Source>, op: Operation, r: Request)
    requires r.Asks?
  {
    match op.form
    case AuthenticationForm(proper, path, flow, session, credentials) =>
      && proper && r.credentials == credentials && r.session == session && r.input == ""
      && exists s :: FirstSource(sources, BrowserAt(path), s) && r.selected == Selected(s.id, s.sha, flow)
    case RegistrationForm(proper, path, flow, input, credentials) =>
      && proper && r.credentials == credentials && r.session == "" && r.input == input
      && exists s :: FirstSource(sources, BrowserAt(path), s) && r.selected == Selected(s.id, s.sha, flow)
    case SourceForm(id, isRef, selector, extension) =>
      && r.credentials == map[] && r.input == "" && extension != Malformed
      && r.session == (if extension.SessionNamed? then extension.name else "")
      && exists s :: FirstSource(sources, WithId(id), s) && s.kind == BrowserProfile && r.selected.sourceId == id && r.selected.sourceSha == s.sha
                     && ActionNamed(isRef, selector, r.selected.value)
    case NoForm => false
  }

  /** A reference is "#/actions/" and a name without `/` and `~`. */
  predicate ActionNamed(isRef: bool, selector: string, name: string) {
    if isRef then selector == "#/actions/" + name && '/' !in name && '~' !in name else selector == name
  }

  lemma ActionOfIs(selector: string, name: string)
    ensures ActionOf(selector) == Some(name) <==> ActionNamed(true, selector, name)
  {
    var prefix := "#/actions/";
    assert |prefix| == 10;
    if ActionNamed(true, selector, name) {
      assert selector[|prefix|..] == name && forall i :: |prefix| <= i < |selector| ==> selector[i] == name[i - |prefix|];
    }
    if ActionOf(selector) == Some(name) {
      assert selector == prefix + name && forall i :: 0 <= i < |name| ==> name[i] == selector[|prefix| + i];
    }
  }

  lemma RequestIs(sources: seq<Source>, op: Operation, r: Request)
    requires r.Asks?
    ensures RequestOf(sources, op) == r <==> AsksFor(sources, op, r)
  {
    match op.form {
      case AuthenticationForm(_, path, _, _, _) =>
        forall s ensures SourceAt(path, sources) == Some(s) <==> FirstSource(sources, BrowserAt(path), s) { SourceAtIs(path, sources, s); }
      case RegistrationForm(_, path, _, _, _) =>
        forall s ensures SourceAt(path, sources) == Some(s) <==> FirstSource(sources, BrowserAt(path), s) { SourceAtIs(path, sources, s); }
      case SourceForm(id, _, selector, _) =>
        forall s ensures SourceNamed(id, sources) == Some(s) <==> FirstSource(sources, WithId(id), s) { SourceNamedIs(id, sources, s); }
        forall s | SourceNamed(id, sources) == Some(s) ensures s.id == id { }
        ActionOfIs(selector, r.selected.value);
      case NoForm =>
    }
    hide SourceAt, SourceNamed, FirstSource, ActionOf;
  }

  /** An operation does not concern the browser exactly when it has no browser form, or its
      source is of another kind that operations may have. */
  lemma NotBrowserIs(sources: seq<Source>, op: Operation)
    ensures RequestOf(sources, op) == NotBrowser <==>
            op.form == NoForm || (op.form.SourceForm? && exists s :: FirstSource(sources, WithId(op.form.sourceId), s) && s.kind == ApiSource)
  {
    if op.form.SourceForm? {
      forall s ensures SourceNamed(op.form.sourceId, sources) == Some(s) <==> FirstSource(sources, WithId(op.form.sourceId), s) {
        SourceNamedIs(op.form.sourceId, sources, s);
      }
    }
    hide SourceAt, SourceNamed, FirstSource, ActionOf;
  }

  // ---------- What a call is ----------

  /** The driver protocols of each profile version. */
  predicate ProtocolRow(version: string, outer: string, inner: string) {
    || (version == "uws.browser-authentication.1.0" && outer == "udon.browser-driver.v2" && inner == "")
    || (version == "uws.browser-authentication.1.1" && outer == "udon.browser-driver.v3" && inner == "")
    || (version in {"uws.browser.1.5", "uws.browser.1.6", "uws.browser.1.7"} && outer == "udon.browser-driver.v3" && inner == "udon.browser-driver.v2")
    || (version in {"uws.browser.1.8", "uws.browser.1.9"} && outer == "udon.browser-driver.v10" && inner == "udon.browser-driver.v3")
    || (version == "uws.browser.1.10" && outer == "udon.browser-driver.v11" && inner == "udon.browser-driver.v4")
    || (version == "uws.browser-registration.1.0" && outer == "udon.browser-driver.v4" && inner == "")
    || (version == "uws.browser-registration.1.1" && outer == "udon.browser-driver.v5" && inner == "")
    || (version == "uws.browser-registration.1.2" && outer == "udon.browser-driver.v6" && inner == "")
  }

  lemma ProtocolsAre(version: string, outer: string, inner: string)
    ensures Protocols(version) == (outer, inner) && outer != "" <==> ProtocolRow(version, outer, inner)
  {
    assert |"udon.browser-driver.v2"| == 22 && |"udon.browser-driver.v10"| == 23;
    VersionsDiffer();
  }

  lemma VersionsDiffer()
    ensures "uws.browser.1.5" != "uws.browser.1.6" && "uws.browser.1.5" != "uws.browser.1.7" && "uws.browser.1.6" != "uws.browser.1.7"
    ensures "uws.browser.1.8" != "uws.browser.1.9"
  {
    assert "uws.browser.1.5"[14] == '5' && "uws.browser.1.6"[14] == '6' && "uws.browser.1.7"[14] == '7';
    assert "uws.browser.1.8"[14] == '8' && "uws.browser.1.9"[14] == '9';
  }

  /** Everything the call takes from the resolved shape. */
  predicate FromShape(c: Call, shape: Shape) {
    && c.kind == shape.kind && c.sourceId == shape.sourceId && c.sourceSha == shape.sourceSha && c.profileVersion == shape.profileVersion
    && c.selector == shape.selector && c.selectedSha == shape.selectedSha && c.origins == shape.origins && c.effects == shape.effects
    && c.confirmationSha == shape.confirmationSha && ProtocolRow(shape.profileVersion, c.outerProtocol, c.innerProtocol)
  }

  /** What it takes from the step and its operation. */
  predicate FromStep(c: Call, step: Step, op: Operation) {
    c.stepId == step.id && c.operationId == op.id && c.invocationId == step.id
  }

  /** One credential per slot of the profile, in the profile's order. */
  predicate Credentialed(c: Call, slots: seq<string>, credentials: map<string, string>) {
    && |credentials| == |slots| && |c.credentialSlots| == |slots|
    && forall k :: 0 <= k < |slots| ==>
         && c.credentialSlots[k].slot == slots[k] && slots[k] in credentials && c.credentialSlots[k].name == credentials[slots[k]]
         && AuthorityId(credentials[slots[k]])
  }

  /** The session rules of each kind, given the source that has signed in to each session. */
  predicate InSession(w: World, c: Call, op: Operation, shape: Shape, signedIn: map<string, string>) {
    var already := c.sessionName in signedIn && signedIn[c.sessionName] != "";
    && (shape.kind == Authentication ==>
          AuthorityId(c.sessionName) && !already && op.profile == w.authenticationProfile(shape.profileVersion) && c.authenticationSourceId == "")
    && (shape.kind == Registration ==>
          && op.profile == w.registrationProfile(shape.profileVersion) && c.authenticationSourceId == ""
          && (shape.profileVersion == "uws.browser-registration.1.0" || AuthorityId(c.registrationInput)))
    && (shape.kind == Action && c.sessionName == "" ==> !shape.authenticationRequired && c.authenticationSourceId == "")
    && (shape.kind == Action && c.sessionName != "" ==> already && c.authenticationSourceId == signedIn[c.sessionName])
  }

  /** The call of a step, before permissions. */
  ghost predicate IsCall(w: World, sources: seq<Source>, step: Step, op: Operation, signedIn: map<string, string>, c: Call, r: Request, shape: Shape) {
    && r.Asks? && AsksFor(sources, op, r) && w.resolve(r.selected) == Some(shape)
    && FromStep(c, step, op) && FromShape(c, shape) && Credentialed(c, shape.slots, r.credentials)
    && c.sessionName == r.session && c.registrationInput == r.input && !c.reuseAllowed && !c.saveAllowed
    && InSession(w, c, op, shape, signedIn)
  }

  ghost predicate HasCall(w: World, sources: seq<Source>, step: Step, op: Operation, signedIn: map<string, string>, c: Call) {
    exists r, shape :: IsCall(w, sources, step, op, signedIn, c, r, shape)
  }

  lemma {:induction false} SlotsAre(slots: seq<string>, credentials: map<string, string>, bound: seq<CredentialSlot>)
    ensures SlotsFor(slots, credentials) == Some(bound) <==>
            && |bound| == |slots|
            && forall k :: 0 <= k < |slots| ==>
                 bound[k].slot == slots[k] && slots[k] in credentials && bound[k].name == credentials[slots[k]] && AuthorityId(credentials[slots[k]])
    decreases |slots|
  {
    hide AuthorityId;
    if slots != [] {
      var front, last := slots[..|slots| - 1], slots[|slots| - 1];
      if bound != [] {
        SlotsAre(front, credentials, bound[..|bound| - 1]);
        assert bound == bound[..|bound| - 1] + [bound[|bound| - 1]];
      }
      if SlotsFor(front, credentials).Some? { SlotsAre(front, credentials, SlotsFor(front, credentials).value); }
    }
  }

  lemma SessionIs(w: World, op: Operation, shape: Shape, r: Request, signedIn: map<string, string>, c: Call)
    requires r.Asks? && c.sessionName == r.session && c.registrationInput == r.input
    ensures SessionCheck(w, op, shape, r.session, r.input, signedIn) == Some(c.authenticationSourceId) <==> InSession(w, c, op, shape, signedIn)
  {
    hide AuthorityId;
  }

  /** A call is made exactly when there is one, and that is it. */
  lemma MadeIs(w: World, sources: seq<Source>, step: Step, op: Operation, signedIn: map<string, string>, c: Call)
    ensures BrowserCall(w, sources, step, op, signedIn) == Made(c) <==> HasCall(w, sources, step, op, signedIn, c)
  {
    var r := RequestOf(sources, op);
    if r.Asks? { RequestIs(sources, op, r); }
    if r.Asks? && w.resolve(r.selected).Some? { MadeFrom(w, sources, step, op, signedIn, c, r, w.resolve(r.selected).value); }
    forall q: Request, shape | q.Asks? && IsCall(w, sources, step, op, signedIn, c, q, shape) ensures q == r && w.resolve(r.selected) == Some(shape) {
      RequestIs(sources, op, q);
    }
    hide RequestOf, SessionCheck, SlotsFor, Protocols, CallFrom, IsCall;
    IsCallAsks(w, sources, step, op, signedIn, c);
  }

  lemma IsCallAsks(w: World, sources: seq<Source>, step: Step, op: Operation, signedIn: map<string, string>, c: Call)
    ensures forall r, shape :: IsCall(w, sources, step, op, signedIn, c, r, shape) ==> r.Asks?
  {
  }

  lemma MadeFrom(w: World, sources: seq<Source>, step: Step, op: Operation, signedIn: map<string, string>, c: Call, r: Request, shape: Shape)
    requires r == RequestOf(sources, op) && r.Asks? && w.resolve(r.selected) == Some(shape)
    ensures BrowserCall(w, sources, step, op, signedIn) == Made(c) <==> IsCall(w, sources, step, op, signedIn, c, r, shape)
  {
    RequestIs(sources, op, r);
    ProtocolsAre(shape.profileVersion, c.outerProtocol, c.innerProtocol);
    ProtocolsAre(shape.profileVersion, Protocols(shape.profileVersion).0, Protocols(shape.profileVersion).1);
    SlotsAre(shape.slots, r.credentials, c.credentialSlots);
    if c.sessionName == r.session && c.registrationInput == r.input { SessionIs(w, op, shape, r, signedIn, c); }
    hide RequestOf, SessionCheck, SlotsFor, Protocols, ProtocolRow, AsksFor, InSession, AuthorityId;
  }

  // ---------- Steps ----------

  /** The source that signed in to a session among the calls so far, the last one if several. */
  function SignedIn(calls: seq<Call>, name: string): string {
    if calls == [] then ""
    else
      var c := calls[|calls| - 1];
      if c.kind == Authentication && c.sessionName == name then c.sourceId else SignedIn(calls[..|calls| - 1], name)
  }

  /** The map of sessions says the same. */
  ghost predicate Tracks(p: Progress) {
    forall name :: SessionSource(p.sessions, name) == SignedIn(p.calls, name)
  }

  lemma AdvanceTracks(w: World, doc: Document, sources: seq<Source>, permissions: map<string, Permission>, p: Progress, step: Step)
    requires Tracks(p) && Advance(w, doc, sources, permissions, p, step).Some?
    ensures Tracks(Advance(w, doc, sources, permissions, p, step).value)
  {
    hide BrowserCall, FlatEnough, PermissionFits, OperationNamed;
    var after := Advance(w, doc, sources, permissions, p, step).value;
    if |after.calls| > |p.calls| {
      var c := after.calls[|p.calls|];
      assert after.calls[..|after.calls| - 1] == p.calls && c == after.calls[|after.calls| - 1];
      assert forall name :: SignedIn(after.calls, name) == (if c.kind == Authentication && c.sessionName == name then c.sourceId else SignedIn(p.calls, name));
    } else {
      assert after.calls == p.calls;
    }
  }

  lemma {:induction false} WalkTracks(w: World, doc: Document, sources: seq<Source>, permissions: map<string, Permission>, n: nat)
    requires n <= |doc.steps| && Walk(w, doc, sources, permissions, n).Some?
    ensures Tracks(Walk(w, doc, sources, permissions, n).value)
  {
    hide Advance;
    if n > 0 {
      WalkTracks(w, doc, sources, permissions, n - 1);
      AdvanceTracks(w, doc, sources, permissions, Walk(w, doc, sources, permissions, n - 1).value, doc.steps[n - 1]);
    }
  }

  /** Which permissions a call may carry. */
  predicate MayCarry(c: Call, p: Permission) {
    && (p.reuse ==> c.sessionName != "" && c.kind != Registration)
    && (p.save ==> c.sessionName != "" && c.kind == Authentication)
  }

  /** An operation is flat, or only timed and a sign-in of its own profile. */
  predicate RunsFlat(w: World, op: Operation, c: Option<Call>) {
    op.flat || (op.timed && c.Some? && c.value.kind == Authentication && op.profile == w.authenticationProfile(c.value.profileVersion))
  }

  /** One round of the loop: a flat step whose operation exists and was not used before either
      does not concern the browser, or adds its call with the step's permission. */
  lemma RoundIs(w: World, doc: Document, sources: seq<Source>, permissions: map<string, Permission>, p: Progress, step: Step, after: Progress, op: Operation)
    requires OperationNamed(doc.operations, step.operation) == Some(op)
    ensures Advance(w, doc, sources, permissions, p, step) == Some(after) <==>
            && step.flat && step.operation !in p.used && after.used == p.used + {step.operation}
            && (|| (RequestOf(sources, op) == NotBrowser && RunsFlat(w, op, None) && after.calls == p.calls && after.seen == p.seen && after.sessions == p.sessions)
                || exists c :: HasCall(w, sources, step, op, p.sessions, c) && Adds(w, permissions, p, step, after, op, c))
  {
    hide BrowserCall, HasCall, RequestOf, OperationNamed, Adds;
    var d := BrowserCall(w, sources, step, op, p.sessions);
    forall c ensures d == Made(c) <==> HasCall(w, sources, step, op, p.sessions, c) {
      MadeIs(w, sources, step, op, p.sessions, c);
    }
    SkippedIs(w, sources, step, op, p.sessions);
    if d.Made? {
      MadeRound(w, doc, sources, permissions, p, step, after, op, d.call);
    } else {
      OtherRound(w, doc, sources, permissions, p, step, after, op);
    }
    hide Advance;
  }

  lemma MadeRound(w: World, doc: Document, sources: seq<Source>, permissions: map<string, Permission>, p: Progress, step: Step, after: Progress,
                  op: Operation, c: Call)
    requires OperationNamed(doc.operations, step.operation) == Some(op) && BrowserCall(w, sources, step, op, p.sessions) == Made(c)
    ensures Advance(w, doc, sources, permissions, p, step) == Some(after) <==>
            && step.flat && step.operation !in p.used && after.used == p.used + {step.operation}
            && Adds(w, permissions, p, step, after, op, c)
  {
    hide BrowserCall, OperationNamed;
  }

  lemma OtherRound(w: World, doc: Document, sources: seq<Source>, permissions: map<string, Permission>, p: Progress, step: Step, after: Progress, op: Operation)
    requires OperationNamed(doc.operations, step.operation) == Some(op) && !BrowserCall(w, sources, step, op, p.sessions).Made?
    ensures Advance(w, doc, sources, permissions, p, step) == Some(after) <==>
            && step.flat && step.operation !in p.used && after.used == p.used + {step.operation}
            && BrowserCall(w, sources, step, op, p.sessions).Skipped? && RunsFlat(w, op, None)
            && after.calls == p.calls && after.seen == p.seen && after.sessions == p.sessions
  {
    hide BrowserCall, OperationNamed;
  }

  predicate Adds(w: World, permissions: map<string, Permission>, p: Progress, step: Step, after: Progress, op: Operation, c: Call) {
    var permission := if step.id in permissions then permissions[step.id] else Permission(false, false);
    && RunsFlat(w, op, Some(c)) && MayCarry(c, permission)
    && after.calls == p.calls + [c.(reuseAllowed := permission.reuse, saveAllowed := permission.save)]
    && after.seen == (if step.id in permissions then p.seen + {step.id} else p.seen)
    && after.sessions == (if c.kind == Authentication then p.sessions[c.sessionName := c.sourceId] else p.sessions)
  }

  lemma SkippedIs(w: World, sources: seq<Source>, step: Step, op: Operation, signedIn: map<string, string>)
    ensures BrowserCall(w, sources, step, op, signedIn).Skipped? <==> RequestOf(sources, op) == NotBrowser
  {
    hide RequestOf, SessionCheck, SlotsFor, Protocols;
  }

  // ---------- The whole derivation ----------

  /** The operations the first n steps use. */
  lemma {:induction false} WalkUses(w: World, doc: Document, sources: seq<Source>, permissions: map<string, Permission>, n: nat)
    requires n <= |doc.steps| && Walk(w, doc, sources, permissions, n).Some?
    ensures forall id :: id in Walk(w, doc, sources, permissions, n).value.used <==> exists k :: 0 <= k < n && doc.steps[k].operation == id
  {
    hide BrowserCall, FlatEnough, PermissionFits, OperationNamed;
    if n > 0 {
      WalkUses(w, doc, sources, permissions, n - 1);
      WalkStep(w, doc, sources, permissions, n - 1);
      hide Walk;
    }
  }

  ghost predicate EndsWell(doc: Document, permissions: map<string, Permission>, calls: seq<Call>) {
    && (forall id :: id in permissions ==> exists i :: 0 <= i < |calls| && calls[i].stepId == id)
    && 1 <= |calls| <= 100
    && forall m :: 0 <= m < |doc.operations| ==> exists k :: 0 <= k < |doc.steps| && doc.steps[k].operation == doc.operations[m].id
  }

  lemma CompleteIs(w: World, doc: Document, sources: seq<Source>, permissions: map<string, Permission>)
    requires Walk(w, doc, sources, permissions, |doc.steps|).Some?
    ensures var p := Walk(w, doc, sources, permissions, |doc.steps|).value;
            BrowserSupplement.Complete(doc, permissions, p) <==> EndsWell(doc, permissions, p.calls)
  {
    var p := Walk(w, doc, sources, permissions, |doc.steps|).value;
    WalkUses(w, doc, sources, permissions, |doc.steps|);
    WalkPermitted(w, doc, sources, permissions, |doc.steps|);
    hide Walk;
    assert p.seen <= permissions.Keys && |permissions.Keys| == |permissions|;
    if |p.seen| == |permissions| { SubsetOfSameSize(p.seen, permissions.Keys); }
    if permissions.Keys <= CallSteps(p.calls) { assert p.seen == permissions.Keys; }
  }

  /** A profile among the sources, and a version for each. */
  predicate Listed(w: World, sources: seq<Source>) {
    && (exists k :: 0 <= k < |sources| && sources[k].kind == BrowserProfile)
    && forall k :: 0 <= k < |sources| && sources[k].kind == BrowserProfile ==> w.version(sources[k].id) != ""
  }

  lemma {:induction false} RefsAreListed(w: World, sources: seq<Source>)
    ensures Refs(w, sources) != [] <==> exists k :: 0 <= k < |sources| && sources[k].kind == BrowserProfile
    ensures (forall i :: 0 <= i < |Refs(w, sources)| ==> Refs(w, sources)[i].profileVersion != "")
            <==> forall k :: 0 <= k < |sources| && sources[k].kind == BrowserProfile ==> w.version(sources[k].id) != ""
  {
    if sources != [] {
      var front, last := sources[..|sources| - 1], sources[|sources| - 1];
      RefsAreListed(w, front);
      assert forall k :: 0 <= k < |front| ==> front[k] == sources[k];
      var refs, more := Refs(w, front), Refs(w, sources);
      assert forall i :: 0 <= i < |refs| ==> more[i] == refs[i];
      if last.kind == BrowserProfile { assert more[|refs|].profileVersion == w.version(last.id); }
    }
  }

  /** A supplement is derived exactly from a workflow of distinct operations whose steps all
      pass, that uses every operation, calls the browser 1 to 100 times and at every step with a
      permission, and from sources that list a profile and a version for each. */
  lemma DeriveIs(w: World, doc: Option<Document>, sha: string, sources: seq<Source>, permissions: map<string, Permission>, reviews: seq<Artifact>)
    ensures Derive(w, doc, sha, sources, permissions, reviews).Success? <==>
            && Listed(w, sources) && doc.Some?
            && (forall i, j :: 0 <= i < j < |doc.value.operations| ==> doc.value.operations[i].id != doc.value.operations[j].id)
            && Walk(w, doc.value, sources, permissions, |doc.value.steps|).Some?
            && EndsWell(doc.value, permissions, Walk(w, doc.value, sources, permissions, |doc.value.steps|).value.calls)
    ensures Derive(w, doc, sha, sources, permissions, reviews) == Nothing <==>
            (forall k :: 0 <= k < |sources| ==> sources[k].kind != BrowserProfile) && permissions == map[] && reviews == []
  {
    RefsAreListed(w, sources);
    if doc.Some? && Walk(w, doc.value, sources, permissions, |doc.value.steps|).Some? { CompleteIs(w, doc.value, sources, permissions); }
    hide Walk, Refs, Sort, BrowserSupplement.Complete, EndsWell;
  }

  // ---------- Derived calls ----------

  /** The facts of a derived call: its step, the operation and the shape behind it, and the
      sign-ins before it. */
  ghost predicate Explains(w: World, doc: Document, sources: seq<Source>, permissions: map<string, Permission>, calls: seq<Call>, i: nat,
                           step: Step, op: Operation, r: Request, shape: Shape, signedIn: map<string, string>)
    requires i < |calls|
  {
    && step in doc.steps && OperationNamed(doc.operations, step.operation) == Some(op)
    && IsCall(w, sources, step, op, signedIn, calls[i].(reuseAllowed := false, saveAllowed := false), r, shape)
    && (forall name :: SessionSource(signedIn, name) == SignedIn(calls[..i], name))
    && Flags(calls[i]) == PermissionFor(permissions, step.id) && MayCarry(calls[i], Flags(calls[i]))
  }

  ghost predicate Explained(w: World, doc: Document, sources: seq<Source>, permissions: map<string, Permission>, calls: seq<Call>, i: nat)
    requires i < |calls|
  {
    exists step, op, r, shape, signedIn :: Explains(w, doc, sources, permissions, calls, i, step, op, r, shape, signedIn)
  }

  lemma LastRound(w: World, doc: Document, sources: seq<Source>, permissions: map<string, Permission>, n: nat)
    requires 0 < n <= |doc.steps| && Walk(w, doc, sources, permissions, n).Some?
    ensures Walk(w, doc, sources, permissions, n - 1).Some?
    ensures var p, after := Walk(w, doc, sources, permissions, n - 1).value, Walk(w, doc, sources, permissions, n).value;
            Advance(w, doc, sources, permissions, p, doc.steps[n - 1]) == Some(after) && p.calls <= after.calls && |after.calls| <= |p.calls| + 1
  {
    WalkStep(w, doc, sources, permissions, n - 1);
    hide Walk, Advance;
    AdvanceExtends(w, doc, sources, permissions, Walk(w, doc, sources, permissions, n - 1).value, doc.steps[n - 1]);
  }

  lemma {:induction false} WalkExplains(w: World, doc: Document, sources: seq<Source>, permissions: map<string, Permission>, n: nat, i: nat)
    requires n <= |doc.steps| && Walk(w, doc, sources, permissions, n).Some? && i < |Walk(w, doc, sources, permissions, n).value.calls|
    ensures Explained(w, doc, sources, permissions, Walk(w, doc, sources, permissions, n).value.calls, i)
  {
    hide Walk, Advance, Explained, Tracks;
    if n == 0 {
      NoSteps(w, doc, sources, permissions);
      assert false;
    } else {
      LastRound(w, doc, sources, permissions, n);
      var p, after := Walk(w, doc, sources, permissions, n - 1).value, Walk(w, doc, sources, permissions, n).value;
      if i < |p.calls| {
        WalkExplains(w, doc, sources, permissions, n - 1, i);
        ExplainedMore(w, doc, sources, permissions, p.calls, after.calls, i);
      } else {
        WalkTracks(w, doc, sources, permissions, n - 1);
        RoundExplains(w, doc, sources, permissions, p, doc.steps[n - 1], after);
      }
    }
  }

  lemma ExplainedMore(w: World, doc: Document, sources: seq<Source>, permissions: map<string, Permission>, calls: seq<Call>, more: seq<Call>, i: nat)
    requires i < |calls| && calls <= more && Explained(w, doc, sources, permissions, calls, i)
    ensures Explained(w, doc, sources, permissions, more, i)
  {
    hide Explains;
    var s, op, r, shape, signedIn :| Explains(w, doc, sources, permissions, calls, i, s, op, r, shape, signedIn);
    ExplainsMore(w, doc, sources, permissions, calls, more, i, s, op, r, shape, signedIn);
  }

  lemma ExplainsMore(w: World, doc: Document, sources: seq<Source>, permissions: map<string, Permission>, calls: seq<Call>, more: seq<Call>, i: nat,
                     step: Step, op: Operation, r: Request, shape: Shape, signedIn: map<string, string>)
    requires i < |calls| && calls <= more && Explains(w, doc, sources, permissions, calls, i, step, op, r, shape, signedIn)
    ensures Explains(w, doc, sources, permissions, more, i, step, op, r, shape, signedIn)
  {
    hide IsCall, OperationNamed;
    assert more[..i] == calls[..i] && more[i] == calls[i];
  }

  lemma StepOperation(w: World, doc: Document, sources: seq<Source>, permissions: map<string, Permission>, p: Progress, step: Step)
    requires Advance(w, doc, sources, permissions, p, step).Some?
    ensures OperationNamed(doc.operations, step.operation).Some?
  {
    hide OperationNamed, BrowserCall;
  }

  lemma RoundExplains(w: World, doc: Document, sources: seq<Source>, permissions: map<string, Permission>, p: Progress, step: Step, after: Progress)
    requires Advance(w, doc, sources, permissions, p, step) == Some(after) && |after.calls| > |p.calls| && step in doc.steps && Tracks(p)
    ensures Explained(w, doc, sources, permissions, after.calls, |p.calls|)
  {
    hide Advance, OperationNamed, IsCall, Adds, RunsFlat, Tracks, Explains, RequestOf, MayCarry;
    StepOperation(w, doc, sources, permissions, p, step);
    var op := OperationNamed(doc.operations, step.operation).value;
    RoundIs(w, doc, sources, permissions, p, step, after, op);
    var c :| HasCall(w, sources, step, op, p.sessions, c) && Adds(w, permissions, p, step, after, op, c);
    var r, shape :| IsCall(w, sources, step, op, p.sessions, c, r, shape);
    CallPlain(w, sources, step, op, p.sessions, c, r, shape);
    AddsCall(w, permissions, p, step, after, op, c);
    ExplainedBy(w, doc, sources, permissions, p, after.calls, step, op, r, shape, c);
  }

  lemma ExplainedBy(w: World, doc: Document, sources: seq<Source>, permissions: map<string, Permission>, p: Progress, calls: seq<Call>,
                    step: Step, op: Operation, r: Request, shape: Shape, c: Call)
    requires |calls| == |p.calls| + 1 && calls[..|p.calls|] == p.calls && calls[|p.calls|].(reuseAllowed := false, saveAllowed := false) == c
    requires step in doc.steps && OperationNamed(doc.operations, step.operation) == Some(op) && IsCall(w, sources, step, op, p.sessions, c, r, shape)
    requires Tracks(p) && Flags(calls[|p.calls|]) == PermissionFor(permissions, step.id) && MayCarry(calls[|p.calls|], Flags(calls[|p.calls|]))
    ensures Explains(w, doc, sources, permissions, calls, |p.calls|, step, op, r, shape, p.sessions)
  {
    hide OperationNamed, IsCall, MayCarry;
  }

  lemma AddsCall(w: World, permissions: map<string, Permission>, p: Progress, step: Step, after: Progress, op: Operation, c: Call)
    requires Adds(w, permissions, p, step, after, op, c) && !c.reuseAllowed && !c.saveAllowed
    ensures |after.calls| == |p.calls| + 1 && after.calls[..|p.calls|] == p.calls
    ensures after.calls[|p.calls|].(reuseAllowed := false, saveAllowed := false) == c
    ensures Flags(after.calls[|p.calls|]) == PermissionFor(permissions, step.id) && MayCarry(after.calls[|p.calls|], Flags(after.calls[|p.calls|]))
  {
  }

  lemma CallPlain(w: World, sources: seq<Source>, step: Step, op: Operation, signedIn: map<string, string>, c: Call, r: Request, shape: Shape)
    requires IsCall(w, sources, step, op, signedIn, c, r, shape)
    ensures !c.reuseAllowed && !c.saveAllowed
  {
  }

  /** Every derived call is explained by a step, its operation and the shape that resolves. */
  lemma DerivedCallIs(w: World, doc: Document, sha: string, sources: seq<Source>, permissions: map<string, Permission>, reviews: seq<Artifact>, i: nat)
    requires Derive(w, Some(doc), sha, sources, permissions, reviews).Success?
    requires i < |Derive(w, Some(doc), sha, sources, permissions, reviews).supplement.calls|
    ensures Explained(w, doc, sources, permissions, Derive(w, Some(doc), sha, sources, permissions, reviews).supplement.calls, i)
  {
    hide Refs, Sort, Explained;
    assert Walk(w, doc, sources, permissions, |doc.steps|).Some?;
    hide Walk;
    WalkExplains(w, doc, sources, permissions, |doc.steps|, i);
  }

  /** An action whose shape requires authentication has a session, and an earlier call signed in
      to it at the source it names. */
  lemma RequiredSessionIsThere(w: World, doc: Document, sources: seq<Source>, permissions: map<string, Permission>, calls: seq<Call>, i: nat,
                               step: Step, op: Operation, r: Request, shape: Shape, signedIn: map<string, string>)
    requires i < |calls| && Explains(w, doc, sources, permissions, calls, i, step, op, r, shape, signedIn)
    ensures calls[i].kind == Action && shape.authenticationRequired ==> calls[i].sessionName != ""
    ensures calls[i].kind == Action && calls[i].sessionName != "" ==>
              exists j :: 0 <= j < i && calls[j].kind == Authentication && calls[j].sessionName == calls[i].sessionName
                          && calls[j].sourceId == calls[i].authenticationSourceId
  {
    hide AsksFor, Credentialed, OperationNamed;
    if calls[i].kind == Action && calls[i].sessionName != "" {
      SignedInBy(calls[..i], calls[i].sessionName);
    }
  }

  lemma {:induction false} SignedInBy(calls: seq<Call>, name: string)
    ensures SignedIn(calls, name) != "" ==>
              exists j :: 0 <= j < |calls| && calls[j].kind == Authentication && calls[j].sessionName == name && calls[j].sourceId == SignedIn(calls, name)
  {
    if calls != [] {
      var last := |calls| - 1;
      if calls[last].kind == Authentication && calls[last].sessionName == name {
        assert calls[last].sourceId == SignedIn(calls, name);
      } else {
        SignedInBy(calls[..last], name);
      }
    }
  }

  // ---------- The rest of a supplement ----------

  ghost predicate RefOf(w: World, sources: seq<Source>, r: SourceRef) {
    exists k :: 0 <= k < |sources| && sources[k].kind == BrowserProfile
                && r == SourceRef(sources[k].id, sources[k].path, sources[k].sha, w.version(sources[k].id))
  }

  lemma {:induction false} RefsAre(w: World, sources: seq<Source>)
    ensures forall r :: r in Refs(w, sources) <==> RefOf(w, sources, r)
  {
    if sources != [] {
      var front, last := sources[..|sources| - 1], sources[|sources| - 1];
      RefsAre(w, front);
      assert forall k :: 0 <= k < |front| ==> front[k] == sources[k];
      forall r ensures RefOf(w, sources, r) <==> RefOf(w, front, r) || (last.kind == BrowserProfile && r == SourceRef(last.id, last.path, last.sha, w.version(last.id))) {
        if RefOf(w, front, r) {
          var k :| 0 <= k < |front| && front[k].kind == BrowserProfile && r == SourceRef(front[k].id, front[k].path, front[k].sha, w.version(front[k].id));
          assert sources[k] == front[k];
        }
      }
    }
  }

  /** What a derived supplement holds: the workflow's digest, the profiles by id, the calls of
      the steps, and the reviews. */
  lemma DerivedParts(w: World, doc: Option<Document>, sha: string, sources: seq<Source>, permissions: map<string, Permission>, reviews: seq<Artifact>)
    requires Derive(w, doc, sha, sources, permissions, reviews).Success?
    ensures doc.Some? && Walk(w, doc.value, sources, permissions, |doc.value.steps|).Some?
    ensures var s := Derive(w, doc, sha, sources, permissions, reviews).supplement;
            && s.workflowSha == sha && s.reviews == reviews && s.calls == Walk(w, doc.value, sources, permissions, |doc.value.steps|).value.calls
            && (forall r :: r in s.sources <==> RefOf(w, sources, r))
            && forall i, j :: 0 <= i < j < |s.sources| ==> AtMost(s.sources[i].id, s.sources[j].id)
  {
    hide Walk, Refs, Sort, BrowserSupplement.Complete, RefOf, Less;
    RefsAre(w, sources);
    ByIdOrders();
    SortSorted(ById, Refs(w, sources));
    var sorted := Sort(ById, Refs(w, sources));
    forall r ensures r in sorted <==> r in Refs(w, sources) { assert r in sorted <==> r in multiset(sorted); }
    forall i, j | 0 <= i < j < |sorted| ensures AtMost(sorted[i].id, sorted[j].id) { assert ById(sorted[i], sorted[j]); }
  }

  // ---------- Reading a supplement back ----------

  /** No later call has its step. */
  predicate IsLast(calls: seq<Call>, i: int) {
    0 <= i < |calls| && forall j :: i < j < |calls| ==> calls[j].stepId != calls[i].stepId
  }

  /** Each step's permission is that of its last call. */
  ghost predicate ReadBack(calls: seq<Call>, permissions: map<string, Permission>) {
    && (forall id :: id in permissions <==> exists i :: 0 <= i < |calls| && calls[i].stepId == id)
    && forall i :: IsLast(calls, i) ==> permissions[calls[i].stepId] == Permission(calls[i].reuseAllowed, calls[i].saveAllowed)
  }

  lemma IsLastNext(calls: seq<Call>, last: Call, i: int)
    ensures IsLast(calls + [last], i) <==> i == |calls| || (IsLast(calls, i) && calls[i].stepId != last.stepId)
  {
    var all_ := calls + [last];
    assert all_[|calls|] == last && forall k :: 0 <= k < |calls| ==> all_[k] == calls[k];
    if i < |calls| && IsLast(all_, i) { assert all_[|calls|].stepId != all_[i].stepId; }
  }

  lemma StepsNext(calls: seq<Call>, last: Call, id: string)
    ensures (exists i :: 0 <= i < |calls + [last]| && (calls + [last])[i].stepId == id) <==>
            id == last.stepId || exists i :: 0 <= i < |calls| && calls[i].stepId == id
  {
    var all_ := calls + [last];
    assert all_[|calls|] == last;
    if i :| 0 <= i < |calls| && calls[i].stepId == id { assert all_[i].stepId == id; }
  }

  lemma ReadBackNext(calls: seq<Call>, last: Call, permissions: map<string, Permission>)
    requires ReadBack(calls, permissions)
    ensures ReadBack(calls + [last], permissions[last.stepId := Permission(last.reuseAllowed, last.saveAllowed)])
  {
    var all_, after := calls + [last], permissions[last.stepId := Permission(last.reuseAllowed, last.saveAllowed)];
    forall id ensures id in after <==> exists i :: 0 <= i < |all_| && all_[i].stepId == id { StepsNext(calls, last, id); }
    hide IsLast;
    forall i | IsLast(all_, i)
      ensures 0 <= i < |all_| && all_[i].stepId in after && after[all_[i].stepId] == Permission(all_[i].reuseAllowed, all_[i].saveAllowed)
    {
      IsLastNext(calls, last, i);
      if i != |calls| { LastInside(calls, i); }
    }
  }

  lemma LastInside(calls: seq<Call>, i: int)
    requires IsLast(calls, i)
    ensures 0 <= i < |calls|
  {
  }

  lemma {:induction false} LastFlagsAre(calls: seq<Call>)
    ensures ReadBack(calls, LastFlags(calls))
  {
    if calls != [] {
      hide ReadBack;
      var front, last := calls[..|calls| - 1], calls[|calls| - 1];
      LastFlagsAre(front);
      ReadBackNext(front, last, LastFlags(front));
      assert calls == front + [last];
    }
  }

  /** Bytes are accepted exactly when they are the canonical text of a supplement in which no
      step with a permission is called again, and which derives again from the permissions read
      back. */
  lemma AcceptsIs(w: World, doc: Option<Document>, sha: string, sources: seq<Source>, c: Codec, reviews: seq<Artifact>, bytes: seq<bv8>)
    ensures Accepts(w, doc, sha, sources, c, reviews, bytes) <==>
            && |bytes| <= 1048576 && c.decode(bytes).Some?
            && var s := c.decode(bytes).value;
            && c.encode(s) == bytes
            && (forall i, j :: 0 <= i < j < |s.calls| && s.calls[i].stepId == s.calls[j].stepId ==> !s.calls[i].reuseAllowed && !s.calls[i].saveAllowed)
            && exists permissions :: ReadBack(s.calls, permissions) && Derive(w, doc, sha, sources, permissions, reviews) == Success(s)
  {
    hide Derive, LastFlags;
    if c.decode(bytes).Some? {
      var s := c.decode(bytes).value;
      LastFlagsAre(s.calls);
      forall permissions | ReadBack(s.calls, permissions) ensures permissions == LastFlags(s.calls) {
        OneReading(s.calls, permissions, LastFlags(s.calls));
      }
      hide ReadBack;
    }
  }

  lemma {:induction false} LastCall(calls: seq<Call>, id: string, i: int) returns (k: int)
    requires 0 <= i < |calls| && calls[i].stepId == id
    ensures IsLast(calls, k) && calls[k].stepId == id
    decreases |calls| - i
  {
    if j :| i < j < |calls| && calls[j].stepId == id {
      k := LastCall(calls, id, j);
    } else {
      k := i;
    }
  }

  lemma SameReading(calls: seq<Call>, a: map<string, Permission>, b: map<string, Permission>, i: int)
    requires ReadBack(calls, a) && ReadBack(calls, b) && 0 <= i < |calls|
    ensures calls[i].stepId in a && calls[i].stepId in b && a[calls[i].stepId] == b[calls[i].stepId]
  {
    var k := LastCall(calls, calls[i].stepId, i);
    hide IsLast;
  }

  lemma OneReading(calls: seq<Call>, a: map<string, Permission>, b: map<string, Permission>)
    requires ReadBack(calls, a) && ReadBack(calls, b)
    ensures a == b
  {
    forall id ensures id in a <==> id in b {}
    hide IsLast;
    forall id | id in a ensures a[id] == b[id] {
      var i :| 0 <= i < |calls| && calls[i].stepId == id;
      hide ReadBack;
      SameReading(calls, a, b, i);
    }
  }
}
