/** The converse of what Transaction proves: which transitions, runs and compositions are
    accepted, written out (browsertransaction/transaction.go). */
module TransactionRuns {
  import opened Common
  import opened Transaction

  // ---------- Transitions ----------

  /** The edges of the lifecycle: forward, between prepared and indeterminate, to promoted,
      and from every state that is not final to cancelled or failed. */
  predicate Neighbours(a: State, b: State) {
    || (a == Candidate && b == Reviewed)
    || (a == Reviewed && b == Prepared)
    || (a == Prepared && b == Indeterminate)
    || (a == Indeterminate && b == Prepared)
    || (a in {Prepared, Indeterminate} && b == Promoted)
    || (a in {Candidate, Reviewed, Prepared, Indeterminate} && b in {Cancelled, Failed})
  }

  /** Valid transactions of one identity follow each other exactly along an edge, when a
      preparation stays and appears only in prepared. */
  lemma EdgesExactly(g: Grammar, a: Transaction, b: Transaction)
    requires Valid(g, a) && Valid(g, b) && a.identity == b.identity
    ensures Step(g, a, b) <==>
            && Neighbours(a.state, b.state)
            && (if a.preparation.Some? then b.preparation == a.preparation else b.preparation.Some? ==> b.state == Prepared)
  {
    hide IdentityValid;
  }

  /** The check accepts each of them. */
  method AcceptEdge(g: Grammar, c: Codec, a: Transaction, b: Transaction) returns (ok: bool)
    requires Faithful(g, c) && Valid(g, a) && Valid(g, b) && a.identity == b.identity
    ensures ok <==>
            && Neighbours(a.state, b.state)
            && (if a.preparation.Some? then b.preparation == a.preparation else b.preparation.Some? ==> b.state == Prepared)
  {
    EdgesExactly(g, a, b);
    hide Step, Valid, Faithful, Neighbours;
    ok := ValidateTransition(g, c, a, b);
  }

  // ---------- Runs ----------

  /** Candidate, reviewed, prepared, (indeterminate, prepared)*, and from anywhere but the
      start an optional ending, promoted only after prepared. */
  predicate Shape(states: seq<State>) {
    && states != [] && states[0] == Candidate
    && forall k :: 0 < k < |states| ==>
         || states[k] == (if k == 1 then Reviewed else if k % 2 == 0 then Prepared else Indeterminate)
         || (k == |states| - 1 && (states[k] in {Cancelled, Failed} || (states[k] == Promoted && k >= 3)))
  }

  /** The snapshot of a state at position k of a run: prepared from position 2 on. */
  function Snapshot(i: Identity, s: State, k: nat, p: Preparation, generation: string): Transaction {
    Transaction(i, s,
                if k >= 3 || s in {Prepared, Indeterminate, Promoted} then Some(p) else None,
                if s == Promoted then Some(generation) else None,
                if s == Failed then Some(Failure(Operational, PreparationFailed))
                else if s == Indeterminate then Some(Failure(IndeterminateFailure, PromotionIndeterminate)) else None)
  }

  function Snapshots(i: Identity, states: seq<State>, p: Preparation, generation: string): (run: seq<Transaction>)
    ensures |run| == |states| && forall k :: 0 <= k < |run| ==> run[k] == Snapshot(i, states[k], k, p, generation)
  {
    seq(|states|, k requires 0 <= k < |states| => Snapshot(i, states[k], k, p, generation))
  }

  lemma SnapshotValid(g: Grammar, i: Identity, s: State, k: nat, p: Preparation, generation: string)
    requires IdentityValid(g, i) && ValidDigest(p.package) && ValidDigest(p.qualification) && ValidDigest(generation)
    requires !s.OtherState? && (s in {Candidate, Reviewed} ==> k < 3)
    ensures Valid(g, Snapshot(i, s, k, p, generation))
  {
    hide IdentityValid, ValidDigest;
  }

  /** Every state sequence of the shape is that of some run, for every valid identity. */
  lemma ShapeIsRun(g: Grammar, i: Identity, states: seq<State>, p: Preparation, generation: string)
    requires IdentityValid(g, i) && ValidDigest(p.package) && ValidDigest(p.qualification) && ValidDigest(generation) && Shape(states)
    ensures var run := Snapshots(i, states, p, generation);
            Run(g, run) && forall k :: 0 <= k < |run| ==> Valid(g, run[k]) && run[k].state == states[k]
  {
    var run := Snapshots(i, states, p, generation);
    hide IdentityValid, ValidDigest, LifecycleValid;
    forall k: nat | k < |run| ensures Valid(g, run[k]) {
      SnapshotValid(g, i, states[k], k, p, generation);
    }
    hide Valid;
    forall k: nat | k < |run| - 1 ensures Step(g, run[k], run[k + 1]) {
      EdgesExactly(g, run[k], run[k + 1]);
      hide Step;
    }
  }

  /** And conversely. */
  lemma RunHasShape(g: Grammar, run: seq<Transaction>, states: seq<State>)
    requires Run(g, run) && run != [] && run[0].state == Candidate
    requires |states| == |run| && forall k :: 0 <= k < |run| ==> states[k] == run[k].state
    ensures Shape(states)
  {
    hide Run;
    forall k: nat | 0 < k < |run|
      ensures states[k] == (if k == 1 then Reviewed else if k % 2 == 0 then Prepared else Indeterminate)
              || (k == |run| - 1 && (states[k] in {Cancelled, Failed} || (states[k] == Promoted && k >= 3)))
    {
      RunShape(g, run, k);
    }
  }

  // ---------- Compositions ----------

  /** Version, result and profile schema of a registration, by number. */
  predicate RegistrationRow(version: Version, result: ResultVersion, schema: Schema) {
    || (version == V1 && result == RegistrationAuthoring(1) && schema == BrowserRegistration(0))
    || (version == V2 && result == RegistrationAuthoring(2) && schema == BrowserRegistration(0))
    || (version == V3 && result == RegistrationAuthoring(3) && schema == BrowserRegistration(1))
    || (version == V4 && result == RegistrationAuthoring(4) && schema == BrowserRegistration(2))
  }

  predicate DigestsValid(p: Profile) {
    ValidDigest(p.source) && ValidDigest(p.review)
  }

  /** Where and when the result was observed: by browsertools, at 1 to 32 origins in order, and
      before it expires. */
  lemma ProvenanceExactly(g: Grammar, p: Provenance)
    ensures ProvenanceValid(g, p) <==>
            && p.producer == "browsertools" && ValidDigest(p.resultDigest)
            && (exists observed, expires :: g.instant(p.observed) == Some(observed) && g.instant(p.expires) == Some(expires) && observed < expires)
            && p.origins != [] && |p.origins| <= 32
            && (forall i :: 0 <= i < |p.origins| ==> g.origin(p.origins[i]) && 1 <= |p.origins[i]| <= 1024)
            && forall i, j :: 0 <= i < j < |p.origins| ==> Less(p.origins[i], p.origins[j])
  {
    hide ValidDigest, Less;
    if g.instant(p.observed).Some? && g.instant(p.expires).Some? {
      assert g.instant(p.observed) == Some(g.instant(p.observed).value) && g.instant(p.expires) == Some(g.instant(p.expires).value);
    }
  }

  /** At most 32 symbolic bindings, with their slots in order. */
  lemma BindingsExactly(bindings: seq<CredentialBinding>)
    ensures BindingsValid(bindings) <==>
            && |bindings| <= 32
            && (forall i :: 0 <= i < |bindings| ==> Symbol(bindings[i].slot) && Symbol(bindings[i].name))
            && forall i, j :: 0 <= i < j < |bindings| ==> Less(bindings[i].slot, bindings[j].slot)
  {
    hide Symbol, Less;
  }

  /** A registration is valid exactly with one candidate of a row, at least one credential
      binding and no session … */
  lemma RegistrationExactly(g: Grammar, i: Identity)
    requires i.kind == Registration
    ensures IdentityValid(g, i) <==>
            && ValidId(i.id) && ProvenanceValid(g, i.provenance)
            && |i.candidates| == 1 && i.candidates[0].kind == RegistrationCandidate && DigestsValid(i.candidates[0])
            && RegistrationRow(i.version, i.provenance.result, i.candidates[0].schema)
            && i.bindings.Some? && BindingsValid(i.bindings.value) && i.bindings.value != [] && i.session == ""
  {
    hide ValidId, ProvenanceValid, BindingsValid, ValidDigest;
  }

  /** … and a sign-in with its capability exactly in version one, with an authentication and a
      capability profile, any bindings and a session. */
  lemma AuthenticationExactly(g: Grammar, i: Identity)
    requires i.kind == AuthenticationCapability
    ensures IdentityValid(g, i) <==>
            && ValidId(i.id) && ProvenanceValid(g, i.provenance)
            && i.version == V1 && i.provenance.result == AuthenticatedAuthoringV2 && |i.candidates| == 2
            && i.candidates[0].kind == AuthenticationCandidate && i.candidates[0].schema in {Authentication(0), Authentication(1)}
            && i.candidates[1].kind == CapabilityCandidate
            && i.candidates[1].schema in {Browser(5), Browser(6), Browser(7), Browser(8), Browser(9)}
            && DigestsValid(i.candidates[0]) && DigestsValid(i.candidates[1])
            && i.bindings.Some? && BindingsValid(i.bindings.value) && Symbol(i.session)
  {
    hide ValidId, ProvenanceValid, BindingsValid, ValidDigest, Symbol;
  }

  /** Other kinds are not valid. */
  lemma OtherIdentity(g: Grammar, i: Identity)
    requires IdentityValid(g, i)
    ensures i.kind == Registration || i.kind == AuthenticationCapability
  {
    hide ValidId, ProvenanceValid, BindingsValid, ValidDigest, Symbol;
  }

  // ---------- Lifecycle fields ----------

  /** Which of preparation, promotion and failure a state has. */
  lemma LifecycleExactly(t: Transaction)
    ensures LifecycleValid(t) <==>
            && (t.preparation.Some? ==> ValidDigest(t.preparation.value.package) && ValidDigest(t.preparation.value.qualification))
            && (t.promotion.Some? ==> ValidDigest(t.promotion.value))
            && match t.state
               case Candidate => t.preparation.None? && t.promotion.None? && t.failure.None?
               case Reviewed => t.preparation.None? && t.promotion.None? && t.failure.None?
               case Prepared => t.preparation.Some? && t.promotion.None? && t.failure.None?
               case Promoted => t.preparation.Some? && t.promotion.Some? && t.failure.None?
               case Cancelled => t.promotion.None? && t.failure.None?
               case Failed => t.promotion.None? && t.failure.Some? && FailureRow(t.failure.value)
               case Indeterminate => t.preparation.Some? && t.promotion.None? && t.failure == Some(Failure(IndeterminateFailure, PromotionIndeterminate))
               case OtherState => false
  {
    hide ValidDigest;
  }

  /** The failures a failed transaction may report. */
  predicate FailureRow(f: Failure) {
    || (f.class_ == Rejected && f.code in {TransactionInvalid, CandidateInvalid, CandidateStale, DigestMismatch, ReviewRejected})
    || (f.class_ == Conflict && f.code == WorkspaceConflict)
    || (f.class_ == Operational && f.code in {PreparationFailed, QualificationFailed, PromotionFailed})
  }

  // ---------- Examples ----------

  function Text(c: char, n: nat): string {
    seq(n, _ => c)
  }

  /** Identifiers have 1 to 128 characters of their alphabet and start with the right one. */
  lemma IdEdges()
    ensures ValidId("0") && ValidId("a.b_c-9") && ValidId(Text('z', 128)) && !ValidId(Text('z', 129)) && !ValidId("") && !ValidId("-a") && !ValidId("aB")
    ensures Symbol("a") && Symbol("a_9") && Symbol(Text('z', 128)) && !Symbol(Text('z', 129)) && !Symbol("") && !Symbol("9a") && !Symbol("a-b")
  {
    assert "-a"[0] == '-' && "aB"[1] == 'B' && "9a"[0] == '9' && "a-b"[1] == '-';
    assert forall c :: c in "a.b_c-9" ==> LowerAlphanumeric(c) || c in "._-";
  }

  lemma DigestEdges()
    ensures ValidDigest("sha256:" + Text('f', 64)) && ValidDigest("sha256:" + Text('0', 64))
    ensures !ValidDigest("sha256:" + Text('F', 64)) && !ValidDigest("sha256:" + Text('g', 64)) && !ValidDigest(Text('0', 64))
    ensures !ValidDigest("sha256:" + Text('0', 63)) && !ValidDigest("sha512:" + Text('0', 64))
  {
    forall c: char, n: nat ensures ("sha256:" + Text(c, n))[7..] == Text(c, n) && ("sha256:" + Text(c, n))[..7] == "sha256:" {
    }
    assert ("sha512:" + Text('0', 64))[3] == '5';
    assert Text('F', 64)[0] == 'F' && Text('g', 64)[0] == 'g';
    assert "sha256:"[3] == '2';
  }

  function SampleDigest(): string {
    "sha256:" + Text('0', 64)
  }

  function Number(version: Version): nat {
    if version == V1 then 1 else if version == V2 then 2 else if version == V3 then 3 else 4
  }

  function Minor(version: Version): nat {
    if version == V3 then 1 else if version == V4 then 2 else 0
  }

  /** A registration with one candidate, origin and credential binding. */
  function Sample(origin: string, observed: string, expires: string, version: Version): Identity {
    Identity(version, "r", Registration, [Profile(RegistrationCandidate, BrowserRegistration(Minor(version)), SampleDigest(), SampleDigest())],
             Provenance("browsertools", RegistrationAuthoring(Number(version)), SampleDigest(), observed, expires, [origin]),
             Some([CredentialBinding("s", "n")]), "")
  }

  lemma SampleValid(g: Grammar, origin: string, observed: string, expires: string, version: Version)
    requires origin != "" && |origin| <= 1024 && g.origin(origin) && version in {V1, V2, V3, V4}
    requires g.instant(observed).Some? && g.instant(expires).Some? && g.instant(observed).value < g.instant(expires).value
    ensures IdentityValid(g, Sample(origin, observed, expires, version)) && ValidDigest(SampleDigest())
  {
    var i := Sample(origin, observed, expires, version);
    DigestEdges();
    assert BindingsValid(i.bindings.value);
    assert ProvenanceValid(g, i.provenance) && ValidId("r");
    hide ValidDigest, ValidId, Symbol;
    RegistrationExactly(g, i);
  }

  /** Some registration of each version runs to promotion, given a grammar that knows an origin
      and two ordered instants. */
  lemma PromotionExists(g: Grammar, origin: string, observed: string, expires: string, version: Version) returns (run: seq<Transaction>)
    requires origin != "" && |origin| <= 1024 && g.origin(origin) && version in {V1, V2, V3, V4}
    requires g.instant(observed).Some? && g.instant(expires).Some? && g.instant(observed).value < g.instant(expires).value
    ensures Run(g, run) && |run| == 4 && run[3].state == Promoted && run[0].identity.version == version
  {
    hide IdentityValid, ValidDigest, Run, SampleDigest;
    var i, states := Sample(origin, observed, expires, version), [Candidate, Reviewed, Prepared, Promoted];
    SampleValid(g, origin, observed, expires, version);
    ShapeIsRun(g, i, states, Preparation(SampleDigest(), SampleDigest()), SampleDigest());
    run := Snapshots(i, states, Preparation(SampleDigest(), SampleDigest()), SampleDigest());
  }
}
