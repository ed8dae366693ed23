/** Browser-profile transactions and their lifecycle (browsertransaction/transaction.go).
    Origin and timestamp grammars, and the JSON encoding, are parameters. */
module Transaction {
  import opened Common

  const MAX_BYTES: nat := 262144

  datatype Version = V1 | V2 | V3 | V4 | OtherVersion
  datatype Kind = AuthenticationCapability | Registration | OtherKind
  datatype CandidateKind = AuthenticationCandidate | CapabilityCandidate | RegistrationCandidate | OtherCandidate
  datatype Schema = Authentication(minor: nat) | Browser(minor: nat) | BrowserRegistration(minor: nat) | OtherSchema
  datatype ResultVersion = AuthenticatedAuthoringV2 | RegistrationAuthoring(version: nat) | OtherResult
  datatype State = Candidate | Reviewed | Prepared | Promoted | Cancelled | Failed | Indeterminate | OtherState
  datatype FailureClass = Rejected | Conflict | Operational | IndeterminateFailure | OtherClass
  datatype FailureCode =
    | TransactionInvalid | CandidateInvalid | CandidateStale | DigestMismatch | ReviewRejected | WorkspaceConflict
    | PreparationFailed | QualificationFailed | PromotionFailed | PromotionIndeterminate | OtherCode

  datatype Profile = Profile(kind: CandidateKind, schema: Schema, source: string, review: string)
  datatype Provenance = Provenance(producer: string, result: ResultVersion, resultDigest: string, observed: string, expires: string, origins: seq<string>)
  datatype CredentialBinding = CredentialBinding(slot: string, name: string)
  datatype Preparation = Preparation(package: string, qualification: string)
  datatype Failure = Failure(class_: FailureClass, code: FailureCode)

  /** What never changes, and what the lifecycle adds. Absent bindings are not empty ones. */
  datatype Identity = Identity(version: Version, id: string, kind: Kind, candidates: seq<Profile>, provenance: Provenance,
                               bindings: Option<seq<CredentialBinding>>, session: string)
  datatype Transaction = Transaction(identity: Identity, state: State, preparation: Option<Preparation>, promotion: Option<string>, failure: Option<Failure>)

  /** The grammars: an origin's canonical form, and canonical RFC 3339 timestamps. */
  datatype Grammar = Grammar(origin: string -> bool, instant: string -> Option<int>)

  // ---------- Fields ----------

  predicate LowerAlphanumeric(c: char) {
    'a' <= c <= 'z' || '0' <= c <= '9'
  }

  predicate ValidId(s: string) {
    1 <= |s| <= 128 && LowerAlphanumeric(s[0]) && forall i :: 0 <= i < |s| ==> LowerAlphanumeric(s[i]) || s[i] in "._-"
  }

  predicate Symbol(s: string) {
    1 <= |s| <= 128 && 'a' <= s[0] <= 'z' && forall i :: 0 <= i < |s| ==> LowerAlphanumeric(s[i]) || s[i] == '_'
  }

  predicate ValidDigest(s: string) {
    |s| == 71 && s[..7] == "sha256:" && DigestText(s[7..])
  }

  predicate ValidOrigin(g: Grammar, s: string) {
    |s| <= 1024 && g.origin(s)
  }

  predicate ValidSchema(kind: CandidateKind, schema: Schema) {
    match kind
    case AuthenticationCandidate => schema.Authentication? && schema.minor <= 1
    case CapabilityCandidate => schema.Browser? && 5 <= schema.minor <= 9
    case RegistrationCandidate => schema.BrowserRegistration? && schema.minor <= 2
    case OtherCandidate => false
  }

  predicate ProfileValid(p: Profile, kind: CandidateKind) {
    p.kind == kind && ValidSchema(kind, p.schema) && ValidDigest(p.source) && ValidDigest(p.review)
  }

  predicate CandidatesValid(kind: Kind, candidates: seq<Profile>) {
    if kind.Registration? then |candidates| == 1 && ProfileValid(candidates[0], RegistrationCandidate)
    else |candidates| == 2 && ProfileValid(candidates[0], AuthenticationCandidate) && ProfileValid(candidates[1], CapabilityCandidate)
  }

  /** The authoring result each version accepts. */
  predicate ResultFits(version: Version, kind: Kind, result: ResultVersion) {
    match version
    case V1 => result == if kind.Registration? then RegistrationAuthoring(1) else AuthenticatedAuthoringV2
    case V2 => kind.Registration? && result == RegistrationAuthoring(2)
    case V3 => kind.Registration? && result == RegistrationAuthoring(3)
    case V4 => kind.Registration? && result == RegistrationAuthoring(4)
    case OtherVersion => false
  }

  predicate Increasing(s: seq<string>) {
    forall i, j :: 0 <= i < j < |s| ==> Less(s[i], s[j])
  }

  predicate ProvenanceValid(g: Grammar, p: Provenance) {
    && p.producer == "browsertools" && ValidDigest(p.resultDigest)
    && g.instant(p.observed).Some? && g.instant(p.expires).Some? && g.instant(p.observed).value < g.instant(p.expires).value
    && 1 <= |p.origins| <= 32 && Increasing(p.origins)
    && forall i :: 0 <= i < |p.origins| ==> p.origins[i] != "" && ValidOrigin(g, p.origins[i])
  }

  function Slots(bindings: seq<CredentialBinding>): (r: seq<string>)
    ensures |r| == |bindings| && forall i :: 0 <= i < |r| ==> r[i] == bindings[i].slot
  {
    seq(|bindings|, i requires 0 <= i < |bindings| => bindings[i].slot)
  }

  predicate BindingsValid(bindings: seq<CredentialBinding>) {
    |bindings| <= 32 && Increasing(Slots(bindings)) && forall b :: b in bindings ==> Symbol(b.slot) && Symbol(b.name)
  }

  predicate IdentityValid(g: Grammar, t: Identity) {
    && ValidId(t.id) && !t.kind.OtherKind? && CandidatesValid(t.kind, t.candidates)
    && ResultFits(t.version, t.kind, t.provenance.result)
    && (t.kind.Registration? ==>
          t.candidates[0].schema == BrowserRegistration(if t.version.V3? then 1 else if t.version.V4? then 2 else 0))
    && ProvenanceValid(g, t.provenance) && t.bindings.Some? && BindingsValid(t.bindings.value)
    && (if t.kind.Registration? then t.bindings.value != [] && t.session == "" else Symbol(t.session))
  }

  // ---------- Lifecycle ----------

  predicate ValidFailure(f: Failure) {
    match f.class_
    case Rejected => f.code in {TransactionInvalid, CandidateInvalid, CandidateStale, DigestMismatch, ReviewRejected}
    case Conflict => f.code == WorkspaceConflict
    case Operational => f.code in {PreparationFailed, QualificationFailed, PromotionFailed}
    case IndeterminateFailure => f.code == PromotionIndeterminate
    case OtherClass => false
  }

  /** The fields a state has, must have and must not have. */
  predicate LifecycleValid(t: Transaction) {
    && (t.preparation.Some? ==> ValidDigest(t.preparation.value.package) && ValidDigest(t.preparation.value.qualification))
    && (t.promotion.Some? ==> ValidDigest(t.promotion.value))
    && (t.failure.Some? ==> ValidFailure(t.failure.value))
    && !t.state.OtherState?
    && (t.promotion.Some? <==> t.state.Promoted?)
    && (t.failure.Some? <==> t.state.Failed? || t.state.Indeterminate?)
    && (t.failure.Some? ==> (t.state.Indeterminate? <==> t.failure.value.class_.IndeterminateFailure?))
    && (t.state in {Candidate, Reviewed} ==> t.preparation.None?)
    && (t.state in {Prepared, Promoted, Indeterminate} ==> t.preparation.Some?)
  }

  predicate Valid(g: Grammar, t: Transaction) {
    IdentityValid(g, t.identity) && LifecycleValid(t)
  }

  predicate AllowedTransition(a: State, b: State) {
    match a
    case Candidate => b in {Reviewed, Cancelled, Failed}
    case Reviewed => b in {Prepared, Cancelled, Failed}
    case Prepared => b in {Promoted, Indeterminate, Cancelled, Failed}
    case Indeterminate => b in {Prepared, Promoted, Cancelled, Failed}
    case Promoted => false
    case Cancelled => false
    case Failed => false
    case OtherState => false
  }

  /** One accepted transition. */
  predicate Step(g: Grammar, a: Transaction, b: Transaction) {
    && Valid(g, a) && Valid(g, b) && a.identity == b.identity && AllowedTransition(a.state, b.state)
    && (a.preparation.Some? ==> b.preparation == a.preparation)
    && (a.preparation.None? && b.preparation.Some? ==> b.state.Prepared?)
  }

  predicate Run(g: Grammar, run: seq<Transaction>) {
    forall i :: 0 <= i < |run| - 1 ==> Step(g, run[i], run[i + 1])
  }

  predicate Final(s: State) {
    s in {Promoted, Cancelled, Failed}
  }

  // ---------- Over whole runs ----------

  lemma {:induction false} IdentityIsForever(g: Grammar, run: seq<Transaction>, i: nat, j: nat)
    requires Run(g, run) && i <= j < |run|
    ensures run[i].identity == run[j].identity
    decreases j - i
  {
    if i < j { IdentityIsForever(g, run, i, j - 1); }
  }

  lemma {:induction false} PreparationIsForever(g: Grammar, run: seq<Transaction>, i: nat, j: nat)
    requires Run(g, run) && i <= j < |run| && run[i].preparation.Some?
    ensures run[j].preparation == run[i].preparation
    decreases j - i
  {
    if i < j { PreparationIsForever(g, run, i, j - 1); }
  }

  /** Promoted, cancelled and failed are final. */
  lemma FinalEndsTheRun(g: Grammar, run: seq<Transaction>)
    requires Run(g, run)
    ensures forall i :: 0 <= i < |run| && Final(run[i].state) ==> i == |run| - 1
  {
    forall i | 0 <= i < |run| - 1 ensures !Final(run[i].state) {
      assert Step(g, run[i], run[i + 1]);
    }
  }

  /** The states of a run that has not ended. */
  function Spine(k: nat): State {
    if k == 0 then Candidate else if k == 1 then Reviewed else if k % 2 == 0 then Prepared else Indeterminate
  }

  /** A run from candidate goes through reviewed, prepared, and any number of
      indeterminate-prepared rounds; it may end anywhere after the first snapshot, and in
      promoted only after prepared. */
  lemma {:induction false} RunShape(g: Grammar, run: seq<Transaction>, k: nat)
    requires Run(g, run) && k < |run| && run[0].state.Candidate?
    ensures run[k].state == Spine(k) || (0 < k == |run| - 1 && Final(run[k].state) && (run[k].state.Promoted? ==> k >= 3))
    decreases k
  {
    if k > 0 {
      RunShape(g, run, k - 1);
      assert Step(g, run[k - 1], run[k]);
      FinalEndsTheRun(g, run);
    }
  }

  /** A preparation is there exactly from the first prepared snapshot on. */
  lemma {:induction false} PreparationSincePrepared(g: Grammar, run: seq<Transaction>, k: nat)
    requires Run(g, run) && k < |run| && Valid(g, run[0]) && run[0].state.Candidate?
    ensures run[k].preparation.Some? <==> exists j :: 0 <= j <= k && run[j].state.Prepared?
    decreases k
  {
    if k > 0 {
      PreparationSincePrepared(g, run, k - 1);
      assert Step(g, run[k - 1], run[k]);
    }
  }

  // ---------- Validation as it runs ----------

  method CheckOrigins(g: Grammar, origins: seq<string>) returns (ok: bool)
    ensures ok <==> Increasing(origins) && forall i :: 0 <= i < |origins| ==> origins[i] != "" && ValidOrigin(g, origins[i])
  {
    var previous := "";
    for i := 0 to |origins|
      invariant previous == if i == 0 then "" else origins[i - 1]
      invariant Increasing(origins[..i]) && forall k :: 0 <= k < i ==> origins[k] != "" && ValidOrigin(g, origins[k])
    {
      LessTotal(previous, origins[i]);
      if !Less(previous, origins[i]) || !ValidOrigin(g, origins[i]) {
        return false;
      }
      IncreasingNext(origins, i);
      previous := origins[i];
    }
    assert origins[..|origins|] == origins;
    return true;
  }

  lemma IncreasingNext(s: seq<string>, i: nat)
    requires i < |s| && Increasing(s[..i]) && (i > 0 ==> Less(s[i - 1], s[i]))
    ensures Increasing(s[..i + 1])
  {
    var head := s[..i + 1];
    forall a, b | 0 <= a < b < |head| ensures Less(head[a], head[b]) {
      if b < i {
        assert Less(s[..i][a], s[..i][b]);
      } else if a < i - 1 {
        assert Less(s[..i][a], s[..i][i - 1]);
        LessTransitive(s[a], s[i - 1], s[i]);
      }
    }
  }

  method CheckBindings(bindings: Option<seq<CredentialBinding>>) returns (ok: bool)
    ensures ok <==> bindings.Some? && BindingsValid(bindings.value)
  {
    if bindings.None? || |bindings.value| > 32 { return false; }
    var slots := Slots(bindings.value);
    var previous := "";
    for i := 0 to |bindings.value|
      invariant previous == if i == 0 then "" else slots[i - 1]
      invariant Increasing(slots[..i]) && forall k :: 0 <= k < i ==> Symbol(bindings.value[k].slot) && Symbol(bindings.value[k].name)
    {
      var b := bindings.value[i];
      assert b in bindings.value && (i > 0 ==> slots[i - 1] == bindings.value[i - 1].slot);
      if !Symbol(b.slot) || !Symbol(b.name) || !Less(previous, b.slot) { return false; }
      IncreasingNext(slots, i);
      previous := b.slot;
    }
    assert slots[..|slots|] == slots;
    return true;
  }

  /** validateVersionComposition, validateCandidates and the rest of Validate, with the two
      ordered lists read by their loops. */
  method Validate(g: Grammar, t: Transaction) returns (ok: bool)
    ensures ok <==> Valid(g, t)
  {
    hide Increasing, Symbol, ValidDigest, ValidId, ValidOrigin;
    var i, p := t.identity, t.identity.provenance;
    if i.version.OtherVersion? || !ValidId(i.id) || i.kind.OtherKind? { return false; }
    var composed := CheckComposition(i);
    if !composed || t.state.OtherState? || !CandidatesValid(i.kind, i.candidates) { return false; }
    if p.producer != "browsertools" || p.result.OtherResult? || !ValidDigest(p.resultDigest) { return false; }
    var observed, expires := g.instant(p.observed), g.instant(p.expires);
    if observed.None? || expires.None? || expires.value <= observed.value || |p.origins| == 0 || |p.origins| > 32 { return false; }
    var origins := CheckOrigins(g, p.origins);
    if !origins { return false; }
    var bindings := CheckBindings(i.bindings);
    if !bindings || (i.kind.Registration? && i.bindings.value == []) { return false; }
    if i.kind.AuthenticationCapability? {
      if !Symbol(i.session) { return false; }
    } else if i.session != "" {
      return false;
    }
    ok := CheckLifecycle(t);
  }

  /** validateVersionComposition. */
  method CheckComposition(i: Identity) returns (ok: bool)
    requires !i.kind.OtherKind?
    ensures ok <==>
            && (ResultFits(i.version, i.kind, i.provenance.result) || i.version.OtherVersion?)
            && (i.kind.Registration? ==>
                  |i.candidates| == 1 && i.candidates[0].schema == BrowserRegistration(if i.version.V3? then 1 else if i.version.V4? then 2 else 0))
  {
    var result := i.provenance.result;
    if i.kind.Registration? {
      var want := BrowserRegistration(0);
      if i.version.V3? { want := BrowserRegistration(1); }
      if i.version.V4? { want := BrowserRegistration(2); }
      if |i.candidates| != 1 || i.candidates[0].schema != want { return false; }
    }
    match i.version {
      case V1 =>
        if i.kind.AuthenticationCapability? && result != AuthenticatedAuthoringV2 { return false; }
        if i.kind.Registration? && result != RegistrationAuthoring(1) { return false; }
      case V2 =>
        if !i.kind.Registration? || result != RegistrationAuthoring(2) { return false; }
      case V4 =>
        if !i.kind.Registration? || result != RegistrationAuthoring(4) { return false; }
      case V3 =>
        if !i.kind.Registration? || result != RegistrationAuthoring(3) { return false; }
      case OtherVersion =>
    }
    return true;
  }

  /** validateLifecycle, for the states validState admits. */
  method CheckLifecycle(t: Transaction) returns (ok: bool)
    requires !t.state.OtherState?
    ensures ok <==> LifecycleValid(t)
  {
    hide ValidDigest;
    if t.preparation.Some? && (!ValidDigest(t.preparation.value.package) || !ValidDigest(t.preparation.value.qualification)) { return false; }
    if t.promotion.Some? && !ValidDigest(t.promotion.value) { return false; }
    if t.failure.Some? && !ValidFailure(t.failure.value) { return false; }
    match t.state {
      case Candidate => return t.preparation.None? && t.promotion.None? && t.failure.None?;
      case Reviewed => return t.preparation.None? && t.promotion.None? && t.failure.None?;
      case Prepared => return t.preparation.Some? && t.promotion.None? && t.failure.None?;
      case Promoted => return t.preparation.Some? && t.promotion.Some? && t.failure.None?;
      case Cancelled => return t.promotion.None? && t.failure.None?;
      case Failed => return t.promotion.None? && t.failure.Some? && !t.failure.value.class_.IndeterminateFailure?;
      case Indeterminate =>
        return t.preparation.Some? && t.promotion.None? && t.failure.Some? && t.failure.value.class_.IndeterminateFailure?
            && t.failure.value.code.PromotionIndeterminate?;
    }
  }

  // ---------- Canonical bytes ----------

  function Rank(k: CandidateKind): nat {
    match k
    case AuthenticationCandidate => 0
    case CapabilityCandidate => 1
    case RegistrationCandidate => 2
    case OtherCandidate => 3
  }

  predicate ByKind(a: Profile, b: Profile) { Rank(a.kind) <= Rank(b.kind) }

  predicate BySlot(a: CredentialBinding, b: CredentialBinding) {
    if a.slot == b.slot then AtMost(a.name, b.name) else Less(a.slot, b.slot)
  }

  /** The struct-to-JSON encoding: it can be undone, and spends at most six bytes on a
      scalar value of a text and two on its quotes; 1024 bytes hold every member name,
      enumerated word and bracket outside the lists. */
  datatype Codec = Codec(encode: Transaction -> seq<bv8>, decode: seq<bv8> -> Option<Transaction>)

  function TextBound(s: string): nat { 6 * |s| + 3 }
  function ProfileBound(p: Profile): nat { 256 + TextBound(p.source) + TextBound(p.review) }
  function BindingBound(b: CredentialBinding): nat { 32 + TextBound(b.slot) + TextBound(b.name) }

  function EncodingBound(t: Transaction): nat {
    var i, p := t.identity, t.identity.provenance;
    1024 + TextBound(i.id) + TextBound(i.session) + Total(ProfileBound, i.candidates)
    + TextBound(p.producer) + TextBound(p.resultDigest) + TextBound(p.observed) + TextBound(p.expires) + Total(TextBound, p.origins)
    + (if i.bindings.Some? then Total(BindingBound, i.bindings.value) else 0)
    + (if t.preparation.Some? then TextBound(t.preparation.value.package) + TextBound(t.preparation.value.qualification) else 0)
    + (if t.promotion.Some? then TextBound(t.promotion.value) else 0)
  }

  ghost predicate Faithful(g: Grammar, c: Codec) {
    && (forall t {:trigger c.encode(t)} :: Valid(g, t) ==> c.decode(c.encode(t)) == Some(t) && |c.encode(t)| <= EncodingBound(t))
    && (forall s {:trigger g.instant(s)} :: g.instant(s).Some? ==> |s| <= 35)
  }

  /** The transaction with its set-like lists sorted. */
  function Canonical(t: Transaction): Transaction
    requires t.identity.bindings.Some?
  {
    var i := t.identity;
    t.(identity := i.(candidates := Sort(ByKind, i.candidates),
                      bindings := Some(Sort(BySlot, i.bindings.value)),
                      provenance := i.provenance.(origins := Sort(AtMost, i.provenance.origins))))
  }

  method CanonicalBytes(g: Grammar, c: Codec, t: Transaction) returns (bytes: Option<seq<bv8>>)
    ensures bytes.Some? <==> t.identity.bindings.Some? && Valid(g, Canonical(t)) && |c.encode(Canonical(t))| <= MAX_BYTES
    ensures bytes.Some? ==> bytes.value == c.encode(Canonical(t))
  {
    if t.identity.bindings.None? { return None; }
    var canonical := Canonical(t);
    var ok := Validate(g, canonical);
    if !ok { return None; }
    var data := c.encode(canonical);
    if |data| > MAX_BYTES { return None; }
    return Some(data);
  }

  lemma BySlotOrders()
    ensures Preorder(BySlot)
  {
    forall a: CredentialBinding, b: CredentialBinding ensures BySlot(a, b) || BySlot(b, a) {
      LessTotal(a.slot, b.slot);
      LessTotal(a.name, b.name);
    }
    forall a: CredentialBinding, b: CredentialBinding, c: CredentialBinding | BySlot(a, b) && BySlot(b, c) ensures BySlot(a, c) {
      if a.slot != b.slot && b.slot != c.slot { LessTransitive(a.slot, b.slot, c.slot); }
      LessTotal(a.slot, b.slot);
      LessTotal(b.slot, c.slot);
      if a.name != b.name && b.name != c.name && Less(a.name, b.name) && Less(b.name, c.name) { LessTransitive(a.name, b.name, c.name); }
    }
  }

  lemma OriginsStaySorted(origins: seq<string>)
    requires Increasing(origins)
    ensures Sort(AtMost, origins) == origins
  {
    AtMostOrders();
    forall a, b | AtMost(a, b) && AtMost(b, a) ensures a == b { LessTotal(a, b); }
    SortOfSorted(AtMost, origins);
  }

  lemma BindingsStaySorted(bindings: seq<CredentialBinding>)
    requires Increasing(Slots(bindings))
    ensures Sort(BySlot, bindings) == bindings
  {
    BySlotOrders();
    forall i, j | 0 <= i < j < |bindings| ensures BySlot(bindings[i], bindings[j]) {
      assert Less(Slots(bindings)[i], Slots(bindings)[j]);
      LessTotal(bindings[i].slot, bindings[j].slot);
    }
    forall a: CredentialBinding, b: CredentialBinding | BySlot(a, b) && BySlot(b, a) ensures a == b {
      LessTotal(a.slot, b.slot);
      LessTotal(a.name, b.name);
    }
    SortOfSorted(BySlot, bindings);
  }

  lemma CandidatesStaySorted(kind: Kind, candidates: seq<Profile>)
    requires CandidatesValid(kind, candidates)
    ensures Sort(ByKind, candidates) == candidates
  {
    forall a, b | a in candidates && b in candidates && ByKind(a, b) && ByKind(b, a) ensures a == b {
    }
    SortOfSorted(ByKind, candidates);
  }

  /** A valid transaction is already canonical. */
  lemma ValidIsCanonical(g: Grammar, t: Transaction)
    requires Valid(g, t)
    ensures Canonical(t) == t
  {
    hide Sort, LifecycleValid;
    OriginsStaySorted(t.identity.provenance.origins);
    BindingsStaySorted(t.identity.bindings.value);
    CandidatesStaySorted(t.identity.kind, t.identity.candidates);
  }

  /** The size limit cannot be reached by a valid transaction. */
  lemma ValidFits(g: Grammar, t: Transaction)
    requires Valid(g, t)
    requires forall s {:trigger g.instant(s)} :: g.instant(s).Some? ==> |s| <= 35
    ensures EncodingBound(t) <= MAX_BYTES
  {
    hide Total;
    var i, p := t.identity, t.identity.provenance;
    TotalAtMost(ProfileBound, i.candidates, 1114);
    TotalAtMost(TextBound, p.origins, 6147);
    TotalAtMost(BindingBound, i.bindings.value, 1574);
  }

  /** Canonical bytes of a valid transaction always exist. */
  lemma CanonicalBytesExist(g: Grammar, c: Codec, t: Transaction)
    requires Faithful(g, c) && Valid(g, t)
    ensures t.identity.bindings.Some? && Canonical(t) == t && |c.encode(t)| <= MAX_BYTES
  {
    ValidIsCanonical(g, t);
    ValidFits(g, t);
  }

  // ---------- ValidateTransition ----------

  /** canonicalIdentityBytes starts from the identity as a fresh candidate. */
  function Start(t: Transaction): Transaction {
    Transaction(t.identity, Candidate, None, None, None)
  }

  lemma StartIsValid(g: Grammar, t: Transaction)
    requires Valid(g, t)
    ensures Valid(g, Start(t))
  {
    hide IdentityValid;
  }

  /** Two valid transactions have canonical bytes of their identities, and these are equal
      exactly when the identities are. */
  lemma BytesDecide(g: Grammar, c: Codec, a: Transaction, b: Transaction)
    requires Faithful(g, c) && Valid(g, a) && Valid(g, b)
    ensures Valid(g, Start(a)) && Start(a).identity.bindings.Some? && Canonical(Start(a)) == Start(a) && |c.encode(Start(a))| <= MAX_BYTES
    ensures Valid(g, Start(b)) && Start(b).identity.bindings.Some? && Canonical(Start(b)) == Start(b) && |c.encode(Start(b))| <= MAX_BYTES
    ensures c.encode(Start(a)) == c.encode(Start(b)) <==> a.identity == b.identity
  {
    StartIsValid(g, a);
    StartIsValid(g, b);
    hide Valid, Canonical;
    CanonicalBytesExist(g, c, Start(a));
    CanonicalBytesExist(g, c, Start(b));
    assert c.decode(c.encode(Start(a))) == Some(Start(a)) && c.decode(c.encode(Start(b))) == Some(Start(b));
    assert Start(a).identity == a.identity && Start(b).identity == b.identity;
  }

  /** A transition between valid transactions, as its tests read. */
  lemma StepTests(g: Grammar, a: Transaction, b: Transaction)
    requires Valid(g, a) && Valid(g, b)
    ensures Step(g, a, b) <==>
            && a.identity == b.identity && AllowedTransition(a.state, b.state)
            && (if a.preparation.Some? then b.preparation == a.preparation else b.preparation.Some? ==> b.state.Prepared?)
            && (a.promotion.Some? ==> b.promotion == a.promotion)
  {
    hide IdentityValid;
  }

  /** Identities are compared by their canonical bytes, and that comparison is exact and
      cannot fail. */
  method ValidateTransition(g: Grammar, c: Codec, a: Transaction, b: Transaction) returns (ok: bool)
    requires Faithful(g, c)
    ensures ok <==> Step(g, a, b)
  {
    hide Valid, Canonical, Faithful, Start, AllowedTransition;
    var before := Validate(g, a);
    if !before { NoStep(g, a, b); return false; }
    var after := Validate(g, b);
    if !after { NoStep(g, a, b); return false; }
    BytesDecide(g, c, a, b);
    StepTests(g, a, b);
    hide Step;
    var old_ := CanonicalBytes(g, c, Start(a));
    var new_ := CanonicalBytes(g, c, Start(b));
    if old_ != new_ { return false; }
    if a.preparation.Some? {
      if b.preparation != a.preparation { return false; }
    } else if b.preparation.Some? && !b.state.Prepared? {
      return false;
    }
    if a.promotion.Some? && b.promotion != a.promotion { return false; }
    return AllowedTransition(a.state, b.state);
  }

  lemma NoStep(g: Grammar, a: Transaction, b: Transaction)
    requires !Valid(g, a) || !Valid(g, b)
    ensures !Step(g, a, b)
  {
  }
}
