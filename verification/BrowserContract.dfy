/** Browser calls and configurations (browsercontract/types.go, validate.go and
    protocol.go). */
module BrowserContract {
  import opened Common
  import opened ReportV5

  const CONFIG_VERSION := "openudon.browser-config.v1"
  const MAX_SAFE_INTEGER := 9007199254740991
  const THIRTY_DAYS := 30 * 24 * 3600 * 1_000_000_000

  datatype CallKind = Action | Authentication | Registration

  datatype Selector = Selector(kind: string, value: string, key: string)

  datatype CredentialSlot = CredentialSlot(slot: string, name: string)

  datatype Revision = Revision(name: string, revision: string)

  datatype Call = Call(
    stepId: string, operationId: string, invocationId: string, kind: CallKind,
    sourceId: string, sourceSha: string, profileVersion: string, selector: Selector,
    selectedSha: string, outerProtocol: string, innerProtocol: string,
    origins: seq<string>, effects: seq<string>, confirmationSha: string,
    credentialSlots: seq<CredentialSlot>, authenticationSourceId: string,
    sessionName: string, registrationInput: string, reuseAllowed: bool, saveAllowed: bool)

  datatype Worker = Worker(profile: string, binarySha: string, closureSha: string, runtimeRevision: string)

  /** `createdUtc` and `expiresUtc` record the trailing "Z" of the two texts. */
  datatype Session = Session(
    name: string, bindingSha: string, generation: nat,
    createdAt: Stamp, createdUtc: bool, expiresAt: Stamp, expiresUtc: bool,
    reuseAllowed: bool, saveAllowed: bool)

  /** What a host must find behind a configured session. */
  datatype Binding = Binding(
    ownerId: string, agentId: string, name: string, bindingSha: string,
    profileSha: string, authenticationSha: string, revisions: seq<Revision>,
    origins: seq<string>, generation: nat, createdAt: Stamp, expiresAt: Stamp)

  datatype Config = Config(
    version: string, ownerId: string, agentId: string, runId: string,
    digests: seq<string>, planSha: string, workflowSha: string,
    worker: Worker, driverClosureSha: string, launchNonce: string, containmentLeaseId: string,
    admittedDeadline: Stamp, origins: seq<string>, calls: seq<Call>,
    revisions: seq<Revision>, session: Option<Session>, factRefs: seq<string>)

  // ---------- Grammars ----------

  predicate Symbol(s: string) {
    && 1 <= |s| <= 128 && ('A' <= s[0] <= 'Z' || 'a' <= s[0] <= 'z')
    && forall i :: 0 <= i < |s| ==> Alphanumeric(s[i]) || s[i] in "_-"
  }

  predicate ActionKey(s: string) {
    1 <= |s| <= 1024 && forall i :: 0 <= i < |s| ==> Alphanumeric(s[i]) || s[i] in "_-"
  }

  predicate EffectName(s: string) {
    && 1 <= |s| <= 64 && 'a' <= s[0] <= 'z'
    && forall i :: 0 <= i < |s| ==> 'a' <= s[i] <= 'z' || '0' <= s[i] <= '9' || s[i] == '_'
  }

  predicate CommitText(s: string) {
    |s| == 40 && forall i :: 0 <= i < |s| ==> '0' <= s[i] <= '9' || 'a' <= s[i] <= 'f'
  }

  predicate HasPrefix(s: string, prefix: string) {
    prefix <= s
  }

  predicate StrictlyIncreasing(s: seq<string>) {
    forall i :: 1 <= i < |s| ==> Less(s[i - 1], s[i])
  }

  /** `canonical` answers whether a text is its own parsed origin. */
  predicate OriginsValid(canonical: string -> bool, origins: seq<string>) {
    && 0 < |origins| <= 64 && StrictlyIncreasing(origins)
    && forall i :: 0 <= i < |origins| ==> canonical(origins[i]) && ByteLength(origins[i]) <= 2048
  }

  function Protocols(profile: string): (string, string) {
    if profile == "uws.browser-authentication.1.0" then ("udon.browser-driver.v2", "")
    else if profile == "uws.browser-authentication.1.1" then ("udon.browser-driver.v3", "")
    else if profile in ["uws.browser.1.5", "uws.browser.1.6", "uws.browser.1.7"] then ("udon.browser-driver.v3", "udon.browser-driver.v2")
    else if profile in ["uws.browser.1.8", "uws.browser.1.9"] then ("udon.browser-driver.v10", "udon.browser-driver.v3")
    else if profile == "uws.browser.1.10" then ("udon.browser-driver.v11", "udon.browser-driver.v4")
    else if profile == "uws.browser-registration.1.0" then ("udon.browser-driver.v4", "")
    else if profile == "uws.browser-registration.1.1" then ("udon.browser-driver.v5", "")
    else if profile == "uws.browser-registration.1.2" then ("udon.browser-driver.v6", "")
    else ("", "")
  }

  predicate ProtocolPairValid(c: Call) {
    var (outer, inner) := Protocols(c.profileVersion);
    && outer != "" && inner == c.innerProtocol
    && (|| c.outerProtocol == outer
        || (c.profileVersion == "uws.browser-authentication.1.1" && c.outerProtocol in ["udon.browser-driver.v10", "udon.browser-driver.v11"])
        || (c.profileVersion in ["uws.browser.1.5", "uws.browser.1.6", "uws.browser.1.7"] && c.outerProtocol == "udon.browser-driver.v10"))
  }

  // ---------- Calls ----------

  predicate IdentityValid(c: Call) {
    Identifier(c.stepId) && Identifier(c.operationId) && c.invocationId == c.stepId && Identifier(c.sourceId)
  }

  predicate KindValid(c: Call) {
    match c.kind
    case Action =>
      && HasPrefix(c.profileVersion, "uws.browser.1.") && c.credentialSlots == []
      && c.registrationInput == "" && !c.saveAllowed
      && (c.sessionName == "" ==> c.authenticationSourceId == "" && !c.reuseAllowed)
      && (c.sessionName != "" ==> Identifier(c.sessionName) && Identifier(c.authenticationSourceId))
    case Authentication =>
      && Symbol(c.selector.key) && HasPrefix(c.profileVersion, "uws.browser-authentication.")
      && Identifier(c.sessionName) && c.authenticationSourceId == "" && c.registrationInput == "" && c.confirmationSha == ""
    case Registration =>
      && Symbol(c.selector.key) && HasPrefix(c.profileVersion, "uws.browser-registration.")
      && c.sessionName == "" && c.authenticationSourceId == "" && !c.reuseAllowed && !c.saveAllowed
      && (c.registrationInput != "" ==> Identifier(c.registrationInput))
  }

  predicate SelectorValid(s: Selector) {
    s.kind == "id" && s.value == s.key && ActionKey(s.key)
  }

  predicate SlotsValid(slots: seq<CredentialSlot>) {
    && (forall i :: 0 <= i < |slots| ==> Symbol(slots[i].slot) && Identifier(slots[i].name))
    && (forall i :: 1 <= i < |slots| ==> Less(slots[i - 1].slot, slots[i].slot))
  }

  predicate AllValid(valid: string -> bool, names: seq<string>) {
    forall i :: 0 <= i < |names| ==> valid(names[i])
  }

  predicate CallValid(canonical: string -> bool, c: Call) {
    && IdentityValid(c) && DigestText(c.sourceSha) && DigestText(c.selectedSha)
    && OriginsValid(canonical, c.origins)
    && SelectorValid(c.selector)
    && ProtocolPairValid(c) && |c.credentialSlots| <= 128
    && KindValid(c)
    && (c.confirmationSha != "" ==> DigestText(c.confirmationSha))
    && 0 < |c.effects| <= 64 && AllValid(EffectName, c.effects) && Distinct(c.effects)
    && SlotsValid(c.credentialSlots)
  }

  /** The origin loop. */
  method CheckOrigins(canonical: string -> bool, origins: seq<string>) returns (ok: bool)
    ensures ok <==> OriginsValid(canonical, origins)
  {
    if |origins| == 0 || 64 < |origins| { return false; }
    for n := 0 to |origins|
      invariant forall i :: 0 <= i < n ==> canonical(origins[i]) && ByteLength(origins[i]) <= 2048
      invariant forall i :: 1 <= i < n ==> Less(origins[i - 1], origins[i])
    {
      if !canonical(origins[n]) || 2048 < ByteLength(origins[n]) || (n > 0 && !Less(origins[n - 1], origins[n])) { return false; }
    }
    return true;
  }

  /** The digest loop. */
  method CheckAll(valid: string -> bool, names: seq<string>) returns (ok: bool)
    ensures ok <==> AllValid(valid, names)
  {
    for n := 0 to |names|
      invariant forall i :: 0 <= i < n ==> valid(names[i])
    {
      if !valid(names[n]) { return false; }
    }
    return true;
  }

  /** The effect loop and the fact loop: valid names, none of them seen before. */
  method CheckNames(valid: string -> bool, names: seq<string>) returns (ok: bool)
    ensures ok <==> AllValid(valid, names) && Distinct(names)
  {
    var seen: set<string> := {};
    for n := 0 to |names|
      invariant forall i :: 0 <= i < n ==> valid(names[i]) && names[i] in seen
      invariant forall name :: name in seen ==> exists i :: 0 <= i < n && names[i] == name
      invariant forall i, j :: 0 <= i < j < n ==> names[i] != names[j]
    {
      if !valid(names[n]) || names[n] in seen { return false; }
      seen := seen + {names[n]};
    }
    return true;
  }

  /** The credential slot loop. */
  method CheckSlots(slots: seq<CredentialSlot>) returns (ok: bool)
    ensures ok <==> SlotsValid(slots)
  {
    hide Symbol, Identifier, Less;
    for n := 0 to |slots|
      invariant forall i :: 0 <= i < n ==> Symbol(slots[i].slot) && Identifier(slots[i].name)
      invariant forall i :: 1 <= i < n ==> Less(slots[i - 1].slot, slots[i].slot)
    {
      if !Symbol(slots[n].slot) || !Identifier(slots[n].name) || (n > 0 && !Less(slots[n - 1].slot, slots[n].slot)) { return false; }
    }
    return true;
  }

  method ValidateCall(canonical: string -> bool, c: Call) returns (ok: bool)
    ensures ok <==> CallValid(canonical, c)
  {
    hide IdentityValid, DigestText, SelectorValid, ProtocolPairValid, KindValid, AllValid, Distinct, SlotsValid, OriginsValid;
    if !IdentityValid(c) || !DigestText(c.sourceSha) || !DigestText(c.selectedSha) { return false; }
    ok := CheckOrigins(canonical, c.origins);
    if !ok || !SelectorValid(c.selector) || !ProtocolPairValid(c) || 128 < |c.credentialSlots| || !KindValid(c) { return false; }
    if (c.confirmationSha != "" && !DigestText(c.confirmationSha)) || |c.effects| == 0 || 64 < |c.effects| { return false; }
    ok := CheckNames(EffectName, c.effects);
    if !ok { return false; }
    ok := CheckSlots(c.credentialSlots);
  }

  // ---------- Configurations ----------

  function SlotNames(calls: seq<Call>): set<string> {
    set i, j | 0 <= i < |calls| && 0 <= j < |calls[i].credentialSlots| :: calls[i].credentialSlots[j].name
  }

  function CallOrigins(calls: seq<Call>): set<string> {
    set i, j | 0 <= i < |calls| && 0 <= j < |calls[i].origins| :: calls[i].origins[j]
  }

  function OriginSet(c: Call): set<string> {
    set j | 0 <= j < |c.origins| :: c.origins[j]
  }

  function NameSet(c: Call): set<string> {
    set j | 0 <= j < |c.credentialSlots| :: c.credentialSlots[j].name
  }

  predicate DistinctIds(calls: seq<Call>) {
    forall i, j :: 0 <= i < j < |calls| ==>
      calls[i].stepId != calls[j].stepId && calls[i].operationId != calls[j].operationId
  }

  /** A leaf's session right needs the same right of the configured session it names. */
  predicate Permitted(session: Option<Session>, c: Call) {
    c.reuseAllowed || c.saveAllowed ==>
      && session.Some? && session.value.name == c.sessionName
      && (c.reuseAllowed ==> session.value.reuseAllowed) && (c.saveAllowed ==> session.value.saveAllowed)
  }

  predicate AtMostOneSave(calls: seq<Call>) {
    forall i, j :: 0 <= i < j < |calls| ==> !(calls[i].saveAllowed && calls[j].saveAllowed)
  }

  predicate CallsOk(canonical: string -> bool, session: Option<Session>, calls: seq<Call>) {
    && (forall i :: 0 <= i < |calls| ==> CallValid(canonical, calls[i]) && Permitted(session, calls[i]))
    && DistinctIds(calls)
  }

  predicate RevisionsOk(c: Config) {
    && |c.revisions| == |SlotNames(c.calls)|
    && (forall i :: 0 <= i < |c.revisions| ==>
          c.revisions[i].name in SlotNames(c.calls) && Identifier(c.revisions[i].name) && Identifier(c.revisions[i].revision))
    && (forall i :: 1 <= i < |c.revisions| ==> Less(c.revisions[i - 1].name, c.revisions[i].name))
  }

  /** The revision loop, against the credential names the call loop collected. */
  method CheckRevisions(c: Config, credentials: set<string>) returns (ok: bool)
    requires credentials == SlotNames(c.calls)
    ensures ok <==> RevisionsOk(c)
  {
    hide SlotNames, Identifier, Less;
    var r := c.revisions;
    if |r| != |credentials| { return false; }
    for n := 0 to |r|
      invariant forall i :: 0 <= i < n ==> r[i].name in credentials && Identifier(r[i].name) && Identifier(r[i].revision)
      invariant forall i :: 1 <= i < n ==> Less(r[i - 1].name, r[i].name)
    {
      if r[n].name !in credentials || !Identifier(r[n].name) || !Identifier(r[n].revision) || (n > 0 && !Less(r[n - 1].name, r[n].name)) {
        return false;
      }
    }
    return true;
  }

  predicate SomeReuse(calls: seq<Call>, session: string) {
    exists i :: 0 <= i < |calls| && calls[i].sessionName == session && calls[i].reuseAllowed
  }

  predicate SomeSave(calls: seq<Call>, session: string) {
    exists i :: 0 <= i < |calls| && calls[i].sessionName == session && calls[i].saveAllowed
  }

  predicate SessionOk(c: Config) {
    c.session.Some? ==>
      var s := c.session.value;
      && Identifier(s.name) && DigestText(s.bindingSha) && 0 < s.generation <= MAX_SAFE_INTEGER
      && s.createdAt.At? && s.expiresAt.At? && s.createdUtc && s.expiresUtc
      && s.createdAt.time < s.expiresAt.time && s.expiresAt.time - s.createdAt.time <= THIRTY_DAYS
      && c.admittedDeadline.At? && s.createdAt.time < c.admittedDeadline.time
      && s.reuseAllowed == SomeReuse(c.calls, s.name) && s.saveAllowed == SomeSave(c.calls, s.name)
  }

  predicate HeadOk(canonical: string -> bool, c: Config) {
    && c.version == CONFIG_VERSION && Identifier(c.ownerId) && Identifier(c.agentId) && Identifier(c.runId)
    && Identifier(c.worker.profile) && Identifier(c.launchNonce) && Identifier(c.containmentLeaseId)
    && OriginsValid(canonical, c.origins) && 0 < |c.calls| <= 100 && |c.revisions| <= 128 && 0 < |c.factRefs| <= 128
    && DigestText(c.planSha) && DigestText(c.workflowSha) && DigestText(c.driverClosureSha)
    && DigestText(c.worker.binarySha) && DigestText(c.worker.closureSha) && CommitText(c.worker.runtimeRevision)
    && c.admittedDeadline.At?
  }

  predicate ConfigValid(canonical: string -> bool, c: Config) {
    && HeadOk(canonical, c) && AllValid(DigestText, c.digests)
    && CallsOk(canonical, c.session, c.calls)
    && AtMostOneSave(c.calls)
    && CallOrigins(c.calls) == (set o | o in c.origins)
    && RevisionsOk(c)
    && AllValid(Identifier, c.factRefs) && Distinct(c.factRefs)
    && SessionOk(c)
  }

  function CallSteps(calls: seq<Call>): set<string> {
    set i | 0 <= i < |calls| :: calls[i].stepId
  }

  function CallOperations(calls: seq<Call>): set<string> {
    set i | 0 <= i < |calls| :: calls[i].operationId
  }

  /** What the call loop holds after these calls, all of them good. */
  ghost predicate Tallied(canonical: string -> bool, session: Option<Session>, calls: seq<Call>,
                          steps: set<string>, ops: set<string>, origins: set<string>, credentials: set<string>, saves: nat) {
    && CallsOk(canonical, session, calls) && steps == CallSteps(calls) && ops == CallOperations(calls)
    && origins == CallOrigins(calls) && credentials == SlotNames(calls)
    && (saves == 0 <==> NoSave(calls)) && (saves <= 1 <==> AtMostOneSave(calls))
  }

  /** One turn of the call loop. */
  method ScanCall(canonical: string -> bool, session: Option<Session>, calls: seq<Call>, n: nat,
                  steps: set<string>, ops: set<string>, origins: set<string>, credentials: set<string>, saves: nat)
    returns (ok: bool, steps': set<string>, ops': set<string>, origins': set<string>, credentials': set<string>, saves': nat)
    requires n < |calls| && Tallied(canonical, session, calls[..n], steps, ops, origins, credentials, saves)
    ensures ok ==> Tallied(canonical, session, calls[..n + 1], steps', ops', origins', credentials', saves')
    ensures !ok ==> !CallsOk(canonical, session, calls)
  {
    var call := calls[n];
    TalliedNext(canonical, session, calls, n, steps, ops, origins, credentials, saves);
    hide *;
    steps', ops', origins', credentials', saves' := steps, ops, origins, credentials, saves;
    ok := ValidateCall(canonical, call);
    ok := ok && call.stepId !in steps && call.operationId !in ops;
    if !ok { return; }
    steps', ops' := steps + {call.stepId}, ops + {call.operationId};
    origins', credentials' := origins + OriginSet(call), credentials + NameSet(call);
    ok := Permitted(session, call);
    if ok && call.saveAllowed { saves' := saves + 1; }
  }

  /** The call loop: it rejects on the first bad, repeated or over-privileged call and
      otherwise leaves the origin, credential and save tallies of all of them. */
  method ScanCalls(canonical: string -> bool, c: Config)
    returns (ok: bool, origins: set<string>, credentials: set<string>, saves: nat)
    ensures ok <==> CallsOk(canonical, c.session, c.calls)
    ensures ok ==> origins == CallOrigins(c.calls) && credentials == SlotNames(c.calls)
    ensures ok ==> (saves <= 1 <==> AtMostOneSave(c.calls))
  {
    var steps, ops: set<string> := {}, {};
    ok, origins, credentials, saves := true, {}, {}, 0;
    NoCalls(canonical, c.session, c.calls);
    hide *;
    for n := 0 to |c.calls|
      invariant Tallied(canonical, c.session, c.calls[..n], steps, ops, origins, credentials, saves)
    {
      ok, steps, ops, origins, credentials, saves := ScanCall(canonical, c.session, c.calls, n, steps, ops, origins, credentials, saves);
      if !ok { return; }
    }
    ok := true;
    AllTallied(canonical, c.session, c.calls, steps, ops, origins, credentials, saves);
  }

  lemma AllTallied(canonical: string -> bool, session: Option<Session>, calls: seq<Call>,
                   steps: set<string>, ops: set<string>, origins: set<string>, credentials: set<string>, saves: nat)
    requires Tallied(canonical, session, calls[..|calls|], steps, ops, origins, credentials, saves)
    ensures CallsOk(canonical, session, calls) && origins == CallOrigins(calls) && credentials == SlotNames(calls)
    ensures saves <= 1 <==> AtMostOneSave(calls)
  {
    assert calls[..|calls|] == calls;
  }

  lemma TalliedNext(canonical: string -> bool, session: Option<Session>, calls: seq<Call>, n: nat,
                    steps: set<string>, ops: set<string>, origins: set<string>, credentials: set<string>, saves: nat)
    requires n < |calls| && Tallied(canonical, session, calls[..n], steps, ops, origins, credentials, saves)
    ensures var call := calls[n];
            if CallValid(canonical, call) && Permitted(session, call) && call.stepId !in steps && call.operationId !in ops
            then Tallied(canonical, session, calls[..n + 1], steps + {call.stepId}, ops + {call.operationId},
                         origins + OriginSet(call), credentials + NameSet(call), if call.saveAllowed then saves + 1 else saves)
            else !CallsOk(canonical, session, calls)
  {
    var head, call := calls[..n], calls[n];
    assert calls[..n + 1] == head + [call];
    FirstCallsOk(canonical, session, calls, n + 1);
    hide *;
    TalliedMore(canonical, session, head, call, steps, ops, origins, credentials, saves);
  }

  lemma TalliedMore(canonical: string -> bool, session: Option<Session>, head: seq<Call>, call: Call,
                    steps: set<string>, ops: set<string>, origins: set<string>, credentials: set<string>, saves: nat)
    requires Tallied(canonical, session, head, steps, ops, origins, credentials, saves)
    ensures CallsOk(canonical, session, head + [call]) <==>
              CallValid(canonical, call) && Permitted(session, call) && call.stepId !in steps && call.operationId !in ops
    ensures CallsOk(canonical, session, head + [call]) ==>
              Tallied(canonical, session, head + [call], steps + {call.stepId}, ops + {call.operationId},
                      origins + OriginSet(call), credentials + NameSet(call), if call.saveAllowed then saves + 1 else saves)
  {
    hide CallsOk, CallSteps, CallOperations, CallOrigins, SlotNames, CallValid, Permitted, NoSave, AtMostOneSave, OriginSet, NameSet;
    CallsNext(canonical, session, head, call);
    TallyNext(head, call);
    SavesNext(head, call);
  }

  lemma NoCalls(canonical: string -> bool, session: Option<Session>, calls: seq<Call>)
    ensures Tallied(canonical, session, calls[..0], {}, {}, {}, {}, 0)
  {
  }

  lemma FirstCallsOk(canonical: string -> bool, session: Option<Session>, calls: seq<Call>, n: nat)
    requires n <= |calls|
    ensures CallsOk(canonical, session, calls) ==> CallsOk(canonical, session, calls[..n])
  {
  }

  lemma CallsNext(canonical: string -> bool, session: Option<Session>, calls: seq<Call>, c: Call)
    requires CallsOk(canonical, session, calls)
    ensures CallsOk(canonical, session, calls + [c]) <==>
              CallValid(canonical, c) && Permitted(session, c) && c.stepId !in CallSteps(calls) && c.operationId !in CallOperations(calls)
    ensures CallSteps(calls + [c]) == CallSteps(calls) + {c.stepId}
    ensures CallOperations(calls + [c]) == CallOperations(calls) + {c.operationId}
  {
    var more := calls + [c];
    assert more[|calls|] == c;
    assert forall i :: 0 <= i < |calls| ==> more[i] == calls[i];
  }

  predicate NoSave(calls: seq<Call>) {
    forall i :: 0 <= i < |calls| ==> !calls[i].saveAllowed
  }

  lemma SavesNext(calls: seq<Call>, c: Call)
    ensures AtMostOneSave(calls + [c]) <==> AtMostOneSave(calls) && (c.saveAllowed ==> NoSave(calls))
    ensures NoSave(calls + [c]) <==> NoSave(calls) && !c.saveAllowed
  {
    var more := calls + [c];
    assert more[|calls|] == c;
    assert forall i :: 0 <= i < |calls| ==> more[i] == calls[i];
  }

  lemma TallyNext(calls: seq<Call>, c: Call)
    ensures CallOrigins(calls + [c]) == CallOrigins(calls) + OriginSet(c)
    ensures SlotNames(calls + [c]) == SlotNames(calls) + NameSet(c)
  {
    var more := calls + [c];
    assert forall i :: 0 <= i < |calls| ==> more[i] == calls[i];
    assert more[|calls|] == c;
    forall o | o in CallOrigins(calls) ensures o in CallOrigins(more) {
      var i, j :| 0 <= i < |calls| && 0 <= j < |calls[i].origins| && calls[i].origins[j] == o;
      assert more[i].origins[j] == o;
    }
    forall name | name in SlotNames(calls) ensures name in SlotNames(more) {
      var i, j :| 0 <= i < |calls| && 0 <= j < |calls[i].credentialSlots| && calls[i].credentialSlots[j].name == name;
      assert more[i].credentialSlots[j].name == name;
    }
    forall j | 0 <= j < |c.origins| ensures c.origins[j] in CallOrigins(more) {
      assert more[|calls|].origins[j] == c.origins[j];
    }
    forall j | 0 <= j < |c.credentialSlots| ensures c.credentialSlots[j].name in SlotNames(more) {
      assert more[|calls|].credentialSlots[j] == c.credentialSlots[j];
    }
  }

  /** The rights the calls of one session use together. */
  method SessionFlags(calls: seq<Call>, session: string) returns (found: bool, reuse: bool, save: bool)
    ensures found <==> exists i :: 0 <= i < |calls| && calls[i].sessionName == session
    ensures reuse == SomeReuse(calls, session) && save == SomeSave(calls, session)
  {
    found, reuse, save := false, false, false;
    for n := 0 to |calls|
      invariant found <==> exists i :: 0 <= i < n && calls[i].sessionName == session
      invariant reuse <==> exists i :: 0 <= i < n && calls[i].sessionName == session && calls[i].reuseAllowed
      invariant save <==> exists i :: 0 <= i < n && calls[i].sessionName == session && calls[i].saveAllowed
    {
      if calls[n].sessionName == session {
        found := true;
        reuse := reuse || calls[n].reuseAllowed;
        save := save || calls[n].saveAllowed;
      }
    }
  }

  method ValidateConfig(canonical: string -> bool, c: Config) returns (ok: bool)
    ensures ok <==> ConfigValid(canonical, c)
  {
    if !HeadOk(canonical, c) { return false; }
    ok := CheckAll(DigestText, c.digests);
    if !ok { return; }
    var origins, credentials, saves;
    ok, origins, credentials, saves := ScanCalls(canonical, c);
    if !ok || saves > 1 || origins != (set o | o in c.origins) { return false; }
    ok := CheckRevisions(c, credentials);
    if !ok { return false; }
    ok := CheckNames(Identifier, c.factRefs);
    if !ok { return false; }
    if c.session.Some? {
      var s := c.session.value;
      if !Identifier(s.name) || !DigestText(s.bindingSha) || s.generation == 0 || MAX_SAFE_INTEGER < s.generation
         || !s.createdAt.At? || !s.expiresAt.At? || !s.createdUtc || !s.expiresUtc
         || s.expiresAt.time <= s.createdAt.time || THIRTY_DAYS < s.expiresAt.time - s.createdAt.time
         || c.admittedDeadline.time <= s.createdAt.time {
        return false;
      }
      var found, reuse, save := SessionFlags(c.calls, s.name);
      if (!found && (s.reuseAllowed || s.saveAllowed)) || reuse != s.reuseAllowed || save != s.saveAllowed { return false; }
    }
    return true;
  }

  /** In a valid configuration the revision names are exactly the slot names, once each. */
  lemma RevisionNames(canonical: string -> bool, c: Config)
    requires ConfigValid(canonical, c)
    ensures (set i | 0 <= i < |c.revisions| :: c.revisions[i].name) == SlotNames(c.calls)
    ensures forall i, j :: 0 <= i < j < |c.revisions| ==> c.revisions[i].name != c.revisions[j].name
  {
    IncreasingNames(c.revisions);
    var names := set i | 0 <= i < |c.revisions| :: c.revisions[i].name;
    DistinctCount(c.revisions);
    SubsetOfSameSize(names, SlotNames(c.calls));
  }

  lemma {:induction false} IncreasingNames(r: seq<Revision>)
    requires forall i :: 1 <= i < |r| ==> Less(r[i - 1].name, r[i].name)
    ensures forall i, j :: 0 <= i < j < |r| ==> Less(r[i].name, r[j].name) && r[i].name != r[j].name
  {
    if r != [] {
      var front := r[..|r| - 1];
      IncreasingNames(front);
      forall i, j | 0 <= i < j < |r| ensures Less(r[i].name, r[j].name) && r[i].name != r[j].name {
        if j == |r| - 1 && i < j - 1 {
          assert Less(front[i].name, front[j - 1].name);
          LessTransitive(r[i].name, r[j - 1].name, r[j].name);
        } else if j < |r| - 1 {
          assert Less(front[i].name, front[j].name);
        }
        LessTotal(r[i].name, r[j].name);
      }
    }
  }

  lemma {:induction false} DistinctCount(r: seq<Revision>)
    requires forall i, j :: 0 <= i < j < |r| ==> r[i].name != r[j].name
    ensures |set i | 0 <= i < |r| :: r[i].name| == |r|
  {
    var names := set i | 0 <= i < |r| :: r[i].name;
    if r != [] {
      var front := r[..|r| - 1];
      DistinctCount(front);
      var before := set i | 0 <= i < |front| :: front[i].name;
      assert names == before + {r[|r| - 1].name};
      assert r[|r| - 1].name !in before;
    }
  }

}
