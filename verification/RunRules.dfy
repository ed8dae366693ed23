/** The rules of a browser run, said of its trace alone: which event may follow which
    others, with every message kind, outcome and limit written out. The checker follows
    exactly the traces that obey them (runevidence/browser.go). */
module RunRules {
  import opened Common
  import opened ReportV5
  import opened BrowserContract
  import opened RunChecker
  import opened RunSafety
  import opened RunEvidence
  import opened RunVerdict

  // ---------- What a trace shows ----------

  predicate Had(h: seq<Event>, kind: EventKind) {
    exists k :: 0 <= k < |h| && h[k].kind == kind
  }

  /** After such an event nothing may be asked, claimed or sent. */
  predicate Ends(e: Event) {
    || (e.kind.ClaimDispatch? && e.outcome.Refused?)
    || (e.kind.Response? && (e.outcome.DefiniteFailure? || e.outcome.Uncertain?))
    || (e.kind.Interact? && e.outcome.Deny?)
    || e.kind.Extraction? || e.kind.TypedDriverError? || e.kind.Failure?
  }

  predicate Over(h: seq<Event>) {
    exists k :: 0 <= k < |h| && Ends(h[k])
  }

  predicate Denied(h: seq<Event>) {
    exists k :: 0 <= k < |h| && h[k].kind.Interact? && h[k].outcome.Deny?
  }

  function LastAcquire(h: seq<Event>): Option<Word> {
    if h == [] then None
    else if h[|h| - 1].kind.SessionAcquire? then Some(h[|h| - 1].outcome)
    else LastAcquire(h[..|h| - 1])
  }

  function LastSend(h: seq<Event>): (r: int)
    ensures -1 <= r < |h|
  {
    if h == [] then -1
    else if h[|h| - 1].kind.Send? then |h| - 1
    else LastSend(h[..|h| - 1])
  }

  /** The last question, unless something was sent since. */
  function Open(h: seq<Event>): (r: int)
    ensures -1 <= r < |h|
  {
    if h == [] || h[|h| - 1].kind.Send? then -1
    else if h[|h| - 1].kind.QuestionEvent? then |h| - 1
    else Open(h[..|h| - 1])
  }

  predicate Affirms(e: Event) {
    || (e.kind.Interact? && (e.outcome.Approve? || e.outcome.Continue?))
    || (e.kind.RegistrationInputEvent? && e.outcome.CheckpointPrivate?)
  }

  predicate AffirmedSince(h: seq<Event>, q: int) {
    exists k :: 0 <= k < |h| && q < k && Affirms(h[k])
  }

  predicate CheckedSince(h: seq<Event>, q: int) {
    exists k :: 0 <= k < |h| && q < k && h[k].kind.AuthorityRecheck?
  }

  /** A claim that was not refused: its message must come next. */
  predicate Granted(h: seq<Event>) {
    h != [] && h[|h| - 1].kind.ClaimDispatch? && !h[|h| - 1].outcome.Refused?
  }

  ghost predicate EverClosed(calls: seq<Call>, h: seq<Event>, i: int) {
    exists k :: ClosedAt(calls, h, k, i)
  }

  ghost predicate Resolved(calls: seq<Call>, h: seq<Event>, i: int) {
    EverSucceeded(calls, h, i) || EverFailed(calls, h, i)
  }

  ghost predicate Earlier(calls: seq<Call>, h: seq<Event>, i: int)
    requires i <= |calls|
  {
    forall j :: 0 <= j < i ==> EverSucceeded(calls, h, j) && (calls[j].kind.Registration? ==> EverClosed(calls, h, j))
  }

  // ---------- Session, launch, join ----------

  predicate AccessRule(a: AccessWitness, e: Event, call: Call, again: bool) {
    && a.session.name == call.sessionName
    && (a.session.reuseAllowed ==> call.reuseAllowed && !again)
    && (a.session.saveAllowed ==> call.saveAllowed && !again)
    && (call.kind.Authentication? ==> a.binding.authenticationSha == call.sourceSha)
    && (call.kind.Action? ==> a.binding.profileSha == call.sourceSha)
    && (e.outcome.Fresh? || e.outcome.Reuse? ==> a.outcome == e.outcome)
  }

  predicate AcquireRule(p: Plan, h: seq<Event>, e: Event, call: Call) {
    && p.config.session.Some? && !Had(h, Launch) && !Had(h, Send)
    && e.outcome in {Fresh, Missing, Expired, Reuse}
    && (LastAcquire(h).Some? ==> LastAcquire(h).value in {Missing, Expired} && e.outcome.Fresh?)
    && (e.outcome.Reuse? ==>
          p.config.session.value.reuseAllowed && call.reuseAllowed && p.config.session.value.name == call.sessionName)
    && (p.host.access.Some? ==> AccessRule(p.host.access.value, e, call, LastAcquire(h).Some?))
  }

  predicate LaunchRule(p: Plan, h: seq<Event>, e: Event) {
    && e.outcome.Contained? && !Had(h, Launch) && (p.config.revisions == [] || Had(h, CredentialLease))
    && LastAcquire(h) in {None, Some(Fresh), Some(Reuse)}
    && (p.host.access.Some? ==> LastAcquire(h) == Some(p.host.access.value.outcome))
  }

  ghost predicate CandidateRule(p: Plan, h: seq<Event>, e: Event, i: int)
    requires 0 <= i < |p.config.calls|
  {
    && e.outcome.StagedBeforeClose? && p.config.calls[i].kind.Authentication? && p.config.calls[i].saveAllowed
    && p.host.access.Some? && p.host.access.value.session.saveAllowed
    && EverSucceeded(p.config.calls, h, i) && !Denied(h) && !Had(h, Candidate) && !Had(h, Join)
  }

  predicate SaveRule(p: Plan, h: seq<Event>, e: Event, call: Call) {
    && e.outcome.EncryptedAccepted? && call.saveAllowed
    && Had(h, Join) && Had(h, Candidate) && Had(h, GenerationRecheck) && !Had(h, SessionSave) && !Denied(h)
    && p.host.access.Some? && p.host.access.value.session.saveAllowed
    && p.config.session.Some? && p.host.savePermission.Some?
    && var s := p.config.session.value;
    && p.host.savePermission.value ==
         SavePermission(p.host.savePermission.value.permissionId, s.name, s.bindingSha, s.generation, call.operationId, true, true)
    && Identifier(p.host.savePermission.value.permissionId)
  }

  predicate NonDispatchRule(p: Plan, h: seq<Event>, e: Event) {
    && e.outcome.Complete? && Had(h, Join) && !Had(h, Send)
    && p.host.nonDispatch == Some(NonDispatchWitness(p.config.runId, p.config.planSha, p.config.calls, true, true, p.host.join))
  }

  ghost predicate SessionRule(p: Plan, h: seq<Event>, e: Event, i: int)
    requires 0 <= i < |p.config.calls|
  {
    && (e.kind.SessionAcquire? ==> AcquireRule(p, h, e, p.config.calls[i]))
    && (e.kind.Launch? ==> LaunchRule(p, h, e))
    && (e.kind.Candidate? ==> CandidateRule(p, h, e, i))
    && (e.kind.Join? ==> e.outcome.Proved? && Had(h, Launch) && !Had(h, Join))
    && (e.kind.GenerationRecheck? ==>
          Had(h, Join) && p.config.session.Some? && e.outcome == CurrentGeneration(p.config.session.value.generation))
    && (e.kind.SessionSave? ==> SaveRule(p, h, e, p.config.calls[i]))
    && (e.kind.SessionRelease? ==> e.outcome.Proved? && Had(h, Join))
    && (e.kind.NonDispatchCheck? ==> e.outcome.NothingSent? && !Had(h, Send))
    && (e.kind.NonDispatch? ==> NonDispatchRule(p, h, e))
  }

  // ---------- Questions ----------

  /** Whether e is about the open question, which concerns leaf i. */
  predicate Concerns(calls: seq<Call>, h: seq<Event>, e: Event, i: int) {
    && 0 <= Open(h) && LeafOf(calls, h[Open(h)]) == i
    && (e.question.Some? || h[Open(h)].outcome == Asks(RuntimeConfirmation) ==> e.question == h[Open(h)].question)
  }

  predicate InputRule(calls: seq<Call>, h: seq<Event>, e: Event, i: int)
    requires 0 <= i < |calls|
  {
    && calls[i].kind.Registration? && !Had(h, Join) && !Over(h)
    && (e.question.Some? ==> 0 <= Open(h) && e.question == h[Open(h)].question)
    && (|| (e.outcome.InitialPrivate? && !Had(h, Send))
        || (e.outcome.CheckpointPrivate? && 0 <= Open(h) && LeafOf(calls, h[Open(h)]) == i && h[Open(h)].outcome == Asks(RegistrationInput)))
  }

  ghost predicate AskRule(calls: seq<Call>, h: seq<Event>, e: Event, i: int)
    requires 0 <= i < |calls|
  {
    && Had(h, Launch) && !Had(h, Join) && !Over(h)
    && e.question.Some? && Identifier(e.question.value.id) && 1 <= e.question.value.revision <= 9007199254740991
    && DigestText(e.question.value.issuedSha)
    && (|| (calls[i].kind.Action? && e.outcome == Asks(RuntimeConfirmation) && !EverSent(calls, h, i))
        || (calls[i].kind.Authentication? && e.outcome in {Asks(MfaPush), Asks(MfaNumberMatch)}
            && EverSent(calls, h, i) && !Resolved(calls, h, i))
        || (calls[i].kind.Registration? && e.outcome in {Asks(RegistrationInput), Asks(RegistrationCheckpoint), Asks(RegistrationSubmit)}
            && EverSent(calls, h, i) && !Resolved(calls, h, i)))
  }

  predicate AnswerRule(calls: seq<Call>, h: seq<Event>, e: Event, i: int) {
    && Concerns(calls, h, e, i) && !Had(h, Join) && !Over(h)
    && (|| (h[Open(h)].outcome in {Asks(MfaPush), Asks(MfaNumberMatch), Asks(RuntimeConfirmation)} && e.outcome in {Approve, Deny})
        || (h[Open(h)].outcome in {Asks(RegistrationCheckpoint), Asks(RegistrationSubmit)} && e.outcome in {Continue, Deny}))
  }

  predicate CheckRule(calls: seq<Call>, h: seq<Event>, e: Event, i: int) {
    && Concerns(calls, h, e, i) && !Had(h, Join) && !Over(h)
    && AffirmedSince(h, Open(h)) && e.outcome.Current?
  }

  // ---------- Claims, sends, responses ----------

  /** The open question concerns leaf i, was answered and rechecked, and e carries it. */
  predicate ReadyFor(calls: seq<Call>, h: seq<Event>, e: Event, i: int) {
    && 0 <= Open(h) && LeafOf(calls, h[Open(h)]) == i && e.question == h[Open(h)].question
    && AffirmedSince(h, Open(h)) && CheckedSince(h, Open(h))
  }

  ghost predicate FirstRule(calls: seq<Call>, h: seq<Event>, e: Event, i: int)
    requires 0 <= i < |calls|
  {
    && (|| (calls[i].kind.Authentication? && e.messageKind == "authenticate" && e.outcome == Leaf(Authentication))
        || (calls[i].kind.Registration? && e.messageKind == "register" && e.outcome == Leaf(Registration))
        || (calls[i].kind.Action? && e.messageKind == "action" && e.outcome == Leaf(Action)))
    && (if 0 <= Open(h) && h[Open(h)].outcome == Asks(RuntimeConfirmation) then ReadyFor(calls, h, e, i) else e.question.None?)
    && Earlier(calls, h, i)
  }

  ghost predicate ReplyRule(calls: seq<Call>, h: seq<Event>, e: Event, i: int) {
    && !Resolved(calls, h, i) && ReadyFor(calls, h, e, i)
    && e.outcome == h[Open(h)].outcome && 0 <= LastSend(h) && e.requestId == h[LastSend(h)].requestId
    && (|| (e.outcome in {Asks(MfaPush), Asks(MfaNumberMatch)} && e.messageKind == "challenge_response")
        || (e.outcome == Asks(RegistrationInput) && e.messageKind == "registration_input_response")
        || (e.outcome in {Asks(RegistrationCheckpoint), Asks(RegistrationSubmit)} && e.messageKind == "registration_checkpoint_response"))
  }

  ghost predicate ClaimRule(calls: seq<Call>, h: seq<Event>, e: Event, i: int)
    requires 0 <= i < |calls|
  {
    && Had(h, Launch) && !Had(h, Join) && !Over(h)
    && (|| e.outcome.Refused?
        || (&& Identifier(e.requestId) && e.ordinal == Sends(h) + 1 && e.ordinal <= 4096 && e.outerProtocol == calls[i].outerProtocol
            && if EverSent(calls, h, i) then ReplyRule(calls, h, e, i) else FirstRule(calls, h, e, i)))
  }

  /** The message the claim was for; a question the claim carried is carried again. */
  predicate SendRule(h: seq<Event>, e: Event) {
    && Granted(h) && SameMessage(h[|h| - 1], e) && e.outcome == h[|h| - 1].outcome
    && (h[|h| - 1].question.Some? ==> e.question == h[|h| - 1].question)
  }

  ghost predicate ResponseRule(calls: seq<Call>, h: seq<Event>, e: Event, i: int) {
    && 0 <= LastSend(h) && SameMessage(h[LastSend(h)], e) && e.outcome in {Answered, DefiniteFailure, Uncertain}
    && !Resolved(calls, h, i) && !Over(h) && !Had(h, Join)
  }

  ghost predicate DispatchRule(calls: seq<Call>, h: seq<Event>, e: Event, i: int)
    requires 0 <= i < |calls|
  {
    && (e.kind.ClaimDispatch? ==> ClaimRule(calls, h, e, i))
    && (e.kind.Send? ==> SendRule(h, e))
    && (e.kind.Response? ==> ResponseRule(calls, h, e, i))
    && (e.kind.WriteCompleted? ==>
          e.outcome.Proved? && EverSent(calls, h, i) && !Resolved(calls, h, i) && !Over(h) && !Had(h, Join))
    && (e.kind.Extraction? || e.kind.TypedDriverError? ==> EverSent(calls, h, i) && !Resolved(calls, h, i) && !Had(h, Join))
    && (e.kind.RegistrationContextClose? ==>
          e.outcome.Proved? && calls[i].kind.Registration? && EverSent(calls, h, i) && !Had(h, Join))
    && (e.kind.Failure? ==> e.outcome.CheckpointFailure? && EverSucceeded(calls, h, i) && !Had(h, Join))
    && !e.kind.OtherEvent?
  }

  ghost predicate DialogueRule(calls: seq<Call>, h: seq<Event>, e: Event, i: int)
    requires 0 <= i < |calls|
  {
    && (e.kind.RegistrationInputEvent? ==> InputRule(calls, h, e, i))
    && (e.kind.QuestionEvent? ==> AskRule(calls, h, e, i))
    && (e.kind.Interact? ==> AnswerRule(calls, h, e, i))
    && (e.kind.AuthorityRecheck? ==> CheckRule(calls, h, e, i))
  }

  // ---------- The rule of an event ----------

  /** The host leased exactly the approved credential slots, at the approved revisions. */
  ghost predicate LeaseRule(p: Plan, h: seq<Event>, e: Event) {
    && e.outcome in {WholePlanPrivate, WholePlanPrivateTotpSeed} && !Had(h, Launch) && !Had(h, Send)
    && p.host.credentials.Some? && p.host.credentials.value.revisions == p.config.revisions
    && Distinct(p.host.credentials.value.slots)
    && forall s :: s in p.host.credentials.value.slots <==> Approved(p.config, s)
  }

  ghost predicate LeafRule(p: Plan, h: seq<Event>, e: Event, i: int)
    requires 0 <= i < |p.config.calls|
  {
    && e.launchLeaseId == p.host.launch.leaseId && e.containmentLeaseId == p.host.launch.containmentLeaseId
    && e.accessLeaseId == p.host.join.accessLeaseId
    && (Granted(h) ==> e.kind.Send?) && !Had(h, SessionRelease)
    && SessionRule(p, h, e, i) && DialogueRule(p.config.calls, h, e, i) && DispatchRule(p.config.calls, h, e, i)
  }

  /** Event e may follow the events h. */
  ghost predicate Rule(p: Plan, h: seq<Event>, e: Event) {
    && e.runId == p.config.runId && e.planSha == p.config.planSha
    && if e.kind.CredentialLease? then LeaseRule(p, h, e)
       else 0 <= LeafOf(p.config.calls, e) && LeafRule(p, h, e, LeafOf(p.config.calls, e))
  }

  ghost predicate Obeys(p: Plan, t: seq<Event>) {
    forall k :: 0 <= k < |t| ==> Rule(p, t[..k], t[k])
  }
}
