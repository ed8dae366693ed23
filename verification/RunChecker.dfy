/** The browser run checker: ObserveBrowserReport in runevidence/browser.go. The
    event loop is the class `Monitor`, one method per family of events, proved
    against the transition function `Next`; RunSafety and RunHistory prove what
    every run of `Next` keeps and what an accepted trace contains. */
module RunChecker {
  import opened Common
  import opened Text
  import opened ReportV5
  import opened BrowserContract

  const MAX_TRACE := 4096

  // ---------- Trace vocabulary ----------

  datatype QuestionKind =
    MfaPush | MfaNumberMatch | RegistrationInput | RegistrationCheckpoint | RegistrationSubmit | RuntimeConfirmation

  /** The values of an event's outcome text that the checker tests for; every other
      text is `OtherWord`. */
  datatype Word =
    | WholePlanPrivate | WholePlanPrivateTotpSeed
    | Fresh | Missing | Expired | Reuse
    | Contained | InitialPrivate | CheckpointPrivate
    | Asks(question: QuestionKind)
    | Approve | Deny | Continue
    | Current | Refused
    | Leaf(kind: CallKind)
    | Answered | DefiniteFailure | Uncertain
    | Proved | StagedBeforeClose | CurrentGeneration(generation: nat) | EncryptedAccepted
    | NothingSent | Complete | CheckpointFailure
    | OtherWord(text: string)

  datatype EventKind =
    | CredentialLease | SessionAcquire | Launch | RegistrationInputEvent | QuestionEvent | Interact | AuthorityRecheck
    | ClaimDispatch | Send | Response | WriteCompleted | Extraction | TypedDriverError | RegistrationContextClose
    | Candidate | Join | GenerationRecheck | SessionSave | SessionRelease | NonDispatchCheck | NonDispatch | Failure
    | OtherEvent(text: string)

  datatype Question = Question(id: string, revision: nat, issuedSha: string)

  datatype Event = Event(
    kind: EventKind, outcome: Word, runId: string, planSha: string,
    launchLeaseId: string, containmentLeaseId: string, accessLeaseId: string,
    stepId: string, operationId: string, invocationId: string,
    requestId: string, ordinal: nat, messageKind: string, outerProtocol: string,
    question: Option<Question>)

  // ---------- Host witnesses ----------

  datatype LaunchWitness = LaunchWitness(
    leaseId: string, launchNonce: string, worker: Worker, driverClosureSha: string,
    containmentLeaseId: string, allTraffic: bool, sandbox: bool, origins: seq<string>)

  datatype JoinWitness = JoinWitness(
    launchLeaseId: string, containmentLeaseId: string, accessLeaseId: string,
    transportJoined: bool, driverJoined: bool, chromiumJoined: bool, callbacksJoined: bool)

  datatype NonDispatchWitness = NonDispatchWitness(
    runId: string, planSha: string, calls: seq<Call>, allCovered: bool, noneTransmitted: bool, joined: JoinWitness)

  datatype SavePermission = SavePermission(
    permissionId: string, sessionName: string, bindingSha: string, generation: nat,
    authenticateOperationId: string, oneUse: bool, saveAllowed: bool)

  datatype CredentialWitness = CredentialWitness(slots: seq<CredentialSlot>, revisions: seq<Revision>)

  datatype AccessWitness = AccessWitness(leaseId: string, outcome: Word, session: Session, binding: Binding)

  datatype Host = Host(
    credentials: Option<CredentialWitness>, access: Option<AccessWitness>,
    expectedBinding: Option<Binding>, config: Config, inventory: Inventory,
    factRefs: seq<string>, launch: LaunchWitness, join: JoinWitness, trace: seq<Event>,
    nonDispatch: Option<NonDispatchWitness>, savePermission: Option<SavePermission>, durableBindings: int)

  /** What the event loop reads and never writes. */
  datatype Plan = Plan(config: Config, host: Host)

  // ---------- Loop state ----------

  /** The loop's six parallel slices, one record per approved call. */
  datatype LeafState = LeafState(
    outcome: Outcome, terminal: bool, sent: bool, request: string, lastMessage: string, closed: bool)

  /** The open question, the leaf it concerns, and how far it has been answered. */
  datatype Dialogue = Dialogue(question: Option<Question>, kind: Option<QuestionKind>, leaf: int, answered: bool, rechecked: bool)

  const NO_DIALOGUE := Dialogue(None, None, -1, false, false)
  const FRESH_LEAF := LeafState(NotStarted, false, false, "", "", false)

  /** Launch, session and save progress of the whole run. */
  datatype Phase = Phase(
    launchDone: bool, joinDone: bool, released: bool, nonDispatch: bool,
    candidate: bool, generationCurrent: bool, saveDone: bool, credentialsLeased: bool,
    humanDenied: bool, acquired: Option<Word>)

  datatype State = State(
    leaves: seq<LeafState>, dialogue: Dialogue, phase: Phase,
    anySent: bool, stopped: bool, lastStarted: int, ordinal: nat,
    pending: string, pendingQuestion: Option<QuestionKind>)

  function Initial(p: Plan): State {
    State(seq(|p.config.calls|, _ => FRESH_LEAF), NO_DIALOGUE,
          Phase(false, false, false, false, false, false, false, p.config.revisions == [], false, None),
          false, false, -1, 0, "", None)
  }

  predicate Sized(p: Plan, s: State) {
    |s.leaves| == |p.config.calls|
  }

  function TraceKey(e: Event): string {
    JoinNul([e.stepId, e.operationId, e.invocationId, e.requestId, Decimal(e.ordinal), e.messageKind, e.outerProtocol])
  }

  function InitialKind(kind: CallKind): string {
    match kind
    case Authentication => "authenticate"
    case Registration => "register"
    case Action => "action"
  }

  predicate ReplyKind(kind: QuestionKind, message: string) {
    match kind
    case MfaPush => message == "challenge_response"
    case MfaNumberMatch => message == "challenge_response"
    case RegistrationInput => message == "registration_input_response"
    case RegistrationCheckpoint => message == "registration_checkpoint_response"
    case RegistrationSubmit => message == "registration_checkpoint_response"
    case RuntimeConfirmation => false
  }

  predicate QuestionValid(q: Option<Question>) {
    q.Some? && Identifier(q.value.id) && 0 < q.value.revision <= MAX_SAFE_INTEGER && DigestText(q.value.issuedSha)
  }

  /** The first approved call an event names, or -1. */
  function LeafOf(calls: seq<Call>, e: Event): (r: int)
    ensures -1 <= r < |calls|
    ensures r >= 0 ==> calls[r].stepId == e.stepId && calls[r].operationId == e.operationId && calls[r].invocationId == e.invocationId
  {
    FindFrom(calls, e, 0)
  }

  function FindFrom(calls: seq<Call>, e: Event, i: nat): (r: int)
    requires i <= |calls|
    ensures -1 <= r < |calls|
    ensures r >= 0 ==> calls[r].stepId == e.stepId && calls[r].operationId == e.operationId && calls[r].invocationId == e.invocationId
    decreases |calls| - i
  {
    if i == |calls| then -1
    else if calls[i].stepId == e.stepId && calls[i].operationId == e.operationId && calls[i].invocationId == e.invocationId then i
    else FindFrom(calls, e, i + 1)
  }

  /** stopExecution: every leaf still in flight becomes terminal. */
  function StopLeaf(l: LeafState): LeafState {
    if l.sent && l.outcome.Unknown? then l.(terminal := true) else l
  }

  function StopLeaves(leaves: seq<LeafState>): (r: seq<LeafState>)
    ensures |r| == |leaves|
  {
    seq(|leaves|, i requires 0 <= i < |leaves| => StopLeaf(leaves[i]))
  }

  function SetLeaf(s: State, index: int, l: LeafState): State
    requires 0 <= index < |s.leaves|
  {
    s.(leaves := s.leaves[index := l])
  }

  function Stop(s: State): (r: State)
    ensures |r.leaves| == |s.leaves| && r == s.(stopped := true, leaves := r.leaves)
  {
    s.(stopped := true, leaves := StopLeaves(s.leaves))
  }

  // ---------- One event ----------

  /** Slots are told apart by the key that joins slot and name. */
  function SlotKey(s: CredentialSlot): string {
    JoinNul([s.slot, s.name])
  }

  function SlotKeys(calls: seq<Call>): set<string> {
    set i, j | 0 <= i < |calls| && 0 <= j < |calls[i].credentialSlots| :: SlotKey(calls[i].credentialSlots[j])
  }

  predicate SlotsMatch(expected: set<string>, slots: seq<CredentialSlot>) {
    && |slots| == |expected| && (forall i :: 0 <= i < |slots| ==> SlotKey(slots[i]) in expected)
    && forall i, j :: 0 <= i < j < |slots| ==> SlotKey(slots[i]) != SlotKey(slots[j])
  }

  predicate CredentialLeaseMatches(c: Config, w: Option<CredentialWitness>) {
    w.Some? && c.revisions == w.value.revisions && SlotsMatch(SlotKeys(c.calls), w.value.slots)
  }

  predicate AcquireAllowed(p: Plan, s: State, e: Event, call: Call) {
    var again := s.phase.acquired == Some(Missing) || s.phase.acquired == Some(Expired);
    && p.config.session.Some? && !s.phase.launchDone && !s.anySent && !s.phase.joinDone
    && (s.phase.acquired.Some? ==> again && e.outcome.Fresh?)
    && (again && p.host.access.Some? ==> !p.host.access.value.session.reuseAllowed && !p.host.access.value.session.saveAllowed)
    && (p.host.access.Some? ==>
          var a := p.host.access.value;
          && (a.session.reuseAllowed ==> call.reuseAllowed) && (a.session.saveAllowed ==> call.saveAllowed)
          && call.sessionName == a.session.name
          && (call.kind.Authentication? ==> call.sourceSha == a.binding.authenticationSha)
          && (call.kind.Action? ==> call.sourceSha == a.binding.profileSha))
    && (|| e.outcome.Fresh? || e.outcome.Missing? || e.outcome.Expired?
        || (e.outcome.Reuse? && p.config.session.value.reuseAllowed && call.reuseAllowed && call.sessionName == p.config.session.value.name))
    && (p.host.access.Some? && !e.outcome.Missing? && !e.outcome.Expired? ==> e.outcome == p.host.access.value.outcome)
  }

  predicate LaunchAllowed(p: Plan, s: State, e: Event) {
    && !s.phase.launchDone && !s.phase.joinDone && s.phase.credentialsLeased && e.outcome.Contained?
    && (s.phase.acquired.Some? ==> s.phase.acquired.value.Fresh? || s.phase.acquired.value.Reuse?)
    && (p.host.access.Some? ==> s.phase.acquired == Some(p.host.access.value.outcome))
  }

  function OnRegistrationInput(s: State, e: Event, call: Call, index: int): (r: Option<State>)
    ensures r.Some? ==> r.value == s.(dialogue := r.value.dialogue)
  {
    if !call.kind.Registration? || s.phase.joinDone || s.stopped || (e.question.Some? && s.dialogue.question != e.question) then None
    else if e.outcome.InitialPrivate? then (if s.anySent then None else Some(s))
    else if e.outcome.CheckpointPrivate? then
      if s.dialogue.leaf != index || s.dialogue.kind != Some(RegistrationInput) || s.dialogue.question.None? then None
      else Some(s.(dialogue := s.dialogue.(answered := true)))
    else None
  }

  predicate MayAsk(call: Call, kind: QuestionKind) {
    match kind
    case MfaPush => call.kind.Authentication?
    case MfaNumberMatch => call.kind.Authentication?
    case RegistrationInput => call.kind.Registration?
    case RegistrationCheckpoint => call.kind.Registration?
    case RegistrationSubmit => call.kind.Registration?
    case RuntimeConfirmation => call.kind.Action?
  }

  function OnQuestion(p: Plan, s: State, e: Event, call: Call, index: int): (r: Option<State>)
    requires Sized(p, s) && 0 <= index < |p.config.calls|
    ensures r.Some? ==> r.value == s.(dialogue := r.value.dialogue)
  {
    if !s.phase.launchDone || s.phase.joinDone || s.stopped || s.leaves[index].terminal || !QuestionValid(e.question) || !e.outcome.Asks? then None
    else if !e.outcome.question.RuntimeConfirmation? && (!s.leaves[index].sent || !s.leaves[index].outcome.Unknown?) then None
    else if !MayAsk(call, e.outcome.question) || (e.outcome.question.RuntimeConfirmation? && s.leaves[index].sent) then None
    else Some(s.(dialogue := Dialogue(e.question, Some(e.outcome.question), index, false, false)))
  }

  /** An event about the open question must concern its leaf and, where it carries a
      question of its own or answers a runtime confirmation, the very same question. */
  predicate AboutQuestion(s: State, e: Event, index: int) {
    && s.dialogue.question.Some? && s.dialogue.leaf == index && !s.phase.joinDone && !s.stopped
    && (e.question.Some? ==> s.dialogue.question == e.question)
    && (s.dialogue.kind == Some(RuntimeConfirmation) ==> s.dialogue.question == e.question)
  }

  predicate MayAnswer(kind: Option<QuestionKind>, answer: Word) {
    && kind.Some?
    && match kind.value
       case MfaPush => answer.Approve? || answer.Deny?
       case MfaNumberMatch => answer.Approve? || answer.Deny?
       case RuntimeConfirmation => answer.Approve? || answer.Deny?
       case RegistrationCheckpoint => answer.Continue? || answer.Deny?
       case RegistrationSubmit => answer.Continue? || answer.Deny?
       case RegistrationInput => false
  }

  predicate Denies(e: Event) {
    e.kind.Interact? && e.outcome.Deny?
  }

  function OnInteract(p: Plan, s: State, e: Event, index: int): (r: Option<State>)
    requires Sized(p, s) && e.kind.Interact?
    ensures r.Some? ==>
              if Denies(e) then r.value == Stop(s).(dialogue := r.value.dialogue, phase := s.phase.(humanDenied := true))
              else r.value == s.(dialogue := r.value.dialogue)
  {
    if !AboutQuestion(s, e, index) || !MayAnswer(s.dialogue.kind, e.outcome) then None
    else if e.outcome.Deny? then Some(Stop(s).(dialogue := s.dialogue.(answered := false), phase := s.phase.(humanDenied := true)))
    else Some(s.(dialogue := s.dialogue.(answered := true)))
  }

  predicate IsClaim(e: Event) {
    e.kind.ClaimDispatch? && !e.outcome.Refused?
  }

  /** A first claim for a leaf, after every earlier leaf succeeded. */
  predicate FirstClaimAllowed(p: Plan, s: State, e: Event, call: Call, index: int)
    requires Sized(p, s) && 0 <= index < |p.config.calls|
  {
    && e.messageKind == InitialKind(call.kind) && e.outcome == Leaf(call.kind) && index == s.lastStarted + 1
    && (if s.dialogue.kind == Some(RuntimeConfirmation)
        then s.dialogue.leaf == index && s.dialogue.answered && s.dialogue.rechecked && s.dialogue.question == e.question
        else e.question.None?)
    && forall i :: 0 <= i < index ==>
         s.leaves[i].outcome.Succeeded? && (p.config.calls[i].kind.Registration? ==> s.leaves[i].closed)
  }

  /** A further claim for the leaf in flight: the reply to its answered, rechecked question. */
  predicate NextClaimAllowed(p: Plan, s: State, e: Event, index: int)
    requires Sized(p, s) && 0 <= index < |p.config.calls|
  {
    && s.leaves[index].outcome.Unknown? && s.dialogue.leaf == index && s.dialogue.answered && s.dialogue.rechecked && s.dialogue.question == e.question
    && s.dialogue.kind.Some? && e.outcome == Asks(s.dialogue.kind.value) && s.leaves[index].request == e.requestId
    && ReplyKind(s.dialogue.kind.value, e.messageKind)
  }

  function OnClaim(p: Plan, s: State, e: Event, call: Call, index: int): (r: Option<State>)
    requires Sized(p, s) && 0 <= index < |p.config.calls|
    ensures r.Some? ==> |r.value.leaves| == |s.leaves| && r.value.phase == s.phase
  {
    if !s.phase.launchDone || s.phase.joinDone || s.stopped then None
    else if e.outcome.Refused? then Some(Stop(s))
    else if !Identifier(e.requestId) || e.ordinal != s.ordinal + 1 || e.ordinal > MAX_TRACE || e.outerProtocol != call.outerProtocol then None
    else if !(if s.leaves[index].sent then NextClaimAllowed(p, s, e, index) else FirstClaimAllowed(p, s, e, call, index)) then None
    else Some(s.(pending := TraceKey(e), pendingQuestion := s.dialogue.kind))
  }

  function OnSend(p: Plan, s: State, e: Event, call: Call, index: int): (r: Option<State>)
    requires Sized(p, s) && 0 <= index < |p.config.calls|
    ensures r.Some? ==> |r.value.leaves| == |s.leaves| && r.value.phase == s.phase
  {
    if !s.phase.launchDone || s.phase.joinDone || s.stopped || s.pending == "" || s.pending != TraceKey(e) then None
    else if s.leaves[index].sent && (s.dialogue.question != e.question || s.pendingQuestion.None? || e.outcome != Asks(s.pendingQuestion.value)) then None
    else if !s.leaves[index].sent && (e.outcome != Leaf(call.kind) || (s.dialogue.kind == Some(RuntimeConfirmation) && s.dialogue.question != e.question)) then None
    else Some(s.(
      pending := "", pendingQuestion := None, ordinal := e.ordinal, anySent := true,
      leaves := s.leaves[index := s.leaves[index].(outcome := Unknown, sent := true, request := e.requestId, lastMessage := TraceKey(e))],
      lastStarted := if index > s.lastStarted then index else s.lastStarted,
      dialogue := NO_DIALOGUE))
  }

  function OnResponse(p: Plan, s: State, e: Event, index: int): (r: Option<State>)
    requires Sized(p, s) && 0 <= index < |p.config.calls|
    ensures r.Some? ==> |r.value.leaves| == |s.leaves| && r.value.phase == s.phase
  {
    if !s.leaves[index].sent || s.phase.joinDone || s.leaves[index].terminal || s.leaves[index].lastMessage != TraceKey(e) || !s.leaves[index].outcome.Unknown? then None
    else
      match e.outcome
      case Answered => Some(SetLeaf(s, index, s.leaves[index].(terminal := true, outcome := Succeeded)))
      case DefiniteFailure => Some(Stop(SetLeaf(s, index, s.leaves[index].(terminal := true, outcome := Failed))))
      case Uncertain => Some(Stop(SetLeaf(s, index, s.leaves[index].(terminal := true))))
      case _ => None
  }

  function OnDriverError(p: Plan, s: State, index: int): (r: Option<State>)
    requires Sized(p, s) && 0 <= index < |p.config.calls|
    ensures r.Some? ==> |r.value.leaves| == |s.leaves| && r.value.phase == s.phase
  {
    if !s.leaves[index].sent || s.phase.joinDone || s.leaves[index].outcome.Succeeded? || s.leaves[index].outcome.Failed? then None
    else Some(Stop(SetLeaf(s, index, s.leaves[index].(outcome := Unknown, terminal := true))))
  }

  predicate CandidateAllowed(p: Plan, s: State, e: Event, call: Call, index: int)
    requires Sized(p, s) && 0 <= index < |p.config.calls|
  {
    && !s.phase.humanDenied && call.kind.Authentication? && call.saveAllowed
    && p.host.access.Some? && p.host.access.value.session.saveAllowed
    && s.leaves[index].outcome.Succeeded? && !s.phase.candidate && !s.phase.joinDone && e.outcome.StagedBeforeClose?
  }

  predicate SaveAllowed(p: Plan, s: State, e: Event, call: Call) {
    && !s.phase.humanDenied && s.phase.joinDone && s.phase.candidate && s.phase.generationCurrent && !s.phase.saveDone
    && p.host.savePermission.Some? && p.config.session.Some?
    && p.host.access.Some? && p.host.access.value.session.saveAllowed
    && var w, session := p.host.savePermission.value, p.config.session.value;
    && w.oneUse && w.saveAllowed && Identifier(w.permissionId)
    && w.sessionName == session.name && w.bindingSha == session.bindingSha && w.generation == session.generation
    && w.authenticateOperationId == call.operationId && call.saveAllowed && e.outcome.EncryptedAccepted?
  }

  predicate NonDispatchAllowed(p: Plan, s: State, e: Event) {
    && !s.anySent && s.phase.joinDone && e.outcome.Complete? && p.host.nonDispatch.Some?
    && var w := p.host.nonDispatch.value;
    && w.runId == p.config.runId && w.planSha == p.config.planSha && w.allCovered && w.noneTransmitted
    && w.calls == p.config.calls && w.joined == p.host.join
  }

  predicate SessionEventAllowed(p: Plan, s: State, e: Event, index: int)
    requires Sized(p, s) && 0 <= index < |p.config.calls|
  {
    match e.kind
    case SessionAcquire => AcquireAllowed(p, s, e, p.config.calls[index])
    case Launch => LaunchAllowed(p, s, e)
    case Candidate => CandidateAllowed(p, s, e, p.config.calls[index], index)
    case Join => s.phase.launchDone && !s.phase.joinDone && e.outcome.Proved?
    case GenerationRecheck =>
      s.phase.joinDone && p.config.session.Some? && e.outcome == CurrentGeneration(p.config.session.value.generation)
    case SessionSave => SaveAllowed(p, s, e, p.config.calls[index])
    case SessionRelease => s.phase.joinDone && e.outcome.Proved?
    case NonDispatchCheck => !s.anySent && e.outcome.NothingSent?
    case NonDispatch => NonDispatchAllowed(p, s, e)
    case _ => false
  }

  function PhaseEffect(a: Phase, e: Event): Phase {
    if e.kind.SessionAcquire? then a.(acquired := Some(e.outcome))
    else if e.kind.Launch? then a.(launchDone := true)
    else if e.kind.Candidate? then a.(candidate := true)
    else if e.kind.Join? then a.(joinDone := true)
    else if e.kind.GenerationRecheck? then a.(generationCurrent := true)
    else if e.kind.SessionSave? then a.(saveDone := true)
    else if e.kind.SessionRelease? then a.(released := true)
    else if e.kind.NonDispatch? then a.(nonDispatch := true)
    else a
  }

  /** Session, launch, join and release: events that only move the phase. */
  function SessionEffect(s: State, e: Event): State {
    s.(phase := PhaseEffect(s.phase, e))
  }

  function OnDialogueEvent(p: Plan, s: State, e: Event, index: int): (r: Option<State>)
    requires Sized(p, s) && 0 <= index < |p.config.calls|
    ensures r.Some? ==>
              if Denies(e) then r.value == Stop(s).(dialogue := r.value.dialogue, phase := s.phase.(humanDenied := true))
              else r.value == s.(dialogue := r.value.dialogue)
  {
    if e.kind.RegistrationInputEvent? then OnRegistrationInput(s, e, p.config.calls[index], index)
    else if e.kind.QuestionEvent? then OnQuestion(p, s, e, p.config.calls[index], index)
    else if e.kind.Interact? then OnInteract(p, s, e, index)
    else if e.kind.AuthorityRecheck? then
      if s.dialogue.answered && e.outcome.Current? && AboutQuestion(s, e, index)
      then Some(s.(dialogue := s.dialogue.(rechecked := true))) else None
    else None
  }

  function OnDispatchEvent(p: Plan, s: State, e: Event, index: int): (r: Option<State>)
    requires Sized(p, s) && 0 <= index < |p.config.calls|
    ensures r.Some? ==> |r.value.leaves| == |s.leaves| && r.value.phase == s.phase
  {
    var call, leaf := p.config.calls[index], s.leaves[index];
    if e.kind.ClaimDispatch? then OnClaim(p, s, e, call, index)
    else if e.kind.Send? then OnSend(p, s, e, call, index)
    else if e.kind.Response? then OnResponse(p, s, e, index)
    else if e.kind.WriteCompleted? then
      if leaf.sent && !s.phase.joinDone && !leaf.terminal && e.outcome.Proved? then Some(s) else None
    else if e.kind.Extraction? || e.kind.TypedDriverError? then OnDriverError(p, s, index)
    else if e.kind.RegistrationContextClose? then
      if call.kind.Registration? && leaf.sent && e.outcome.Proved? && !s.phase.joinDone
      then Some(SetLeaf(s, index, leaf.(closed := true))) else None
    else if e.kind.Failure? then
      if e.outcome.CheckpointFailure? && leaf.outcome.Succeeded? && !s.phase.joinDone then Some(Stop(s)) else None
    else None
  }

  predicate AboutSession(kind: EventKind) {
    || kind.SessionAcquire? || kind.Launch? || kind.Candidate? || kind.Join? || kind.GenerationRecheck?
    || kind.SessionSave? || kind.SessionRelease? || kind.NonDispatchCheck? || kind.NonDispatch?
  }

  predicate AboutDialogue(kind: EventKind) {
    kind.RegistrationInputEvent? || kind.QuestionEvent? || kind.Interact? || kind.AuthorityRecheck?
  }

  /** The events about one leaf, after the tests common to all of them. */
  function OnLeafEvent(p: Plan, s: State, e: Event, index: int): (r: Option<State>)
    requires Sized(p, s) && 0 <= index < |p.config.calls|
    ensures r.Some? ==> |r.value.leaves| == |s.leaves|
  {
    if AboutSession(e.kind) then (if SessionEventAllowed(p, s, e, index) then Some(SessionEffect(s, e)) else None)
    else if AboutDialogue(e.kind) then OnDialogueEvent(p, s, e, index)
    else OnDispatchEvent(p, s, e, index)
  }

  predicate LeaseAllowed(p: Plan, s: State, e: Event) {
    && !s.phase.launchDone && !s.anySent && (e.outcome.WholePlanPrivate? || e.outcome.WholePlanPrivateTotpSeed?)
    && CredentialLeaseMatches(p.config, p.host.credentials)
  }

  predicate Addressed(p: Plan, e: Event) {
    && e.launchLeaseId == p.host.launch.leaseId && e.containmentLeaseId == p.host.launch.containmentLeaseId
    && e.accessLeaseId == p.host.join.accessLeaseId
  }

  /** One turn of the event loop; None is the checker's refusal. */
  function Next(p: Plan, s: State, e: Event): (r: Option<State>)
    requires Sized(p, s)
    ensures r.Some? ==> Sized(p, r.value)
  {
    if e.runId != p.config.runId || e.planSha != p.config.planSha then None
    else if e.kind.CredentialLease? then
      if LeaseAllowed(p, s, e) then Some(s.(phase := s.phase.(credentialsLeased := true))) else None
    else if !Addressed(p, e) || LeafOf(p.config.calls, e) < 0 || (s.pending != "" && !e.kind.Send?) || s.phase.released then None
    else OnLeafEvent(p, s, e, LeafOf(p.config.calls, e))
  }

  function Run(p: Plan, t: seq<Event>): (r: Option<State>)
    ensures r.Some? ==> Sized(p, r.value)
    decreases |t|
  {
    if t == [] then Some(Initial(p))
    else
      var before := Run(p, t[..|t| - 1]);
      if before.None? then None
      else
        Next(p, before.value, t[|t| - 1])
  }
}
