/** Runs exist: one browser action followed from launch to release, and one sign-in that is
    asked a question, answers it and has its session saved (runevidence/browser.go). */
module RunWitness {
  import opened Common
  import opened Text
  import opened ReportV5
  import opened BrowserContract
  import opened RunChecker
  import opened RunSafety
  import opened RunEvidence

  /** An event about the plan's only call. */
  function EventOf(p: Plan, kind: EventKind, outcome: Word, ordinal: nat, message: string, question: Option<Question>): Event
    requires |p.config.calls| == 1
  {
    var c := p.config.calls[0];
    Event(kind, outcome, p.config.runId, p.config.planSha, p.host.launch.leaseId, p.host.launch.containmentLeaseId, p.host.join.accessLeaseId,
          c.stepId, c.operationId, c.invocationId, "request", ordinal, message, c.outerProtocol, question)
  }

  function About(p: Plan, kind: EventKind, outcome: Word): Event
    requires |p.config.calls| == 1
  {
    EventOf(p, kind, outcome, 1, "action", None)
  }

  predicate OneAction(p: Plan) {
    && |p.config.calls| == 1 && p.config.calls[0].kind.Action?
    && p.config.revisions == [] && p.config.session.None? && p.host.access.None?
  }

  lemma RunNext(p: Plan, t: seq<Event>, e: Event)
    requires Run(p, t).Some?
    ensures Run(p, t + [e]) == Next(p, Run(p, t).value, e)
  {
    assert (t + [e])[..|t|] == t;
  }

  lemma EventFound(p: Plan, kind: EventKind, outcome: Word, ordinal: nat, message: string, question: Option<Question>)
    requires |p.config.calls| == 1
    ensures var e := EventOf(p, kind, outcome, ordinal, message, question); LeafOf(p.config.calls, e) == 0 && Addressed(p, e)
  {
  }

  lemma LeafFound(p: Plan, kind: EventKind, outcome: Word)
    requires OneAction(p)
    ensures LeafOf(p.config.calls, About(p, kind, outcome)) == 0 && Addressed(p, About(p, kind, outcome))
  {
  }

  /** Launched and claimed. */
  lemma Claimed(p: Plan) returns (t: seq<Event>)
    requires OneAction(p)
    ensures Run(p, t).Some? && t == [About(p, Launch, Contained), About(p, ClaimDispatch, Leaf(Action))]
    ensures var s := Run(p, t).value;
            && s.leaves == Initial(p).leaves && s.dialogue == NO_DIALOGUE && !s.stopped
            && s.pending == TraceKey(About(p, ClaimDispatch, Leaf(Action))) != ""
            && s.phase.launchDone && !s.phase.joinDone && !s.phase.released
  {
    var launch, claim := About(p, Launch, Contained), About(p, ClaimDispatch, Leaf(Action));
    LeafFound(p, Launch, Contained);
    LeafFound(p, ClaimDispatch, Leaf(Action));
    assert Identifier("request");
    KeyNotEmpty(claim);
    hide LeafOf, Addressed, Identifier, JoinNul;
    assert Run(p, []) == Some(Initial(p));
    RunNext(p, [], launch);
    RunNext(p, [] + [launch], claim);
    t := [] + [launch] + [claim];
  }

  lemma SendNext(p: Plan, s: State)
    requires OneAction(p) && s.leaves == Initial(p).leaves && s.dialogue == NO_DIALOGUE && !s.stopped
    requires s.pending == TraceKey(About(p, Send, Leaf(Action))) != "" && s.phase.launchDone && !s.phase.joinDone && !s.phase.released
    ensures var r := Next(p, s, About(p, Send, Leaf(Action)));
            && r.Some? && r.value.pending == "" && r.value.phase == s.phase
            && var l := r.value.leaves[0]; l.sent && l.outcome.Unknown? && !l.terminal && l.lastMessage == TraceKey(About(p, Send, Leaf(Action)))
  {
    hide LeafOf, Addressed, TraceKey, OnClaim, OnResponse, OnDialogueEvent, OnDriverError, Run;
    LeafFound(p, Send, Leaf(Action));
  }

  /** Launched, claimed and sent. */
  lemma Dispatched(p: Plan) returns (t: seq<Event>)
    requires OneAction(p)
    ensures t == [About(p, Launch, Contained), About(p, ClaimDispatch, Leaf(Action)), About(p, Send, Leaf(Action))]
    ensures Run(p, t).Some? && Run(p, t).value.pending == "" && Run(p, t).value.phase.launchDone && !Run(p, t).value.phase.joinDone
    ensures var l := Run(p, t).value.leaves[0]; l.sent && l.outcome.Unknown? && !l.terminal && l.lastMessage == TraceKey(About(p, Send, Leaf(Action)))
    ensures !Run(p, t).value.phase.released
  {
    var claim, send := About(p, ClaimDispatch, Leaf(Action)), About(p, Send, Leaf(Action));
    assert TraceKey(claim) == TraceKey(send);
    hide LeafOf, Addressed, Run, TraceKey, Next;
    var before := Claimed(p);
    SendNext(p, Run(p, before).value);
    RunNext(p, before, send);
    t := before + [send];
  }

  lemma AnswerNext(p: Plan, s: State)
    requires OneAction(p) && Sized(p, s) && s.pending == "" && !s.phase.joinDone && !s.phase.released
    requires var l := s.leaves[0]; l.sent && l.outcome.Unknown? && !l.terminal && l.lastMessage == TraceKey(About(p, Response, Answered))
    ensures var r := Next(p, s, About(p, Response, Answered));
            r.Some? && r.value.leaves[0].outcome.Succeeded? && r.value.pending == "" && r.value.phase == s.phase
  {
    LeafFound(p, Response, Answered);
    hide LeafOf, Addressed, TraceKey, OnClaim, OnSend, OnDialogueEvent, OnDriverError;
  }

  lemma CloseNext(p: Plan, s: State, kind: EventKind)
    requires OneAction(p) && Sized(p, s) && s.pending == "" && !s.phase.released
    requires (kind.Join? && s.phase.launchDone && !s.phase.joinDone) || (kind.SessionRelease? && s.phase.joinDone)
    ensures Next(p, s, About(p, kind, Proved)) ==
            Some(s.(phase := if kind.Join? then s.phase.(joinDone := true) else s.phase.(released := true)))
  {
    LeafFound(p, kind, Proved);
    hide LeafOf, Addressed, OnDispatchEvent, OnDialogueEvent;
  }

  function ActionTrace(p: Plan): seq<Event>
    requires |p.config.calls| == 1
  {
    [About(p, Launch, Contained), About(p, ClaimDispatch, Leaf(Action)), About(p, Send, Leaf(Action)),
     About(p, Response, Answered), About(p, Join, Proved), About(p, SessionRelease, Proved)]
  }

  /** The run of one action: launched, claimed, sent, answered, joined, released. */
  lemma OneActionRuns(p: Plan)
    requires OneAction(p)
    ensures var t := ActionTrace(p); Run(p, t).Some? && Finished(Run(p, t).value) && Run(p, t).value.leaves[0].outcome.Succeeded?
  {
    var front := Dispatched(p);
    var answer, join, release := About(p, Response, Answered), About(p, Join, Proved), About(p, SessionRelease, Proved);
    assert TraceKey(answer) == TraceKey(About(p, Send, Leaf(Action)));
    hide Run, Next, TraceKey, OneAction, About;
    AnswerNext(p, Run(p, front).value);
    RunNext(p, front, answer);
    CloseNext(p, Run(p, front + [answer]).value, Join);
    RunNext(p, front + [answer], join);
    CloseNext(p, Run(p, front + [answer] + [join]).value, SessionRelease);
    RunNext(p, front + [answer] + [join], release);
    assert front + [answer] + [join] + [release] == ActionTrace(p);
  }

  // ---------- A sign-in that asks, and is saved ----------

  predicate SaveGranted(p: Plan) {
    && p.config.session.Some? && p.host.savePermission.Some? && |p.config.calls| == 1
    && var s, w, c := p.config.session.value, p.host.savePermission.value, p.config.calls[0];
    && w.oneUse && w.saveAllowed && Identifier(w.permissionId) && w.sessionName == s.name && w.bindingSha == s.bindingSha
    && w.generation == s.generation && w.authenticateOperationId == c.operationId && c.saveAllowed
  }

  predicate FreshAccess(p: Plan) {
    && p.host.access.Some? && |p.config.calls| == 1
    && var a, c := p.host.access.value, p.config.calls[0];
    && a.outcome.Fresh? && a.session.saveAllowed && (a.session.reuseAllowed ==> c.reuseAllowed)
    && a.session.name == c.sessionName && a.binding.authenticationSha == c.sourceSha
  }

  /** A plan of one sign-in whose session may be saved. */
  predicate OneLogin(p: Plan) {
    && |p.config.calls| == 1 && p.config.calls[0].kind.Authentication? && p.config.revisions == []
    && SaveGranted(p) && FreshAccess(p)
  }

  function Prompt(): Question {
    Question("question", 1, seq(64, _ => '0'))
  }

  const FIRST := "authenticate"
  const REPLY := "challenge_response"

  /** Event k of the run: acquired, launched, claimed, sent; asked, approved, rechecked; claimed
      and sent again, answered; staged, joined, rechecked, saved, released. */
  function LoginEvent(p: Plan, k: nat): Event
    requires OneLogin(p) && k < 15
  {
    match k
    case 0 => EventOf(p, SessionAcquire, Fresh, 1, FIRST, None)
    case 1 => EventOf(p, Launch, Contained, 1, FIRST, None)
    case 2 => EventOf(p, ClaimDispatch, Leaf(Authentication), 1, FIRST, None)
    case 3 => EventOf(p, Send, Leaf(Authentication), 1, FIRST, None)
    case 4 => EventOf(p, QuestionEvent, Asks(MfaPush), 1, FIRST, Some(Prompt()))
    case 5 => EventOf(p, Interact, Approve, 1, FIRST, Some(Prompt()))
    case 6 => EventOf(p, AuthorityRecheck, Current, 1, FIRST, Some(Prompt()))
    case 7 => EventOf(p, ClaimDispatch, Asks(MfaPush), 2, REPLY, Some(Prompt()))
    case 8 => EventOf(p, Send, Asks(MfaPush), 2, REPLY, Some(Prompt()))
    case 9 => EventOf(p, Response, Answered, 2, REPLY, None)
    case 10 => EventOf(p, Candidate, StagedBeforeClose, 2, REPLY, None)
    case 11 => EventOf(p, Join, Proved, 2, REPLY, None)
    case 12 => EventOf(p, GenerationRecheck, CurrentGeneration(p.config.session.value.generation), 2, REPLY, None)
    case 13 => EventOf(p, SessionSave, EncryptedAccepted, 2, REPLY, None)
    case 14 => EventOf(p, SessionRelease, Proved, 2, REPLY, None)
  }

  function LoginTrace(p: Plan): (t: seq<Event>)
    requires OneLogin(p)
    ensures |t| == 15 && forall k :: 0 <= k < 15 ==> t[k] == LoginEvent(p, k)
  {
    seq(15, k requires 0 <= k < 15 => LoginEvent(p, k))
  }

  function FirstKey(p: Plan): string
    requires |p.config.calls| == 1
  {
    TraceKey(EventOf(p, Send, Answered, 1, FIRST, None))
  }

  function ReplyKey(p: Plan): string
    requires |p.config.calls| == 1
  {
    TraceKey(EventOf(p, Send, Answered, 2, REPLY, None))
  }

  function LoginLeaf(p: Plan, k: nat): LeafState
    requires |p.config.calls| == 1
  {
    if k <= 3 then FRESH_LEAF
    else if k <= 8 then LeafState(Unknown, false, true, "request", FirstKey(p), false)
    else if k == 9 then LeafState(Unknown, false, true, "request", ReplyKey(p), false)
    else LeafState(Succeeded, true, true, "request", ReplyKey(p), false)
  }

  function LoginDialogue(k: nat): Dialogue {
    if 5 <= k <= 8 then Dialogue(Some(Prompt()), Some(MfaPush), 0, 6 <= k, 7 <= k) else NO_DIALOGUE
  }

  /** The state before event k. */
  function LoginState(p: Plan, k: nat): State
    requires |p.config.calls| == 1
  {
    State([LoginLeaf(p, k)], LoginDialogue(k),
          Phase(2 <= k, 12 <= k, 15 <= k, false, 11 <= k, 13 <= k, 14 <= k, true, false, if 1 <= k then Some(Fresh) else None),
          4 <= k, false, if 4 <= k then 0 else -1, if k <= 3 then 0 else if k <= 8 then 1 else 2,
          if k == 3 then FirstKey(p) else if k == 8 then ReplyKey(p) else "", if k == 8 then Some(MfaPush) else None)
  }

  /** Event k leads from state k to the next. */
  predicate LoginSteps(p: Plan, k: nat)
    requires OneLogin(p) && k < 15
  {
    Next(p, LoginState(p, k), LoginEvent(p, k)) == Some(LoginState(p, k + 1))
  }

  lemma LoginEventFound(p: Plan, k: nat)
    requires OneLogin(p) && k < 15
    ensures var e := LoginEvent(p, k);
            LeafOf(p.config.calls, e) == 0 && Addressed(p, e) && e.runId == p.config.runId && e.planSha == p.config.planSha && !e.kind.CredentialLease?
  {
    var e := LoginEvent(p, k);
    EventFound(p, e.kind, e.outcome, e.ordinal, e.messageKind, e.question);
  }

  lemma SessionSteps(p: Plan, k: nat)
    requires OneLogin(p) && k in {0, 1, 10, 11, 12, 13, 14}
    ensures LoginSteps(p, k)
  {
    LoginEventFound(p, k);
    hide LeafOf, Addressed, TraceKey, OnDialogueEvent, OnDispatchEvent, Identifier;
  }

  lemma DialogueSteps(p: Plan, k: nat)
    requires OneLogin(p) && k in {4, 5, 6}
    ensures LoginSteps(p, k)
  {
    LoginEventFound(p, k);
    hide LeafOf, Addressed, TraceKey, OnDispatchEvent, SessionEventAllowed;
  }

  lemma FirstClaimStep(p: Plan)
    requires OneLogin(p)
    ensures LoginSteps(p, 2)
  {
    hide LeafOf, Addressed, TraceKey, OnDialogueEvent, SessionEventAllowed, Identifier, OnSend, OnResponse, OnDriverError, NextClaimAllowed, FirstKey;
    LoginEventFound(p, 2);
    LoginKeys(p);
  }

  lemma ReplyClaimStep(p: Plan)
    requires OneLogin(p)
    ensures LoginSteps(p, 7)
  {
    hide LeafOf, Addressed, TraceKey, OnDialogueEvent, SessionEventAllowed, Identifier, OnSend, OnResponse, OnDriverError, FirstClaimAllowed, ReplyKey;
    LoginEventFound(p, 7);
    LoginKeys(p);
  }

  lemma LoginKeys(p: Plan)
    requires OneLogin(p)
    ensures TraceKey(LoginEvent(p, 2)) == TraceKey(LoginEvent(p, 3)) == FirstKey(p) != ""
    ensures TraceKey(LoginEvent(p, 7)) == TraceKey(LoginEvent(p, 8)) == TraceKey(LoginEvent(p, 9)) == ReplyKey(p) != ""
    ensures Identifier("request")
  {
    KeyNotEmpty(LoginEvent(p, 3));
    KeyNotEmpty(LoginEvent(p, 8));
    hide JoinNul;
  }

  lemma SendSteps(p: Plan, k: nat)
    requires OneLogin(p) && k in {3, 8}
    ensures LoginSteps(p, k)
  {
    hide LeafOf, Addressed, TraceKey, OnDialogueEvent, SessionEventAllowed, OnClaim, OnResponse, OnDriverError, FirstKey, ReplyKey;
    LoginEventFound(p, k);
    LoginKeys(p);
    assert LoginState(p, k).leaves[0 := LoginLeaf(p, k + 1)] == LoginState(p, k + 1).leaves;
  }

  lemma ResponseStep(p: Plan)
    requires OneLogin(p)
    ensures LoginSteps(p, 9)
  {
    hide LeafOf, Addressed, TraceKey, OnDialogueEvent, SessionEventAllowed, OnClaim, OnSend, OnDriverError, FirstKey, ReplyKey;
    LoginEventFound(p, 9);
    LoginKeys(p);
    assert LoginState(p, 9).leaves[0 := LoginLeaf(p, 10)] == LoginState(p, 10).leaves;
  }

  lemma LoginStep(p: Plan, k: nat)
    requires OneLogin(p) && k < 15
    ensures LoginSteps(p, k)
  {
    hide LoginSteps, OneLogin;
    if k == 2 {
      FirstClaimStep(p);
    } else if k == 7 {
      ReplyClaimStep(p);
    } else if k in {3, 8} {
      SendSteps(p, k);
    } else if k in {4, 5, 6} {
      DialogueSteps(p, k);
    } else if k == 9 {
      ResponseStep(p);
    } else {
      SessionSteps(p, k);
    }
  }

  lemma {:induction false} LoginRuns(p: Plan, k: nat)
    requires OneLogin(p) && k <= 15
    ensures Run(p, LoginTrace(p)[..k]) == Some(LoginState(p, k))
  {
    hide OneLogin, LoginTrace, LoginEvent;
    if k == 0 {
      LoginStart(p);
    } else {
      LoginRuns(p, k - 1);
      LoginStep(p, k - 1);
      LoginNext(p, k - 1);
    }
  }

  lemma LoginStart(p: Plan)
    requires OneLogin(p)
    ensures Run(p, LoginTrace(p)[..0]) == Some(LoginState(p, 0))
  {
    assert Initial(p).leaves == LoginState(p, 0).leaves;
  }

  lemma LoginNext(p: Plan, k: nat)
    requires OneLogin(p) && k < 15 && Run(p, LoginTrace(p)[..k]) == Some(LoginState(p, k)) && LoginSteps(p, k)
    ensures Run(p, LoginTrace(p)[..k + 1]) == Some(LoginState(p, k + 1))
  {
    hide OneLogin, Next, LoginState, LoginEvent;
    assert LoginTrace(p)[..k + 1] == LoginTrace(p)[..k] + [LoginEvent(p, k)];
    RunNext(p, LoginTrace(p)[..k], LoginEvent(p, k));
  }

  /** That run is followed to its end: the sign-in was sent twice, with a question, its answer
      and a recheck between, it succeeded, and its session was saved. */
  lemma OneLoginSaves(p: Plan)
    requires OneLogin(p) && CleanCalls(p.config.calls)
    ensures var t := LoginTrace(p);
            && Followed(p, t) && Finished(Run(p, t).value) && Run(p, t).value.leaves[0].outcome.Succeeded?
            && SentAt(p.config.calls, t, 3, 0) && SentAt(p.config.calls, t, 8, 0) && t[13].kind.SessionSave?
            && AtMostOneSave(p.config.calls)
  {
    LoginRuns(p, 15);
    LoginEventFound(p, 3);
    LoginEventFound(p, 8);
    assert LoginTrace(p)[..15] == LoginTrace(p);
    hide LeafOf, Next, TraceKey;
  }
}
