/** The run checker follows exactly the traces that obey the rules: the state of the event
    loop, seen as a summary of the events before (runevidence/browser.go). */
module RunConformance {
  import opened Common
  import opened Text
  import opened ReportV5
  import opened BrowserContract
  import opened RunChecker
  import opened RunSafety
  import opened RunHistory
  import opened RunEvidence
  import opened RunVerdict
  import opened RunRules

  // ---------- What the state remembers of the trace ----------

  predicate PhaseSeen(p: Plan, h: seq<Event>, a: Phase) {
    && (a.launchDone <==> Had(h, Launch)) && (a.joinDone <==> Had(h, Join)) && (a.released <==> Had(h, SessionRelease))
    && (a.nonDispatch <==> Had(h, NonDispatch)) && (a.candidate <==> Had(h, Candidate))
    && (a.generationCurrent <==> Had(h, GenerationRecheck)) && (a.saveDone <==> Had(h, SessionSave))
    && (a.credentialsLeased <==> p.config.revisions == [] || Had(h, CredentialLease))
    && (a.humanDenied <==> Denied(h)) && a.acquired == LastAcquire(h)
  }

  ghost predicate LeafSeen(calls: seq<Call>, h: seq<Event>, s: State, i: int)
    requires 0 <= i < |s.leaves|
  {
    && (s.leaves[i].sent <==> EverSent(calls, h, i)) && (s.leaves[i].closed <==> EverClosed(calls, h, i))
    && (s.leaves[i].outcome.Succeeded? <==> EverSucceeded(calls, h, i))
    && (s.leaves[i].outcome.Failed? <==> EverFailed(calls, h, i))
  }

  predicate TerminalSeen(s: State, i: int)
    requires 0 <= i < |s.leaves|
  {
    s.leaves[i].terminal <==> s.leaves[i].outcome.Succeeded? || s.leaves[i].outcome.Failed? || (s.leaves[i].sent && s.stopped)
  }

  ghost predicate LeavesSeen(calls: seq<Call>, h: seq<Event>, s: State) {
    && (s.stopped <==> Over(h)) && (s.anySent <==> Had(h, Send))
    && forall i :: 0 <= i < |s.leaves| ==> LeafSeen(calls, h, s, i) && TerminalSeen(s, i)
  }

  predicate CleanMessage(e: Event) {
    && NulFree(e.stepId) && NulFree(e.operationId) && NulFree(e.invocationId) && NulFree(e.requestId)
    && NulFree(e.messageKind) && NulFree(e.outerProtocol)
  }

  predicate SendSeen(calls: seq<Call>, h: seq<Event>, s: State) {
    && s.ordinal == Sends(h)
    && if LastSend(h) < 0 then s.lastStarted == -1 else MessageSeen(calls, h[LastSend(h)], s)
  }

  predicate MessageSeen(calls: seq<Call>, m: Event, s: State) {
    && CleanMessage(m) && s.lastStarted == LeafOf(calls, m) && 0 <= s.lastStarted < |s.leaves|
    && s.leaves[s.lastStarted].request == m.requestId && s.leaves[s.lastStarted].lastMessage == TraceKey(m)
  }

  predicate DialogueSeen(calls: seq<Call>, h: seq<Event>, s: State) {
    if Open(h) < 0 then s.dialogue == NO_DIALOGUE else QuestionSeen(calls, h, h[Open(h)], s)
  }

  predicate QuestionSeen(calls: seq<Call>, h: seq<Event>, q: Event, s: State) {
    && q.question.Some? && q.outcome.Asks? && s.dialogue.question == q.question && s.dialogue.kind == Some(q.outcome.question)
    && s.dialogue.leaf == LeafOf(calls, q) && 0 <= s.dialogue.leaf
    && (s.dialogue.rechecked <==> CheckedSince(h, Open(h)))
    && (!s.stopped ==> (s.dialogue.answered <==> AffirmedSince(h, Open(h))))
  }

  predicate ClaimSeen(p: Plan, h: seq<Event>, s: State)
    requires Sized(p, s)
  {
    (s.pending != "" <==> Granted(h)) && PendingIsLast(p, h, s)
  }

  ghost predicate Sees(p: Plan, h: seq<Event>, s: State) {
    && Sized(p, s) && Orderly(s) && Phased(s)
    && PhaseSeen(p, h, s.phase) && LeavesSeen(p.config.calls, h, s) && SendSeen(p.config.calls, h, s)
    && DialogueSeen(p.config.calls, h, s) && ClaimSeen(p, h, s)
  }

  // ---------- The checker's tests are the rules ----------

  lemma AcquireAgrees(p: Plan, h: seq<Event>, s: State, e: Event, call: Call)
    requires PhaseSeen(p, h, s.phase) && Phased(s) && (s.anySent <==> Had(h, Send))
    ensures AcquireAllowed(p, s, e, call) <==> AcquireRule(p, h, e, call)
  {
    hide Had, Denied, LastAcquire;
  }

  lemma LaunchAgrees(p: Plan, h: seq<Event>, s: State, e: Event)
    requires PhaseSeen(p, h, s.phase) && Phased(s)
    ensures LaunchAllowed(p, s, e) <==> LaunchRule(p, h, e)
  {
    hide Had, Denied, LastAcquire;
  }

  lemma CandidateAgrees(p: Plan, h: seq<Event>, s: State, e: Event, i: int)
    requires Sized(p, s) && 0 <= i < |p.config.calls| && PhaseSeen(p, h, s.phase) && LeafSeen(p.config.calls, h, s, i)
    ensures CandidateAllowed(p, s, e, p.config.calls[i], i) <==> CandidateRule(p, h, e, i)
  {
    hide Had, Denied, LastAcquire, EverSent, EverSucceeded, EverFailed, EverClosed;
  }

  lemma SaveAgrees(p: Plan, h: seq<Event>, s: State, e: Event, call: Call)
    requires PhaseSeen(p, h, s.phase)
    ensures SaveAllowed(p, s, e, call) <==> SaveRule(p, h, e, call)
  {
    hide Had, Denied, LastAcquire, Identifier;
  }

  lemma NonDispatchAgrees(p: Plan, h: seq<Event>, s: State, e: Event)
    requires PhaseSeen(p, h, s.phase) && (s.anySent <==> Had(h, Send))
    ensures NonDispatchAllowed(p, s, e) <==> NonDispatchRule(p, h, e)
  {
    hide Had, Denied, LastAcquire;
  }

  lemma SessionAgrees(p: Plan, h: seq<Event>, s: State, e: Event, i: int)
    requires Sees(p, h, s) && 0 <= i < |p.config.calls| && AboutSession(e.kind)
    ensures SessionEventAllowed(p, s, e, i) <==> SessionRule(p, h, e, i)
  {
    hide Had, Denied, LastAcquire, Orderly, SendSeen, DialogueSeen, ClaimSeen, TerminalSeen, LeafSeen;
    hide AcquireAllowed, AcquireRule, LaunchAllowed, LaunchRule, CandidateAllowed, CandidateRule, SaveAllowed, SaveRule;
    hide NonDispatchAllowed, NonDispatchRule;
    AcquireAgrees(p, h, s, e, p.config.calls[i]);
    LaunchAgrees(p, h, s, e);
    CandidateAgrees(p, h, s, e, i);
    SaveAgrees(p, h, s, e, p.config.calls[i]);
    NonDispatchAgrees(p, h, s, e);
  }

  lemma InputAgrees(p: Plan, h: seq<Event>, s: State, e: Event, i: int)
    requires Sees(p, h, s) && 0 <= i < |p.config.calls|
    ensures OnRegistrationInput(s, e, p.config.calls[i], i).Some? <==> InputRule(p.config.calls, h, e, i)
  {
    hide Had, Denied, LastAcquire, Over, Open, Orderly, SendSeen, ClaimSeen, TerminalSeen, LeafSeen, LeafOf, CheckedSince, AffirmedSince;
  }

  /** In flight: sent, with no outcome yet. */
  lemma OpenLeaf(p: Plan, h: seq<Event>, s: State, i: int)
    requires Sees(p, h, s) && 0 <= i < |p.config.calls|
    ensures s.leaves[i].sent <==> EverSent(p.config.calls, h, i)
    ensures s.leaves[i].closed <==> EverClosed(p.config.calls, h, i)
    ensures s.leaves[i].outcome.Succeeded? <==> EverSucceeded(p.config.calls, h, i)
    ensures s.leaves[i].outcome.Failed? <==> EverFailed(p.config.calls, h, i)
    ensures EverSent(p.config.calls, h, i) && !Resolved(p.config.calls, h, i) <==> s.leaves[i].outcome.Unknown?
    ensures Resolved(p.config.calls, h, i) ==> EverSent(p.config.calls, h, i)
    ensures s.leaves[i].terminal <==> Resolved(p.config.calls, h, i) || (EverSent(p.config.calls, h, i) && Over(h))
    ensures s.leaves[i].outcome.Unknown? ==> i == s.lastStarted && 0 <= LastSend(h)
    ensures i == s.lastStarted ==> s.leaves[i].sent
    ensures s.stopped <==> Over(h)
  {
    hide EverSent, EverSucceeded, EverFailed, EverClosed, PhaseSeen, DialogueSeen, ClaimSeen, Over, Had, LastSend;
    assert LeafSeen(p.config.calls, h, s, i) && TerminalSeen(s, i);
  }

  lemma AskAgrees(p: Plan, h: seq<Event>, s: State, e: Event, i: int)
    requires Sees(p, h, s) && 0 <= i < |p.config.calls|
    ensures OnQuestion(p, s, e, p.config.calls[i], i).Some? <==> AskRule(p.config.calls, h, e, i)
  {
    hide EverSent, EverSucceeded, EverFailed, EverClosed, Resolved, Over, Open, Had, Denied, LastSend, LastAcquire, Identifier, DigestText;
    hide Orderly, SendSeen, DialogueSeen, ClaimSeen, TerminalSeen, LeafSeen;
    OpenLeaf(p, h, s, i);
  }

  lemma AnswerAgrees(p: Plan, h: seq<Event>, s: State, e: Event, i: int)
    requires Sees(p, h, s) && 0 <= i < |p.config.calls| && e.kind.Interact?
    ensures OnInteract(p, s, e, i).Some? <==> AnswerRule(p.config.calls, h, e, i)
  {
    hide Had, Denied, LastAcquire, Over, Open, Orderly, SendSeen, ClaimSeen, TerminalSeen, LeafSeen, LeafOf, CheckedSince, AffirmedSince, StopLeaves;
  }

  lemma CheckAgrees(p: Plan, h: seq<Event>, s: State, e: Event, i: int)
    requires Sees(p, h, s) && 0 <= i < |p.config.calls| && e.kind.AuthorityRecheck?
    ensures OnDialogueEvent(p, s, e, i).Some? <==> CheckRule(p.config.calls, h, e, i)
  {
    hide Had, Denied, LastAcquire, Over, Open, Orderly, SendSeen, ClaimSeen, TerminalSeen, LeafSeen, LeafOf, CheckedSince, AffirmedSince;
  }

  lemma DialogueAgrees(p: Plan, h: seq<Event>, s: State, e: Event, i: int)
    requires Sees(p, h, s) && 0 <= i < |p.config.calls| && AboutDialogue(e.kind)
    ensures OnDialogueEvent(p, s, e, i).Some? <==> DialogueRule(p.config.calls, h, e, i)
  {
    hide Sees, InputRule, AskRule, AnswerRule, CheckRule, OnRegistrationInput, OnQuestion, OnInteract, AboutQuestion;
    if e.kind.RegistrationInputEvent? {
      InputAgrees(p, h, s, e, i);
    } else if e.kind.QuestionEvent? {
      AskAgrees(p, h, s, e, i);
    } else if e.kind.Interact? {
      AnswerAgrees(p, h, s, e, i);
    } else {
      CheckAgrees(p, h, s, e, i);
    }
  }

  lemma EarlierAgrees(p: Plan, h: seq<Event>, s: State, i: int)
    requires Sees(p, h, s) && 0 <= i < |p.config.calls|
    ensures Earlier(p.config.calls, h, i) <==>
            forall j :: 0 <= j < i ==> s.leaves[j].outcome.Succeeded? && (p.config.calls[j].kind.Registration? ==> s.leaves[j].closed)
    ensures Earlier(p.config.calls, h, i) && !s.leaves[i].sent ==> i == s.lastStarted + 1
  {
    hide EverSent, EverSucceeded, EverFailed, EverClosed, PhaseSeen, DialogueSeen, ClaimSeen, SendSeen, Over, Had, Phased;
    forall j | 0 <= j < i
      ensures s.leaves[j].outcome.Succeeded? <==> EverSucceeded(p.config.calls, h, j)
      ensures s.leaves[j].closed <==> EverClosed(p.config.calls, h, j)
    {
      assert LeafSeen(p.config.calls, h, s, j);
    }
    assert 0 < i && Earlier(p.config.calls, h, i) ==> s.leaves[i - 1].outcome.Succeeded?;
  }

  lemma FirstAgrees(p: Plan, h: seq<Event>, s: State, e: Event, i: int)
    requires Sees(p, h, s) && 0 <= i < |p.config.calls| && !s.leaves[i].sent && !s.stopped
    ensures FirstClaimAllowed(p, s, e, p.config.calls[i], i) <==> FirstRule(p.config.calls, h, e, i)
  {
    hide Had, Denied, LastAcquire, Over, Open, Orderly, Phased, PhaseSeen, LeavesSeen, SendSeen, ClaimSeen, LeafOf, CheckedSince, AffirmedSince, Earlier;
    EarlierAgrees(p, h, s, i);
  }

  lemma ReplyAgrees(p: Plan, h: seq<Event>, s: State, e: Event, i: int)
    requires Sees(p, h, s) && 0 <= i < |p.config.calls| && s.leaves[i].sent && !s.stopped
    ensures NextClaimAllowed(p, s, e, i) <==> ReplyRule(p.config.calls, h, e, i)
  {
    hide Had, Denied, LastAcquire, LastSend, Over, Open, Orderly, Phased, PhaseSeen, LeavesSeen, ClaimSeen, LeafOf, CheckedSince, AffirmedSince;
    hide EverSent, Resolved, CleanMessage, TraceKey;
    OpenLeaf(p, h, s, i);
  }

  lemma ClaimAgrees(p: Plan, h: seq<Event>, s: State, e: Event, i: int)
    requires Sees(p, h, s) && 0 <= i < |p.config.calls|
    ensures OnClaim(p, s, e, p.config.calls[i], i).Some? <==> ClaimRule(p.config.calls, h, e, i)
  {
    hide Had, Denied, LastAcquire, LastSend, Over, Orderly, Phased, LeavesSeen, ClaimSeen, DialogueSeen, Identifier, TraceKey;
    hide EverSent, FirstClaimAllowed, NextClaimAllowed, FirstRule, ReplyRule, MessageSeen, StopLeaves;
    OpenLeaf(p, h, s, i);
    if !s.stopped {
      if s.leaves[i].sent { ReplyAgrees(p, h, s, e, i); } else { FirstAgrees(p, h, s, e, i); }
    }
  }

  /** A clean message is told from every other by its key. */
  lemma MessageDecides(m: Event, e: Event)
    requires CleanMessage(m)
    ensures TraceKey(m) == TraceKey(e) <==> SameMessage(m, e)
  {
    var a := [m.stepId, m.operationId, m.invocationId, m.requestId, Decimal(m.ordinal), m.messageKind, m.outerProtocol];
    var b := [e.stepId, e.operationId, e.invocationId, e.requestId, Decimal(e.ordinal), e.messageKind, e.outerProtocol];
    if TraceKey(m) == TraceKey(e) {
      DecimalNulFree(m.ordinal);
      assert AllNulFree(a);
      JoinNulDecides(a, b);
      assert a[0] == b[0] && a[1] == b[1] && a[2] == b[2] && a[3] == b[3] && a[4] == b[4] && a[5] == b[5] && a[6] == b[6];
      NumeralOfDecimal(m.ordinal);
      NumeralOfDecimal(e.ordinal);
    }
  }

  lemma ClaimIsClean(p: Plan, s: State, c: Event)
    requires CleanCalls(p.config.calls) && Sized(p, s) && ClaimHolds(p, s, c)
    ensures CleanMessage(c) && s.pending == TraceKey(c)
  {
    hide NulFree, TraceKey, Identifier;
    IdentifierNulFree(c.requestId);
    MessageKindNulFree(p, s, c);
  }

  /** What the claim before a send guarantees of that send's tests. */
  lemma ClaimBefore(p: Plan, h: seq<Event>, s: State, c: Event, e: Event, i: int)
    requires Sized(p, s) && ClaimHolds(p, s, c) && SameMessage(c, e) && i == LeafOf(p.config.calls, c) && s.pending == TraceKey(c) == TraceKey(e) != ""
    requires s.dialogue.kind.Some? ==> s.dialogue.question.Some?
    ensures OnSend(p, s, e, p.config.calls[i], i).Some? <==> e.outcome == c.outcome && (c.question.Some? ==> e.question == c.question)
    ensures s.leaves[i].sent ==> s.leaves[i].outcome.Unknown?
  {
    hide TraceKey, Identifier, LeafOf, InitialKind, ReplyKind;
  }

  lemma SendAgrees(p: Plan, h: seq<Event>, s: State, e: Event)
    requires CleanCalls(p.config.calls) && Sees(p, h, s) && 0 <= LeafOf(p.config.calls, e)
    ensures var i := LeafOf(p.config.calls, e); OnSend(p, s, e, p.config.calls[i], i).Some? <==> SendRule(h, e)
  {
    hide Orderly, Phased, PhaseSeen, LeavesSeen, SendSeen, CleanCalls, TraceKey, LeafOf, OnSend, SameMessage;
    if s.pending == "" {
      NothingPending(p, s, e, LeafOf(p.config.calls, e));
    } else {
      var c := h[|h| - 1];
      ClaimIsClean(p, s, c);
      MessageDecides(c, e);
      hide ClaimHolds;
      if TraceKey(c) == TraceKey(e) {
        SameMessageLeaf(p.config.calls, c, e);
        ClaimBefore(p, h, s, c, e, LeafOf(p.config.calls, e));
      } else {
        NothingPending(p, s, e, LeafOf(p.config.calls, e));
      }
    }
  }

  lemma NothingPending(p: Plan, s: State, e: Event, i: int)
    requires Sized(p, s) && 0 <= i < |p.config.calls| && (s.pending == "" || s.pending != TraceKey(e))
    ensures OnSend(p, s, e, p.config.calls[i], i).None?
  {
  }

  lemma SameMessageLeaf(calls: seq<Call>, a: Event, b: Event)
    requires SameMessage(a, b)
    ensures LeafOf(calls, a) == LeafOf(calls, b)
  {
    SameLeaf(calls, a, b, 0);
  }

  lemma ResponseAgrees(p: Plan, h: seq<Event>, s: State, e: Event)
    requires Sees(p, h, s) && 0 <= LeafOf(p.config.calls, e)
    ensures var i := LeafOf(p.config.calls, e); OnResponse(p, s, e, i).Some? <==> ResponseRule(p.config.calls, h, e, i)
  {
    hide Orderly, Phased, LeavesSeen, DialogueSeen, ClaimSeen, TraceKey, LeafOf, SameMessage, CleanMessage, EverSent, Resolved, StopLeaves, LastSend, Had, Over;
    var i := LeafOf(p.config.calls, e);
    OpenLeaf(p, h, s, i);
    if 0 <= LastSend(h) {
      var m := h[LastSend(h)];
      MessageDecides(m, e);
      if SameMessage(m, e) { SameMessageLeaf(p.config.calls, m, e); }
    }
  }

  lemma OtherAgrees(p: Plan, h: seq<Event>, s: State, e: Event, i: int)
    requires Sees(p, h, s) && 0 <= i < |p.config.calls|
    requires !AboutSession(e.kind) && !AboutDialogue(e.kind) && !e.kind.CredentialLease?
    requires !e.kind.ClaimDispatch? && !e.kind.Send? && !e.kind.Response?
    ensures OnDispatchEvent(p, s, e, i).Some? <==> DispatchRule(p.config.calls, h, e, i)
  {
    hide Orderly, Phased, LeavesSeen, SendSeen, DialogueSeen, ClaimSeen, StopLeaves, Had, Over, Denied, LastAcquire, EverSent, EverSucceeded, EverFailed;
    OpenLeaf(p, h, s, i);
  }

  lemma DispatchAgrees(p: Plan, h: seq<Event>, s: State, e: Event)
    requires CleanCalls(p.config.calls) && Sees(p, h, s) && 0 <= LeafOf(p.config.calls, e)
    requires !AboutSession(e.kind) && !AboutDialogue(e.kind) && !e.kind.CredentialLease?
    ensures var i := LeafOf(p.config.calls, e); OnDispatchEvent(p, s, e, i).Some? <==> DispatchRule(p.config.calls, h, e, i)
  {
    hide Sees, LeafOf, ClaimRule, SendRule, ResponseRule, OnClaim, OnSend, OnResponse, OnDriverError;
    var i := LeafOf(p.config.calls, e);
    if e.kind.ClaimDispatch? {
      ClaimAgrees(p, h, s, e, i);
    } else if e.kind.Send? {
      SendAgrees(p, h, s, e);
    } else if e.kind.Response? {
      ResponseAgrees(p, h, s, e);
    } else {
      OtherAgrees(p, h, s, e, i);
    }
  }

  // ---------- The whole test of an event ----------

  lemma LeaseAgrees(p: Plan, h: seq<Event>, s: State, e: Event)
    requires CleanSlots(p.config) && Sees(p, h, s)
    ensures LeaseAllowed(p, s, e) <==> LeaseRule(p, h, e)
  {
    hide Had, Denied, LastAcquire, Orderly, SendSeen, DialogueSeen, ClaimSeen, CleanSlots, CredentialLeaseMatches, Distinct, Approved;
    if p.host.credentials.Some? { LeaseIsExact(p.config, p.host.credentials.value); }
    assert p.host.credentials.None? ==> !CredentialLeaseMatches(p.config, p.host.credentials) by { NoLease(p.config); }
  }

  lemma NoLease(c: Config)
    ensures !CredentialLeaseMatches(c, None)
  {
  }

  lemma LeafEventAgrees(p: Plan, h: seq<Event>, s: State, e: Event)
    requires CleanCalls(p.config.calls) && Sees(p, h, s) && 0 <= LeafOf(p.config.calls, e) && !e.kind.CredentialLease?
    ensures var i := LeafOf(p.config.calls, e);
            OnLeafEvent(p, s, e, i).Some? <==>
            SessionRule(p, h, e, i) && DialogueRule(p.config.calls, h, e, i) && DispatchRule(p.config.calls, h, e, i)
  {
    hide Sees, LeafOf, AcquireRule, LaunchRule, CandidateRule, SaveRule, NonDispatchRule, InputRule, AskRule, AnswerRule, CheckRule;
    hide ClaimRule, SendRule, ResponseRule, SessionEventAllowed, OnDialogueEvent, OnDispatchEvent, SessionEffect;
    var i := LeafOf(p.config.calls, e);
    if AboutSession(e.kind) {
      SessionAgrees(p, h, s, e, i);
    } else if AboutDialogue(e.kind) {
      DialogueAgrees(p, h, s, e, i);
    } else {
      DispatchAgrees(p, h, s, e);
    }
  }

  lemma NextAgrees(p: Plan, h: seq<Event>, s: State, e: Event)
    requires CleanCalls(p.config.calls) && CleanSlots(p.config) && Sees(p, h, s)
    ensures Next(p, s, e).Some? <==> Rule(p, h, e)
  {
    hide LeafOf, OnLeafEvent, LeaseAllowed, LeaseRule, SessionRule, DialogueRule, DispatchRule, CleanCalls, CleanSlots;
    hide Orderly, LeavesSeen, SendSeen, DialogueSeen, PendingIsLast, Granted, Had, Denied, LastAcquire;
    if e.kind.CredentialLease? {
      LeaseAgrees(p, h, s, e);
    } else if 0 <= LeafOf(p.config.calls, e) {
      LeafEventAgrees(p, h, s, e);
    }
  }

  // ---------- One more event ----------

  lemma HadGrows(h: seq<Event>, e: Event, kind: EventKind)
    ensures Had(h + [e], kind) <==> Had(h, kind) || e.kind == kind
  {
    assert (h + [e])[|h|] == e;
    if Had(h, kind) {
      var k :| 0 <= k < |h| && h[k].kind == kind;
      assert (h + [e])[k].kind == kind;
    }
  }

  lemma OverGrows(h: seq<Event>, e: Event)
    ensures Over(h + [e]) <==> Over(h) || Ends(e)
  {
    hide Ends;
    assert (h + [e])[|h|] == e;
    if Over(h) {
      var k :| 0 <= k < |h| && Ends(h[k]);
      assert Ends((h + [e])[k]);
    }
  }

  lemma DeniedGrows(h: seq<Event>, e: Event)
    ensures Denied(h + [e]) <==> Denied(h) || Denies(e)
  {
    assert (h + [e])[|h|] == e;
    if Denied(h) {
      var k :| 0 <= k < |h| && h[k].kind.Interact? && h[k].outcome.Deny?;
      assert (h + [e])[k] == h[k];
    }
  }

  lemma LastsGrow(h: seq<Event>, e: Event)
    ensures var t := h + [e];
            && LastAcquire(t) == (if e.kind.SessionAcquire? then Some(e.outcome) else LastAcquire(h))
            && LastSend(t) == (if e.kind.Send? then |h| else LastSend(h))
            && Open(t) == (if e.kind.Send? then -1 else if e.kind.QuestionEvent? then |h| else Open(h))
            && Sends(t) == Sends(h) + (if e.kind.Send? then 1 else 0)
            && (Granted(t) <==> IsClaim(e))
  {
    assert (h + [e])[..|h|] == h;
  }

  lemma SinceGrows(h: seq<Event>, e: Event, q: int)
    requires q < |h|
    ensures AffirmedSince(h + [e], q) <==> AffirmedSince(h, q) || Affirms(e)
    ensures CheckedSince(h + [e], q) <==> CheckedSince(h, q) || e.kind.AuthorityRecheck?
  {
    hide Affirms;
    assert (h + [e])[|h|] == e;
    if AffirmedSince(h, q) {
      var k :| 0 <= k < |h| && q < k && Affirms(h[k]);
      assert Affirms((h + [e])[k]);
    }
    if CheckedSince(h, q) {
      var k :| 0 <= k < |h| && q < k && h[k].kind.AuthorityRecheck?;
      assert (h + [e])[k].kind.AuthorityRecheck?;
    }
  }

  lemma EverGrows(calls: seq<Call>, h: seq<Event>, e: Event, i: int)
    ensures EverSent(calls, h + [e], i) <==> EverSent(calls, h, i) || (e.kind.Send? && LeafOf(calls, e) == i)
    ensures EverSucceeded(calls, h + [e], i) <==>
            EverSucceeded(calls, h, i) || (e.kind.Response? && e.outcome.Answered? && LeafOf(calls, e) == i)
    ensures EverFailed(calls, h + [e], i) <==>
            EverFailed(calls, h, i) || (e.kind.Response? && e.outcome.DefiniteFailure? && LeafOf(calls, e) == i)
    ensures EverClosed(calls, h + [e], i) <==> EverClosed(calls, h, i) || (e.kind.RegistrationContextClose? && LeafOf(calls, e) == i)
  {
    hide LeafOf;
    var t := h + [e];
    assert t[|h|] == e && forall k :: 0 <= k < |h| ==> t[k] == h[k];
    SentGrows(calls, h, e, i);
    assert EverSucceeded(calls, t, i) <==> EverSucceeded(calls, h, i) || SucceededAt(calls, t, |h|, i) by {
      if k :| SucceededAt(calls, h, k, i) { assert SucceededAt(calls, t, k, i); }
      if k :| SucceededAt(calls, t, k, i) { assert k == |h| || SucceededAt(calls, h, k, i); }
    }
    assert EverFailed(calls, t, i) <==> EverFailed(calls, h, i) || FailedAt(calls, t, |h|, i) by {
      if k :| FailedAt(calls, h, k, i) { assert FailedAt(calls, t, k, i); }
      if k :| FailedAt(calls, t, k, i) { assert k == |h| || FailedAt(calls, h, k, i); }
    }
    assert EverClosed(calls, t, i) <==> EverClosed(calls, h, i) || ClosedAt(calls, t, |h|, i) by {
      if k :| ClosedAt(calls, h, k, i) { assert ClosedAt(calls, t, k, i); }
      if k :| ClosedAt(calls, t, k, i) { assert k == |h| || ClosedAt(calls, h, k, i); }
    }
  }

  lemma SentGrows(calls: seq<Call>, h: seq<Event>, e: Event, i: int)
    ensures EverSent(calls, h + [e], i) <==> EverSent(calls, h, i) || (e.kind.Send? && LeafOf(calls, e) == i)
  {
    hide LeafOf;
    var t := h + [e];
    if k :| SentAt(calls, h, k, i) { assert SentAt(calls, t, k, i); }
    if k :| SentAt(calls, t, k, i) { assert k == |h| || SentAt(calls, h, k, i); }
    assert e.kind.Send? && LeafOf(calls, e) == i ==> SentAt(calls, t, |h|, i);
  }

  // ---------- The state after one more event ----------

  lemma LeasedNext(p: Plan, s: State, e: Event)
    requires Sized(p, s) && Next(p, s, e).Some?
    ensures Next(p, s, e).value.phase.credentialsLeased <==> s.phase.credentialsLeased || e.kind.CredentialLease?
  {
    hide LeafOf, LeaseAllowed, OnLeafEvent, Addressed;
    if !e.kind.CredentialLease? { LeafLeased(p, s, e, LeafOf(p.config.calls, e)); }
  }

  lemma LeafLeased(p: Plan, s: State, e: Event, i: int)
    requires Sized(p, s) && 0 <= i < |p.config.calls| && OnLeafEvent(p, s, e, i).Some?
    ensures OnLeafEvent(p, s, e, i).value.phase.credentialsLeased <==> s.phase.credentialsLeased
  {
    hide SessionEventAllowed, OnDialogueEvent, OnDispatchEvent, PhaseEffect, StopLeaves;
    if AboutSession(e.kind) {
      EffectFlags(s.phase, e);
    } else if AboutDialogue(e.kind) {
      assert OnDialogueEvent(p, s, e, i).Some?;
    } else {
      assert OnDispatchEvent(p, s, e, i).Some?;
    }
  }

  lemma PhaseGrows(p: Plan, h: seq<Event>, s: State, e: Event, r: State)
    requires PhaseSeen(p, h, s.phase) && FlagStep(s, e, r)
    requires r.phase.credentialsLeased <==> s.phase.credentialsLeased || e.kind.CredentialLease?
    ensures PhaseSeen(p, h + [e], r.phase)
  {
    hide Had, Denied, LastAcquire;
    HadGrows(h, e, Launch);
    HadGrows(h, e, Join);
    HadGrows(h, e, SessionRelease);
    HadGrows(h, e, NonDispatch);
    HadGrows(h, e, Candidate);
    HadGrows(h, e, GenerationRecheck);
    HadGrows(h, e, SessionSave);
    HadGrows(h, e, CredentialLease);
    DeniedGrows(h, e);
    LastsGrow(h, e);
  }

  /** What an event does to the stop and to the terminal marks. */
  predicate StopStep(s: State, e: Event, r: State) {
    && (r.stopped <==> s.stopped || Ends(e))
    && |r.leaves| == |s.leaves| && forall i :: 0 <= i < |r.leaves| ==> TerminalSeen(r, i)
  }

  lemma StopStops(s: State)
    requires forall i :: 0 <= i < |s.leaves| ==> TerminalSeen(s, i) || (s.leaves[i].sent && s.leaves[i].outcome.Unknown?)
    requires Orderly(s)
    ensures forall i :: 0 <= i < |s.leaves| ==> TerminalSeen(Stop(s), i)
  {
    forall i | 0 <= i < |s.leaves| ensures TerminalSeen(Stop(s), i) {
      assert Stop(s).leaves[i] == StopLeaf(s.leaves[i]);
      assert TerminalSeen(s, i) || (s.leaves[i].sent && s.leaves[i].outcome.Unknown?);
    }
  }

  predicate AllTerminal(s: State) {
    forall i :: 0 <= i < |s.leaves| ==> TerminalSeen(s, i)
  }

  lemma SameTerminal(s: State, r: State)
    requires AllTerminal(s) && r.leaves == s.leaves && r.stopped == s.stopped
    ensures AllTerminal(r)
  {
    forall i | 0 <= i < |r.leaves| ensures TerminalSeen(r, i) {
      assert TerminalSeen(s, i);
    }
  }

  /** Settling leaf i, or ending the run while it is in flight. */
  lemma SetTerminal(s: State, i: int, l: LeafState)
    requires AllTerminal(s) && 0 <= i < |s.leaves|
    ensures (l.terminal <==> l.outcome.Succeeded? || l.outcome.Failed? || (l.sent && s.stopped)) ==> AllTerminal(SetLeaf(s, i, l))
    ensures Orderly(SetLeaf(s, i, l)) && l.sent && (l.outcome.Unknown? || (l.terminal && l.outcome in {Succeeded, Failed})) ==>
              AllTerminal(Stop(SetLeaf(s, i, l)))
  {
    var r := SetLeaf(s, i, l);
    forall j | 0 <= j < |s.leaves| && j != i ensures TerminalSeen(r, j) {
      assert TerminalSeen(s, j) && r.leaves[j] == s.leaves[j];
    }
    assert (l.terminal <==> l.outcome.Succeeded? || l.outcome.Failed? || (l.sent && s.stopped)) ==> TerminalSeen(r, i);
    if Orderly(r) && l.sent && (l.outcome.Unknown? || (l.terminal && l.outcome in {Succeeded, Failed})) {
      StopStops(r);
    }
  }

  lemma DialogueStops(p: Plan, s: State, e: Event, i: int)
    requires Sized(p, s) && Orderly(s) && AllTerminal(s) && 0 <= i < |p.config.calls| && AboutDialogue(e.kind)
    ensures var r := OnDialogueEvent(p, s, e, i); r.Some? ==> StopStep(s, e, r.value)
  {
    var r := OnDialogueEvent(p, s, e, i);
    if r.Some? {
      StopStops(s);
      if Denies(e) {
        SameTerminal(Stop(s), r.value);
      } else {
        DeniesOnly(p, s, e, i);
        SameTerminal(s, r.value);
      }
    }
  }

  lemma DeniesOnly(p: Plan, s: State, e: Event, i: int)
    requires Sized(p, s) && 0 <= i < |p.config.calls| && AboutDialogue(e.kind) && !Denies(e)
    ensures !Ends(e)
  {
  }

  lemma ResponseStops(p: Plan, s: State, e: Event, i: int)
    requires Sized(p, s) && Orderly(s) && AllTerminal(s) && 0 <= i < |p.config.calls| && e.kind.Response?
    ensures var r := OnResponse(p, s, e, i); r.Some? ==> StopStep(s, e, r.value)
  {
    hide TraceKey, TerminalSeen, StopLeaves;
    if OnResponse(p, s, e, i).Some? {
      var leaf := s.leaves[i];
      assert TerminalSeen(s, i);
      SettledTerminal(s, i);
      SetTerminal(s, i, leaf.(terminal := true, outcome := Succeeded));
      SetTerminal(s, i, leaf.(terminal := true, outcome := Failed));
      SetTerminal(s, i, leaf.(terminal := true));
    }
  }

  lemma SettledTerminal(s: State, i: int)
    requires Orderly(s) && 0 <= i < |s.leaves| && s.leaves[i].sent && s.leaves[i].outcome.Unknown?
    ensures forall o | o in {Unknown, Succeeded, Failed} ::
              Orderly(SetLeaf(s, i, s.leaves[i].(terminal := true, outcome := o)))
  {
  }

  lemma DriverErrorStops(p: Plan, s: State, e: Event, i: int)
    requires Sized(p, s) && Orderly(s) && AllTerminal(s) && 0 <= i < |p.config.calls| && (e.kind.Extraction? || e.kind.TypedDriverError?)
    ensures var r := OnDriverError(p, s, i); r.Some? ==> StopStep(s, e, r.value)
  {
    hide TerminalSeen, StopLeaves;
    if OnDriverError(p, s, i).Some? {
      SentUnsettled(s, i);
      SettledTerminal(s, i);
      SetTerminal(s, i, s.leaves[i].(outcome := Unknown, terminal := true));
    }
  }

  lemma SentUnsettled(s: State, i: int)
    requires Orderly(s) && 0 <= i < |s.leaves| && s.leaves[i].sent && !s.leaves[i].outcome.Succeeded? && !s.leaves[i].outcome.Failed?
    ensures s.leaves[i].outcome.Unknown?
  {
  }

  lemma SendStops(p: Plan, s: State, c: Event, e: Event)
    requires CleanCalls(p.config.calls) && Sized(p, s) && AllTerminal(s) && ClaimHolds(p, s, c) && SameMessage(c, e)
    requires LeafOf(p.config.calls, e) == LeafOf(p.config.calls, c) && Orderly(s)
    requires e.kind.Send? && OnSend(p, s, e, p.config.calls[LeafOf(p.config.calls, e)], LeafOf(p.config.calls, e)).Some?
    ensures var i := LeafOf(p.config.calls, e); StopStep(s, e, OnSend(p, s, e, p.config.calls[i], i).value)
  {
    hide TraceKey, Identifier, LeafOf, InitialKind, ReplyKind, CleanCalls, SameMessage;
    var i := LeafOf(p.config.calls, e);
    var r := OnSend(p, s, e, p.config.calls[i], i).value;
    assert TerminalSeen(s, i);
    var l := s.leaves[i].(outcome := Unknown, sent := true, request := e.requestId, lastMessage := TraceKey(e));
    SetTerminal(s, i, l);
    SameTerminal(SetLeaf(s, i, l), r);
  }

  lemma OtherStops(p: Plan, s: State, e: Event, i: int)
    requires Sized(p, s) && Orderly(s) && AllTerminal(s) && 0 <= i < |p.config.calls| && !AboutSession(e.kind) && !AboutDialogue(e.kind)
    requires !e.kind.Send? && !e.kind.Response? && !e.kind.Extraction? && !e.kind.TypedDriverError?
    ensures var r := OnDispatchEvent(p, s, e, i); r.Some? ==> StopStep(s, e, r.value)
  {
    hide TraceKey, Identifier, StopLeaves, Orderly, TerminalSeen, FirstClaimAllowed, NextClaimAllowed;
    var r := OnDispatchEvent(p, s, e, i);
    if r.Some? {
      if e.kind.RegistrationContextClose? {
        CloseTerminal(s, i);
      } else if Ends(e) {
        StopStops(s);
      } else {
        SameTerminal(s, r.value);
      }
    }
  }

  lemma CloseTerminal(s: State, i: int)
    requires AllTerminal(s) && 0 <= i < |s.leaves|
    ensures AllTerminal(SetLeaf(s, i, s.leaves[i].(closed := true)))
  {
    assert TerminalSeen(s, i);
    SetTerminal(s, i, s.leaves[i].(closed := true));
  }

  lemma DispatchStops(p: Plan, h: seq<Event>, s: State, e: Event)
    requires CleanCalls(p.config.calls) && Sees(p, h, s) && 0 <= LeafOf(p.config.calls, e) && !AboutSession(e.kind) && !AboutDialogue(e.kind)
    requires OnDispatchEvent(p, s, e, LeafOf(p.config.calls, e)).Some?
    ensures StopStep(s, e, OnDispatchEvent(p, s, e, LeafOf(p.config.calls, e)).value)
  {
    hide Sees, LeafOf, OnClaim, OnSend, OnResponse, OnDriverError, CleanCalls, StopStep;
    var i := LeafOf(p.config.calls, e);
    SeenTerminal(p, h, s);
    if e.kind.Send? {
      SendAgrees(p, h, s, e);
      ClaimOfSend(p, h, s, e);
      SendStops(p, s, h[|h| - 1], e);
    } else if e.kind.Response? {
      ResponseStops(p, s, e, i);
    } else if e.kind.Extraction? || e.kind.TypedDriverError? {
      DriverErrorStops(p, s, e, i);
    } else {
      OtherStops(p, s, e, i);
    }
  }

  lemma SeenTerminal(p: Plan, h: seq<Event>, s: State)
    requires Sees(p, h, s)
    ensures Sized(p, s) && AllTerminal(s) && Orderly(s) && Phased(s)
  {
    hide PhaseSeen, SendSeen, DialogueSeen, ClaimSeen, LeafSeen, TerminalSeen;
  }

  lemma ClaimOfSend(p: Plan, h: seq<Event>, s: State, e: Event)
    requires Sees(p, h, s) && SendRule(h, e)
    ensures h != [] && ClaimHolds(p, s, h[|h| - 1]) && SameMessage(h[|h| - 1], e) && LeafOf(p.config.calls, e) == LeafOf(p.config.calls, h[|h| - 1])
  {
    hide PhaseSeen, SendSeen, DialogueSeen, LeavesSeen, Orderly, ClaimHolds, SameMessage, LeafOf;
    SameMessageLeaf(p.config.calls, h[|h| - 1], e);
  }

  lemma StopNext(p: Plan, h: seq<Event>, s: State, e: Event)
    requires CleanCalls(p.config.calls) && Sees(p, h, s) && Next(p, s, e).Some?
    ensures StopStep(s, e, Next(p, s, e).value)
  {
    hide Sees, LeafOf, LeaseAllowed, Addressed, SessionEventAllowed, OnDialogueEvent, OnDispatchEvent, CleanCalls, Orderly, TerminalSeen;
    SeenTerminal(p, h, s);
    var r := Next(p, s, e).value;
    if AboutSession(e.kind) || e.kind.CredentialLease? {
      SameTerminal(s, r);
    } else if AboutDialogue(e.kind) {
      DialogueStops(p, s, e, LeafOf(p.config.calls, e));
    } else {
      DispatchStops(p, h, s, e);
    }
  }

  lemma LeavesGrow(p: Plan, h: seq<Event>, s: State, e: Event, r: State)
    requires Sized(p, s) && Sized(p, r) && LeavesSeen(p.config.calls, h, s) && StopStep(s, e, r) && FlagStep(s, e, r)
    requires forall i :: 0 <= i < |s.leaves| ==> LeafStep(p.config.calls, s, e, r, i)
    requires e.kind.Send? ==> var i := LeafOf(p.config.calls, e); 0 <= i && !s.leaves[i].outcome.Succeeded? && !s.leaves[i].outcome.Failed?
    ensures LeavesSeen(p.config.calls, h + [e], r)
  {
    hide Over, Had, LeafOf, PhaseStep, Ends, EverSent, EverSucceeded, EverFailed, EverClosed, TerminalSeen;
    OverGrows(h, e);
    HadGrows(h, e, Send);
    forall i | 0 <= i < |r.leaves| ensures LeafSeen(p.config.calls, h + [e], r, i) {
      assert LeafSeen(p.config.calls, h, s, i) && LeafStep(p.config.calls, s, e, r, i);
      EverGrows(p.config.calls, h, e, i);
    }
  }

  // ---------- The last message ----------

  /** Only a send moves the last message. */
  predicate MessageKept(s: State, r: State) {
    && r.lastStarted == s.lastStarted && |r.leaves| == |s.leaves|
    && forall i :: 0 <= i < |s.leaves| ==> r.leaves[i].request == s.leaves[i].request && r.leaves[i].lastMessage == s.leaves[i].lastMessage
  }

  lemma StopKeepsMessage(s: State)
    ensures MessageKept(s, Stop(s))
  {
    assert forall i :: 0 <= i < |s.leaves| ==> Stop(s).leaves[i] == StopLeaf(s.leaves[i]);
  }

  lemma DispatchKeepsMessage(p: Plan, s: State, e: Event, i: int)
    requires Sized(p, s) && 0 <= i < |p.config.calls| && !e.kind.Send?
    ensures var r := OnDispatchEvent(p, s, e, i); r.Some? ==> MessageKept(s, r.value)
  {
    hide TraceKey, Identifier, StopLeaves, FirstClaimAllowed, NextClaimAllowed;
    var l := s.leaves[i];
    StopKeepsMessage(s);
    StopKeepsMessage(SetLeaf(s, i, l.(terminal := true, outcome := Failed)));
    StopKeepsMessage(SetLeaf(s, i, l.(terminal := true)));
    StopKeepsMessage(SetLeaf(s, i, l.(outcome := Unknown, terminal := true)));
  }

  lemma NextKeepsMessage(p: Plan, s: State, e: Event)
    requires Sized(p, s) && !e.kind.Send? && Next(p, s, e).Some?
    ensures MessageKept(s, Next(p, s, e).value)
  {
    hide LeafOf, LeaseAllowed, Addressed, SessionEventAllowed, OnDialogueEvent, OnDispatchEvent, PhaseEffect, StopLeaves;
    StopKeepsMessage(s);
    if AboutSession(e.kind) || e.kind.CredentialLease? {
    } else if AboutDialogue(e.kind) {
      assert OnDialogueEvent(p, s, e, LeafOf(p.config.calls, e)).Some?;
    } else {
      DispatchKeepsMessage(p, s, e, LeafOf(p.config.calls, e));
    }
  }

  lemma SendSets(p: Plan, h: seq<Event>, s: State, e: Event)
    requires CleanCalls(p.config.calls) && Sees(p, h, s) && e.kind.Send? && Next(p, s, e).Some?
    ensures var i, r := LeafOf(p.config.calls, e), Next(p, s, e).value;
            && 0 <= i && r.lastStarted == i && CleanMessage(e) && r.leaves[i].request == e.requestId && r.leaves[i].lastMessage == TraceKey(e)
            && !s.leaves[i].outcome.Succeeded? && !s.leaves[i].outcome.Failed?
  {
    hide Sees, LeafOf, CleanCalls, TraceKey, SendRule, CleanMessage;
    SeenTerminal(p, h, s);
    SendAgrees(p, h, s, e);
    ClaimOfSend(p, h, s, e);
    ClaimIsClean(p, s, h[|h| - 1]);
    CleanSame(h[|h| - 1], e);
    hide NulFree, Identifier;
    SendKeepsOrder(p, s, h[|h| - 1], e);
    hide ClaimHolds;
    SendUnsettled(p, s, h[|h| - 1]);
    hide Orderly, Phased;
  }

  lemma CleanSame(a: Event, b: Event)
    requires SameMessage(a, b) && CleanMessage(a)
    ensures CleanMessage(b)
  {
  }

  lemma SendUnsettled(p: Plan, s: State, c: Event)
    requires Sized(p, s) && ClaimHolds(p, s, c) && Orderly(s)
    ensures var i := LeafOf(p.config.calls, c); !s.leaves[i].outcome.Succeeded? && !s.leaves[i].outcome.Failed?
  {
    hide LeafOf, TraceKey, Identifier, FirstClaimAllowed;
  }

  lemma MessageGrows(p: Plan, h: seq<Event>, s: State, e: Event)
    requires CleanCalls(p.config.calls) && Sees(p, h, s) && Next(p, s, e).Some? && FlagStep(s, e, Next(p, s, e).value)
    ensures SendSeen(p.config.calls, h + [e], Next(p, s, e).value)
  {
    hide Next, LeafOf, CleanCalls, TraceKey, CleanMessage, Orderly, Phased, PhaseSeen, LeavesSeen, DialogueSeen, ClaimSeen, PhaseStep, LastSend;
    var t, r := h + [e], Next(p, s, e).value;
    LastsGrow(h, e);
    if e.kind.Send? {
      SendSets(p, h, s, e);
      OrdinalNext(p, h, s, e);
      assert t[|h|] == e;
    } else {
      NextKeepsMessage(p, s, e);
      assert 0 <= LastSend(h) ==> t[LastSend(h)] == h[LastSend(h)];
    }
  }

  lemma OrdinalNext(p: Plan, h: seq<Event>, s: State, e: Event)
    requires CleanCalls(p.config.calls) && Sees(p, h, s) && e.kind.Send? && Next(p, s, e).Some?
    ensures e.ordinal == s.ordinal + 1
  {
    hide Sees, LeafOf, CleanCalls, TraceKey, SendRule, CleanMessage;
    SeenTerminal(p, h, s);
    SendAgrees(p, h, s, e);
    ClaimOfSend(p, h, s, e);
    hide Identifier, FirstClaimAllowed, NextClaimAllowed;
    assert h[|h| - 1].ordinal == s.ordinal + 1;
  }

  // ---------- The dialogue ----------

  lemma InputMoves(p: Plan, s: State, e: Event)
    requires Sized(p, s) && e.kind.RegistrationInputEvent? && Next(p, s, e).Some?
    ensures Next(p, s, e).value.dialogue == if e.outcome.CheckpointPrivate? then s.dialogue.(answered := true) else s.dialogue
    ensures e.outcome.CheckpointPrivate? ==> s.dialogue.question.Some?
  {
    hide LeafOf, Addressed;
  }

  lemma AskMoves(p: Plan, s: State, e: Event)
    requires Sized(p, s) && e.kind.QuestionEvent? && Next(p, s, e).Some?
    ensures e.question.Some? && e.outcome.Asks? && 0 <= LeafOf(p.config.calls, e)
  {
    hide LeafOf, Addressed;
  }

  lemma QuestionGrows(p: Plan, h: seq<Event>, s: State, e: Event, r: State)
    requires DialogueSeen(p.config.calls, h, s) && 0 <= Open(h) && !e.kind.Send? && !e.kind.QuestionEvent?
    requires DialogueStep(p.config.calls, s, e, r) && (r.stopped <==> s.stopped || Ends(e))
    requires e.kind.RegistrationInputEvent? ==>
               r.dialogue == if e.outcome.CheckpointPrivate? then s.dialogue.(answered := true) else s.dialogue
    ensures DialogueSeen(p.config.calls, h + [e], r)
  {
    hide LeafOf, Open, AffirmedSince, CheckedSince;
    LastsGrow(h, e);
    SinceGrows(h, e, Open(h));
    assert (h + [e])[Open(h)] == h[Open(h)];
  }

  lemma NewQuestionSeen(p: Plan, h: seq<Event>, e: Event, r: State)
    requires e.kind.QuestionEvent? && e.question.Some? && e.outcome.Asks? && 0 <= LeafOf(p.config.calls, e)
    requires r.dialogue == Dialogue(e.question, Some(e.outcome.question), LeafOf(p.config.calls, e), false, false)
    ensures DialogueSeen(p.config.calls, h + [e], r)
  {
    hide LeafOf, Open;
    LastsGrow(h, e);
    assert (h + [e])[|h|] == e;
  }

  lemma DialogueGrows(p: Plan, h: seq<Event>, s: State, e: Event)
    requires Sees(p, h, s) && Next(p, s, e).Some? && StopStep(s, e, Next(p, s, e).value)
    ensures DialogueSeen(p.config.calls, h + [e], Next(p, s, e).value)
  {
    hide Next, LeafOf, Open, Orderly, Phased, PhaseSeen, LeavesSeen, SendSeen, ClaimSeen, Ends, TerminalSeen, QuestionSeen;
    var r := Next(p, s, e).value;
    DialogueNext(p, s, e);
    LastsGrow(h, e);
    if e.kind.QuestionEvent? {
      AskMoves(p, s, e);
      NewQuestionSeen(p, h, e, r);
    } else if !e.kind.Send? {
      if e.kind.RegistrationInputEvent? { InputMoves(p, s, e); }
      if 0 <= Open(h) { QuestionGrows(p, h, s, e, r); }
    }
  }

  // ---------- The pending claim ----------

  lemma ClaimPends(p: Plan, s: State, e: Event)
    requires Sized(p, s) && IsClaim(e) && Next(p, s, e).Some?
    ensures Next(p, s, e).value.pending != ""
  {
    hide LeafOf, TraceKey, Identifier, FirstClaimAllowed, NextClaimAllowed;
    KeyNotEmpty(e);
  }

  lemma ClaimGrows(p: Plan, h: seq<Event>, s: State, e: Event)
    requires CleanCalls(p.config.calls) && Sees(p, h, s) && Next(p, s, e).Some?
    ensures Orderly(Next(p, s, e).value) && Phased(Next(p, s, e).value) && ClaimSeen(p, h + [e], Next(p, s, e).value)
  {
    hide Next, CleanCalls, PhaseSeen, LeavesSeen, SendSeen, DialogueSeen, Orderly, Phased, IsClaim, TraceKey, LeafOf, Identifier;
    hide FirstClaimAllowed, NextClaimAllowed;
    var t, r := h + [e], Next(p, s, e).value;
    assert t[..|t| - 1] == h && t[|t| - 1] == e;
    NextKeepsOrder(p, t, s);
    LastsGrow(h, e);
    if IsClaim(e) { ClaimPends(p, s, e); }
  }

  // ---------- Every run ----------

  lemma SeesNext(p: Plan, h: seq<Event>, s: State, e: Event)
    requires CleanCalls(p.config.calls) && Sees(p, h, s) && Next(p, s, e).Some?
    ensures Sees(p, h + [e], Next(p, s, e).value)
  {
    hide Next, CleanCalls, PhaseSeen, LeavesSeen, SendSeen, DialogueSeen, ClaimSeen, Orderly, StopStep, LeafStep, LeafOf;
    var r := Next(p, s, e).value;
    FlagsNext(p, s, e);
    LeasedNext(p, s, e);
    PhaseGrows(p, h, s, e, r);
    StopNext(p, h, s, e);
    MessageGrows(p, h, s, e);
    DialogueGrows(p, h, s, e);
    ClaimGrows(p, h, s, e);
    hide FlagStep, Phased;
    forall i | 0 <= i < |s.leaves| ensures LeafStep(p.config.calls, s, e, r, i) { LeafNext(p, s, e, i); }
    if e.kind.Send? { SendSets(p, h, s, e); }
    LeavesGrow(p, h, s, e, r);
  }

  lemma SeesStart(p: Plan)
    ensures Sees(p, [], Initial(p))
  {
  }

  /** After a followed trace the state is what the trace shows. */
  lemma {:induction false} RunSees(p: Plan, t: seq<Event>)
    requires CleanCalls(p.config.calls) && Run(p, t).Some?
    ensures Sees(p, t, Run(p, t).value)
    decreases |t|
  {
    hide Next, Sees, CleanCalls;
    if t == [] {
      SeesStart(p);
    } else {
      var h, e := t[..|t| - 1], t[|t| - 1];
      RunSees(p, h);
      SeesNext(p, h, Run(p, h).value, e);
      assert h + [e] == t;
    }
  }

  /** The checker follows a trace exactly when every event obeys its rule after the events
      before it. */
  lemma {:induction false} RunConforms(p: Plan, t: seq<Event>)
    requires CleanCalls(p.config.calls) && CleanSlots(p.config)
    ensures Run(p, t).Some? <==> Obeys(p, t)
    decreases |t|
  {
    hide Next, Sees, CleanCalls, CleanSlots, Rule;
    if t != [] {
      var h, e := t[..|t| - 1], t[|t| - 1];
      RunConforms(p, h);
      ObeysFront(p, t);
      if Run(p, h).Some? {
        RunSees(p, h);
        NextAgrees(p, h, Run(p, h).value, e);
      }
    }
  }

  lemma ObeysFront(p: Plan, t: seq<Event>)
    requires t != []
    ensures Obeys(p, t) <==> Obeys(p, t[..|t| - 1]) && Rule(p, t[..|t| - 1], t[|t| - 1])
  {
    hide Rule;
    var h := t[..|t| - 1];
    forall k | 0 <= k < |h| ensures h[..k] == t[..k] && h[k] == t[k] {}
    if Obeys(p, h) && Rule(p, h, t[|t| - 1]) {
      forall k | 0 <= k < |t| ensures Rule(p, t[..k], t[k]) {
        if k < |h| { assert Rule(p, h[..k], h[k]); }
      }
    }
  }
}
