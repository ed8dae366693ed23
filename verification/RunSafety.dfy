/** What every reachable state of the run checker keeps, and which of its facts no
    later event can change. */
module RunSafety {
  import opened Common
  import opened Text
  import opened ReportV5
  import opened BrowserContract
  import opened RunChecker

  /** Approved calls whose parts of a trace key contain no NUL; a valid configuration's do
      not (ValidCallsAreClean). */
  predicate CleanCalls(calls: seq<Call>) {
    forall i :: 0 <= i < |calls| ==>
      NulFree(calls[i].stepId) && NulFree(calls[i].operationId) && NulFree(calls[i].invocationId) && NulFree(calls[i].outerProtocol)
  }

  /** The leaves are executed strictly in order: those sent are a prefix of the approved
      calls, every sent leaf but the last has succeeded, none after it has started, and
      a stopped run has no leaf whose outcome is still open. */
  predicate Orderly(s: State) {
    && -1 <= s.lastStarted < |s.leaves|
    && (s.anySent <==> 0 <= s.lastStarted)
    && (forall i :: 0 <= i < |s.leaves| ==> (s.leaves[i].sent <==> i <= s.lastStarted))
    && (forall i :: 0 <= i < s.lastStarted ==> s.leaves[i].outcome.Succeeded?)
    && (forall i :: s.lastStarted < i < |s.leaves| ==> s.leaves[i].outcome.NotStarted?)
    && (0 <= s.lastStarted ==> s.leaves[s.lastStarted].outcome in {Unknown, Succeeded, Failed})
    && (s.stopped ==> forall i :: 0 <= i < |s.leaves| && s.leaves[i].outcome.Unknown? ==> s.leaves[i].terminal)
  }

  predicate Phased(s: State) {
    && (s.phase.released ==> s.phase.joinDone) && (s.phase.joinDone ==> s.phase.launchDone)
    && (s.anySent ==> s.phase.launchDone) && (s.phase.nonDispatch ==> s.phase.joinDone && !s.anySent)
  }

  /** The tests a claim passed, which nothing can falsify before its send. */
  predicate ClaimHolds(p: Plan, s: State, c: Event)
    requires Sized(p, s)
  {
    var index := LeafOf(p.config.calls, c);
    && IsClaim(c) && 0 <= index && s.pending == TraceKey(c) && s.pendingQuestion == s.dialogue.kind
    && s.phase.launchDone && !s.phase.joinDone && !s.stopped
    && Identifier(c.requestId) && c.ordinal == s.ordinal + 1 && c.outerProtocol == p.config.calls[index].outerProtocol
    && (if s.leaves[index].sent then NextClaimAllowed(p, s, c, index) else FirstClaimAllowed(p, s, c, p.config.calls[index], index))
  }

  predicate PendingIsLast(p: Plan, t: seq<Event>, s: State)
    requires Sized(p, s)
  {
    s.pending != "" ==> t != [] && ClaimHolds(p, s, t[|t| - 1])
  }

  // ---------- A claim's key decides its seven fields ----------

  predicate SameMessage(a: Event, b: Event) {
    && a.stepId == b.stepId && a.operationId == b.operationId && a.invocationId == b.invocationId
    && a.requestId == b.requestId && a.ordinal == b.ordinal && a.messageKind == b.messageKind
    && a.outerProtocol == b.outerProtocol
  }

  lemma IdentifierNulFree(s: string)
    requires Identifier(s)
    ensures NulFree(s)
  {
  }

  lemma DecimalNulFree(n: nat)
    ensures NulFree(Decimal(n))
  {
    assert forall i :: 0 <= i < |Decimal(n)| ==> IsDigit(Decimal(n)[i]);
  }

  lemma InitialKindNulFree(kind: CallKind)
    ensures NulFree(InitialKind(kind))
  {
  }

  lemma ReplyKindNulFree(kind: QuestionKind, message: string)
    requires ReplyKind(kind, message)
    ensures NulFree(message)
  {
    RepliesNulFree();
    hide NulFree;
  }

  lemma RepliesNulFree()
    ensures NulFree("challenge_response") && NulFree("registration_input_response") && NulFree("registration_checkpoint_response")
  {
  }

  lemma MessageKindNulFree(p: Plan, s: State, c: Event)
    requires Sized(p, s) && ClaimHolds(p, s, c)
    ensures NulFree(c.messageKind)
  {
    var index := LeafOf(p.config.calls, c);
    if s.leaves[index].sent {
      ReplyKindNulFree(s.dialogue.kind.value, c.messageKind);
    } else {
      InitialKindNulFree(p.config.calls[index].kind);
    }
  }

  /** Whatever bytes the other event carries, NULs included. */
  lemma ClaimKeyDecides(p: Plan, s: State, c: Event, e: Event)
    requires CleanCalls(p.config.calls) && Sized(p, s) && ClaimHolds(p, s, c) && TraceKey(e) == s.pending
    ensures SameMessage(c, e)
  {
    var a := [c.stepId, c.operationId, c.invocationId, c.requestId, Decimal(c.ordinal), c.messageKind, c.outerProtocol];
    var b := [e.stepId, e.operationId, e.invocationId, e.requestId, Decimal(e.ordinal), e.messageKind, e.outerProtocol];
    IdentifierNulFree(c.requestId);
    DecimalNulFree(c.ordinal);
    MessageKindNulFree(p, s, c);
    assert AllNulFree(a);
    JoinNulDecides(a, b);
    assert a[0] == b[0] && a[1] == b[1] && a[2] == b[2] && a[3] == b[3] && a[4] == b[4] && a[5] == b[5] && a[6] == b[6];
    NumeralOfDecimal(c.ordinal);
    NumeralOfDecimal(e.ordinal);
  }

  lemma KeyNotEmpty(e: Event)
    ensures TraceKey(e) != ""
  {
    var parts := [e.stepId, e.operationId, e.invocationId, e.requestId, Decimal(e.ordinal), e.messageKind, e.outerProtocol];
    assert JoinNul(parts) == parts[0] + [NUL] + JoinNul(parts[1..]);
  }

  lemma {:induction false} SameLeaf(calls: seq<Call>, a: Event, b: Event, i: nat)
    requires i <= |calls| && a.stepId == b.stepId && a.operationId == b.operationId && a.invocationId == b.invocationId
    ensures FindFrom(calls, a, i) == FindFrom(calls, b, i)
    decreases |calls| - i
  {
    if i < |calls| { SameLeaf(calls, a, b, i + 1); }
  }

  // ---------- Every transition keeps the order ----------

  lemma StopKeepsOrder(s: State)
    requires Orderly(s)
    ensures Orderly(Stop(s))
  {
    assert forall i :: 0 <= i < |s.leaves| ==> Stop(s).leaves[i] == StopLeaf(s.leaves[i]);
  }

  lemma SettleKeepsOrder(s: State, index: int, l: LeafState)
    requires Orderly(s) && !s.stopped && 0 <= index < |s.leaves|
    requires s.leaves[index].outcome.Unknown? && l.sent && l.outcome in {Unknown, Succeeded, Failed}
    ensures Orderly(SetLeaf(s, index, l))
  {
    assert index == s.lastStarted;
  }

  lemma SendMatches(p: Plan, s: State, c: Event, e: Event)
    requires CleanCalls(p.config.calls) && Sized(p, s) && ClaimHolds(p, s, c)
    requires e.kind.Send? && Next(p, s, e).Some?
    ensures LeafOf(p.config.calls, e) == LeafOf(p.config.calls, c) && SameMessage(c, e)
  {
    hide TraceKey, Identifier, FirstClaimAllowed, NextClaimAllowed, FindFrom, CleanCalls;
    ClaimKeyDecides(p, s, c, e);
    SameLeaf(p.config.calls, c, e, 0);
  }

  /** A claim that holds is for the leaf in flight or for the next one. */
  lemma ClaimPlace(p: Plan, s: State, c: Event)
    requires Sized(p, s) && Orderly(s) && ClaimHolds(p, s, c)
    ensures var index := LeafOf(p.config.calls, c);
            && 0 <= index && index == (if s.leaves[index].sent then s.lastStarted else s.lastStarted + 1)
            && (forall i :: 0 <= i < index ==> s.leaves[i].outcome.Succeeded?) && !s.stopped && s.phase.launchDone && !s.phase.joinDone
  {
    hide TraceKey, Identifier, LeafOf;
  }

  lemma SentInPlace(p: Plan, s: State, e: Event)
    requires Sized(p, s) && Orderly(s) && Phased(s) && e.kind.Send? && Next(p, s, e).Some?
    requires var index := LeafOf(p.config.calls, e);
             && 0 <= index && index == (if s.leaves[index].sent then s.lastStarted else s.lastStarted + 1)
             && (forall i :: 0 <= i < index ==> s.leaves[i].outcome.Succeeded?)
    ensures Orderly(Next(p, s, e).value) && Phased(Next(p, s, e).value) && Next(p, s, e).value.pending == ""
  {
    hide TraceKey, LeafOf, SessionEventAllowed, OnDialogueEvent, OnClaim, OnResponse, OnDriverError, LeaseAllowed, Addressed;
  }

  lemma SendKeepsOrder(p: Plan, s: State, c: Event, e: Event)
    requires CleanCalls(p.config.calls) && Sized(p, s) && Orderly(s) && Phased(s) && ClaimHolds(p, s, c)
    requires e.kind.Send? && Next(p, s, e).Some?
    ensures var index := LeafOf(p.config.calls, e);
            && index == LeafOf(p.config.calls, c) && SameMessage(c, e)
            && index == (if s.leaves[index].sent then s.lastStarted else s.lastStarted + 1)
    ensures Orderly(Next(p, s, e).value) && Phased(Next(p, s, e).value) && Next(p, s, e).value.pending == ""
  {
    hide Next, ClaimHolds, Orderly, Phased, CleanCalls, LeafOf, SameMessage;
    SendMatches(p, s, c, e);
    ClaimPlace(p, s, c);
    SentInPlace(p, s, e);
  }

  lemma SessionKeepsOrder(p: Plan, s: State, e: Event, index: int)
    requires Sized(p, s) && 0 <= index < |p.config.calls| && Orderly(s) && Phased(s)
    requires AboutSession(e.kind) && SessionEventAllowed(p, s, e, index)
    ensures Orderly(SessionEffect(s, e)) && Phased(SessionEffect(s, e)) && SessionEffect(s, e).pending == s.pending
  {
  }

  lemma InteractKeepsOrder(p: Plan, s: State, e: Event, index: int)
    requires e.kind.Interact? && Sized(p, s) && Orderly(s) && Phased(s)
    ensures var r := OnInteract(p, s, e, index); r.Some? ==> Orderly(r.value) && Phased(r.value) && r.value.pending == s.pending
  {
    StopKeepsOrder(s);
    var stopped := Stop(s).(dialogue := s.dialogue.(answered := false), phase := s.phase.(humanDenied := true));
    assert stopped.leaves == Stop(s).leaves;
    assert Orderly(stopped);
  }

  lemma AskingKeepsOrder(p: Plan, s: State, e: Event, index: int)
    requires Sized(p, s) && 0 <= index < |p.config.calls| && Orderly(s) && Phased(s)
    ensures var r := OnQuestion(p, s, e, p.config.calls[index], index);
            r.Some? ==> Orderly(r.value) && Phased(r.value) && r.value.pending == s.pending
    ensures var r := OnRegistrationInput(s, e, p.config.calls[index], index);
            r.Some? ==> Orderly(r.value) && Phased(r.value) && r.value.pending == s.pending
  {
  }

  lemma DialogueKeepsOrder(p: Plan, s: State, e: Event, index: int)
    requires Sized(p, s) && 0 <= index < |p.config.calls| && Orderly(s) && Phased(s)
    ensures var r := OnDialogueEvent(p, s, e, index);
            r.Some? ==> Orderly(r.value) && Phased(r.value) && r.value.pending == s.pending
  {
    if e.kind.Interact? {
      InteractKeepsOrder(p, s, e, index);
    } else if !e.kind.AuthorityRecheck? {
      AskingKeepsOrder(p, s, e, index);
    }
  }

  lemma ResponseKeepsOrder(p: Plan, s: State, e: Event, index: int)
    requires Sized(p, s) && 0 <= index < |p.config.calls| && Orderly(s) && Phased(s)
    ensures var r := OnResponse(p, s, e, index); r.Some? ==> Orderly(r.value) && Phased(r.value) && r.value.pending == s.pending
    ensures var r := OnDriverError(p, s, index); r.Some? ==> Orderly(r.value) && Phased(r.value) && r.value.pending == s.pending
  {
    var leaf := s.leaves[index];
    if leaf.sent && leaf.outcome.Unknown? {
      var done, failed, open := leaf.(terminal := true, outcome := Succeeded), leaf.(terminal := true, outcome := Failed), leaf.(terminal := true);
      if !s.stopped {
        SettleKeepsOrder(s, index, done);
        SettleKeepsOrder(s, index, failed);
      }
      assert Orderly(SetLeaf(s, index, open));
      StopKeepsOrder(SetLeaf(s, index, open));
      if !s.stopped { StopKeepsOrder(SetLeaf(s, index, failed)); }
    }
  }

  lemma DispatchKeepsOrder(p: Plan, s: State, e: Event, index: int)
    requires Sized(p, s) && 0 <= index < |p.config.calls| && Orderly(s) && Phased(s) && !e.kind.Send?
    ensures var r := OnDispatchEvent(p, s, e, index);
            r.Some? ==> Orderly(r.value) && Phased(r.value) && (r.value.pending == s.pending || e.kind.ClaimDispatch?)
  {
    StopKeepsOrder(s);
    ResponseKeepsOrder(p, s, e, index);
    hide OnResponse, OnDriverError, TraceKey, FirstClaimAllowed, NextClaimAllowed, Identifier;
  }

  lemma ClaimRecorded(p: Plan, s: State, e: Event)
    requires Sized(p, s) && s.pending == "" && e.kind.ClaimDispatch? && Next(p, s, e).Some? && Next(p, s, e).value.pending != ""
    ensures ClaimHolds(p, Next(p, s, e).value, e)
  {
    hide TraceKey, Identifier;
  }

  lemma OtherKeepsOrder(p: Plan, s: State, e: Event)
    requires Sized(p, s) && Orderly(s) && Phased(s) && s.pending == "" && !e.kind.Send? && Next(p, s, e).Some?
    ensures var r := Next(p, s, e).value; Orderly(r) && Phased(r) && (r.pending == "" || ClaimHolds(p, r, e))
  {
    var index := LeafOf(p.config.calls, e);
    if e.kind.CredentialLease? {
    } else if AboutSession(e.kind) {
      SessionKeepsOrder(p, s, e, index);
    } else if AboutDialogue(e.kind) {
      DialogueKeepsOrder(p, s, e, index);
    } else {
      DispatchKeepsOrder(p, s, e, index);
      if e.kind.ClaimDispatch? && Next(p, s, e).value.pending != "" { ClaimRecorded(p, s, e); }
    }
  }

  lemma PendingOnlySends(p: Plan, s: State, e: Event)
    requires Sized(p, s) && Next(p, s, e).Some? && s.pending != "" && s.phase.launchDone
    ensures e.kind.Send?
  {
  }

  lemma PendingSends(p: Plan, s: State, c: Event, e: Event)
    requires Sized(p, s) && ClaimHolds(p, s, c) && Next(p, s, e).Some? && s.pending != ""
    ensures e.kind.Send?
  {
    PendingOnlySends(p, s, e);
  }

  lemma SendsPending(p: Plan, s: State, e: Event)
    requires Sized(p, s) && e.kind.Send? && Next(p, s, e).Some?
    ensures s.pending != ""
  {
  }

  lemma NextKeepsOrder(p: Plan, t: seq<Event>, s: State)
    requires CleanCalls(p.config.calls) && t != [] && Sized(p, s) && Orderly(s) && Phased(s) && PendingIsLast(p, t[..|t| - 1], s)
    requires Next(p, s, t[|t| - 1]).Some?
    ensures var r := Next(p, s, t[|t| - 1]).value; Orderly(r) && Phased(r) && PendingIsLast(p, t, r)
  {
    hide Orderly, Phased, Next;
    var e := t[|t| - 1];
    if s.pending != "" { PendingSends(p, s, t[|t| - 2], e); }
    if e.kind.Send? {
      SendsPending(p, s, e);
      SendKeepsOrder(p, s, t[|t| - 2], e);
    } else {
      OtherKeepsOrder(p, s, e);
    }
  }

  lemma InitialOrderly(p: Plan)
    ensures Orderly(Initial(p)) && Phased(Initial(p)) && PendingIsLast(p, [], Initial(p))
  {
  }

  /** Every reachable state is orderly. */
  lemma {:induction false} ReachableOrderly(p: Plan, t: seq<Event>)
    requires CleanCalls(p.config.calls) && Run(p, t).Some?
    ensures var s := Run(p, t).value; Orderly(s) && Phased(s) && PendingIsLast(p, t, s)
    decreases |t|
  {
    if t == [] {
      InitialOrderly(p);
    } else {
      ReachableOrderly(p, t[..|t| - 1]);
      NextKeepsOrder(p, t, Run(p, t[..|t| - 1]).value);
    }
  }

  /** At most one leaf is in flight. */
  lemma OneLeafInFlight(p: Plan, t: seq<Event>, i: int, j: int)
    requires CleanCalls(p.config.calls) && Run(p, t).Some?
    requires var s := Run(p, t).value;
             0 <= i < |s.leaves| && 0 <= j < |s.leaves| && s.leaves[i].outcome.Unknown? && s.leaves[j].outcome.Unknown?
    ensures i == j && Run(p, t).value.leaves[i].sent && forall k :: i < k < |p.config.calls| ==> !Run(p, t).value.leaves[k].sent
  {
    ReachableOrderly(p, t);
  }

  // ---------- What no later event changes ----------

  predicate Settled(o: Outcome) {
    o.Succeeded? || o.Failed?
  }

  /** From `s` to `r` no settled outcome changed, a stop was not undone, and after a
      stop no outcome changed at all. */
  predicate Kept(s: State, r: State) {
    && |r.leaves| == |s.leaves|
    && (s.stopped ==> r.stopped)
    && forall i :: 0 <= i < |s.leaves| ==>
         && (Settled(s.leaves[i].outcome) || s.stopped ==> r.leaves[i].outcome == s.leaves[i].outcome)
         && (s.leaves[i].sent ==> r.leaves[i].sent)
  }

  lemma StopKeeps(s: State)
    ensures Kept(s, Stop(s))
  {
    assert forall i :: 0 <= i < |s.leaves| ==> Stop(s).leaves[i] == StopLeaf(s.leaves[i]);
  }

  lemma SetThenStopKeeps(s: State, index: int, l: LeafState)
    requires 0 <= index < |s.leaves| && l.sent && !Settled(s.leaves[index].outcome)
    requires s.stopped ==> l.outcome == s.leaves[index].outcome
    ensures Kept(s, SetLeaf(s, index, l)) && Kept(s, Stop(SetLeaf(s, index, l)))
  {
    var r := SetLeaf(s, index, l);
    assert forall i :: 0 <= i < |s.leaves| ==> Stop(r).leaves[i] == StopLeaf(r.leaves[i]);
  }

  lemma ResponseKeeps(p: Plan, s: State, e: Event, index: int)
    requires Sized(p, s) && 0 <= index < |p.config.calls| && Orderly(s)
    ensures var r := OnResponse(p, s, e, index); r.Some? ==> Kept(s, r.value)
    ensures var r := OnDriverError(p, s, index); r.Some? ==> Kept(s, r.value)
  {
    var leaf := s.leaves[index];
    if leaf.sent && leaf.outcome.Unknown? {
      SetThenStopKeeps(s, index, leaf.(outcome := Unknown, terminal := true));
      SetThenStopKeeps(s, index, leaf.(terminal := true));
      if !s.stopped {
        SetThenStopKeeps(s, index, leaf.(terminal := true, outcome := Failed));
        SetThenStopKeeps(s, index, leaf.(terminal := true, outcome := Succeeded));
      }
    }
  }

  lemma SameLeavesKeep(s: State, r: State)
    requires r.leaves == s.leaves && (s.stopped ==> r.stopped)
    ensures Kept(s, r)
  {
  }

  lemma DispatchKeeps(p: Plan, s: State, e: Event, index: int)
    requires Sized(p, s) && 0 <= index < |p.config.calls| && Orderly(s) && !e.kind.Send?
    ensures var r := OnDispatchEvent(p, s, e, index); r.Some? ==> Kept(s, r.value)
  {
    var r := OnDispatchEvent(p, s, e, index);
    if r.None? {
    } else if e.kind.ClaimDispatch? {
      if e.outcome.Refused? { StopKeeps(s); } else { SameLeavesKeep(s, r.value); }
    } else if e.kind.RegistrationContextClose? {
      var closed := s.leaves[index].(closed := true);
      assert r.value.leaves == s.leaves[index := closed];
    } else if e.kind.Failure? {
      StopKeeps(s);
    } else if e.kind.WriteCompleted? {
      SameLeavesKeep(s, r.value);
    } else {
      ResponseKeeps(p, s, e, index);
    }
  }

  lemma InteractKeeps(p: Plan, s: State, e: Event, index: int)
    requires e.kind.Interact? && Sized(p, s)
    ensures var r := OnInteract(p, s, e, index); r.Some? ==> Kept(s, r.value)
  {
    var r := OnInteract(p, s, e, index);
    if r.Some? {
      StopKeeps(s);
      if e.outcome.Deny? {
        assert r.value.leaves == Stop(s).leaves && r.value.stopped;
      } else {
        SameLeavesKeep(s, r.value);
      }
    }
  }

  lemma DialogueKeeps(p: Plan, s: State, e: Event, index: int)
    requires Sized(p, s) && 0 <= index < |p.config.calls|
    ensures var r := OnDialogueEvent(p, s, e, index); r.Some? ==> Kept(s, r.value)
  {
    var r := OnDialogueEvent(p, s, e, index);
    if r.None? {
    } else if e.kind.Interact? {
      InteractKeeps(p, s, e, index);
    } else if e.kind.QuestionEvent? {
      SameLeavesKeep(s, r.value);
    } else if e.kind.RegistrationInputEvent? {
      SameLeavesKeep(s, r.value);
    } else {
      SameLeavesKeep(s, r.value);
    }
  }

  lemma SendKeeps(p: Plan, s: State, c: Event, e: Event)
    requires CleanCalls(p.config.calls) && Sized(p, s) && Orderly(s) && Phased(s) && ClaimHolds(p, s, c)
    requires e.kind.Send? && Next(p, s, e).Some?
    ensures Kept(s, Next(p, s, e).value)
  {
    SendKeepsOrder(p, s, c, e);
    var index, r := LeafOf(p.config.calls, e), Next(p, s, e).value;
    assert !s.stopped && !Settled(s.leaves[index].outcome);
    assert r.leaves == s.leaves[index := r.leaves[index]] && r.leaves[index].sent;
  }

  lemma LeafEventKeeps(p: Plan, s: State, e: Event, index: int)
    requires Sized(p, s) && 0 <= index < |p.config.calls| && Orderly(s) && !e.kind.Send? && OnLeafEvent(p, s, e, index).Some?
    ensures Kept(s, OnLeafEvent(p, s, e, index).value)
  {
    if AboutSession(e.kind) {
      SameLeavesKeep(s, SessionEffect(s, e));
    } else if AboutDialogue(e.kind) {
      DialogueKeeps(p, s, e, index);
    } else {
      DispatchKeeps(p, s, e, index);
    }
  }

  lemma NextKeeps(p: Plan, t: seq<Event>, s: State)
    requires CleanCalls(p.config.calls) && t != [] && Sized(p, s) && Orderly(s) && Phased(s) && PendingIsLast(p, t[..|t| - 1], s)
    requires Next(p, s, t[|t| - 1]).Some?
    ensures Kept(s, Next(p, s, t[|t| - 1]).value)
  {
    hide Kept, SessionEventAllowed, OnDialogueEvent, OnDispatchEvent, Phased, Orderly;
    var e := t[|t| - 1];
    if e.kind.CredentialLease? {
      SameLeavesKeep(s, Next(p, s, e).value);
    } else if e.kind.Send? {
      SendsPending(p, s, e);
      SendKeeps(p, s, t[|t| - 2], e);
    } else {
      LeafEventKeeps(p, s, e, LeafOf(p.config.calls, e));
    }
  }

  lemma KeptTransitive(a: State, b: State, c: State)
    requires Kept(a, b) && Kept(b, c)
    ensures Kept(a, c)
  {
  }

  lemma LastKeeps(p: Plan, t: seq<Event>)
    requires CleanCalls(p.config.calls) && t != [] && Run(p, t).Some?
    ensures Run(p, t[..|t| - 1]).Some? && Kept(Run(p, t[..|t| - 1]).value, Run(p, t).value)
  {
    ReachableOrderly(p, t[..|t| - 1]);
    NextKeeps(p, t, Run(p, t[..|t| - 1]).value);
  }

  /** Success and failure are absorbing and terminal uncertainty is never upgraded:
      whatever follows the first k events, the settled outcomes stay, and once the run
      has stopped the whole outcome vector stays. */
  lemma {:induction false} OutcomesAreFinal(p: Plan, t: seq<Event>, k: nat)
    requires CleanCalls(p.config.calls) && Run(p, t).Some? && k <= |t|
    ensures Run(p, t[..k]).Some? && Kept(Run(p, t[..k]).value, Run(p, t).value)
    decreases |t|
  {
    if k == |t| {
      assert t[..k] == t;
    } else {
      var front := t[..|t| - 1];
      LastKeeps(p, t);
      assert front[..k] == t[..k];
      OutcomesAreFinal(p, front, k);
      KeptTransitive(Run(p, front[..k]).value, Run(p, front).value, Run(p, t).value);
    }
  }

  // ---------- Valid configurations qualify ----------

  lemma ProtocolsNulFree(profile: string)
    ensures NulFree(Protocols(profile).0)
  {
    DriversNulFree();
    hide NulFree;
  }

  lemma DriversNulFree()
    ensures NulFree("udon.browser-driver.v2") && NulFree("udon.browser-driver.v3") && NulFree("udon.browser-driver.v4")
    ensures NulFree("udon.browser-driver.v5") && NulFree("udon.browser-driver.v6")
    ensures NulFree("udon.browser-driver.v10") && NulFree("udon.browser-driver.v11") && NulFree("")
  {
  }

  lemma OuterProtocolNulFree(c: Call)
    requires ProtocolPairValid(c)
    ensures NulFree(c.outerProtocol)
  {
    ProtocolsNulFree(c.profileVersion);
    DriversNulFree();
    hide NulFree, Protocols;
  }

  lemma ValidCallsAreClean(canonical: string -> bool, c: Config)
    requires ConfigValid(canonical, c)
    ensures CleanCalls(c.calls) && DistinctIds(c.calls) && AtMostOneSave(c.calls)
  {
    forall i | 0 <= i < |c.calls|
      ensures NulFree(c.calls[i].stepId) && NulFree(c.calls[i].operationId) && NulFree(c.calls[i].invocationId) && NulFree(c.calls[i].outerProtocol)
    {
      var call := c.calls[i];
      assert CallValid(canonical, call);
      IdentifierNulFree(call.stepId);
      IdentifierNulFree(call.operationId);
      OuterProtocolNulFree(call);
    }
  }

  // ---------- The credential lease ----------

  function Keys(slots: seq<CredentialSlot>): set<string> {
    set i | 0 <= i < |slots| :: SlotKey(slots[i])
  }

  lemma {:induction false} KeysCount(slots: seq<CredentialSlot>)
    requires forall i, j :: 0 <= i < j < |slots| ==> SlotKey(slots[i]) != SlotKey(slots[j])
    ensures |Keys(slots)| == |slots|
  {
    hide SlotKey;
    if slots != [] {
      var front, last := slots[..|slots| - 1], SlotKey(slots[|slots| - 1]);
      KeysCount(front);
      assert Keys(slots) == Keys(front) + {last};
      assert last !in Keys(front);
    }
  }

  lemma SlotKeyDecides(a: CredentialSlot, b: CredentialSlot)
    requires NulFree(a.slot) && NulFree(a.name) && SlotKey(a) == SlotKey(b)
    ensures a == b
  {
    var x, y := [a.slot, a.name], [b.slot, b.name];
    assert AllNulFree(x);
    JoinNulDecides(x, y);
    assert x[0] == y[0] && x[1] == y[1];
  }

  /** The slots of a valid configuration have NUL-free keys. */
  lemma ValidSlotsAreClean(canonical: string -> bool, c: Config, i: nat, j: nat)
    requires ConfigValid(canonical, c) && i < |c.calls| && j < |c.calls[i].credentialSlots|
    ensures NulFree(c.calls[i].credentialSlots[j].slot) && NulFree(c.calls[i].credentialSlots[j].name)
  {
    assert CallValid(canonical, c.calls[i]);
    IdentifierNulFree(c.calls[i].credentialSlots[j].name);
  }

  ghost predicate Approved(c: Config, s: CredentialSlot) {
    exists i, j :: 0 <= i < |c.calls| && 0 <= j < |c.calls[i].credentialSlots| && c.calls[i].credentialSlots[j] == s
  }

  /** Slots and names without NULs, as those of a valid configuration are. */
  ghost predicate CleanSlots(c: Config) {
    forall s :: Approved(c, s) ==> NulFree(s.slot) && NulFree(s.name)
  }

  lemma ValidSlotsClean(canonical: string -> bool, c: Config)
    requires ConfigValid(canonical, c)
    ensures CleanSlots(c)
  {
    hide ConfigValid, NulFree;
    forall s | Approved(c, s) ensures NulFree(s.slot) && NulFree(s.name) {
      var i, j :| 0 <= i < |c.calls| && 0 <= j < |c.calls[i].credentialSlots| && c.calls[i].credentialSlots[j] == s;
      ValidSlotsAreClean(canonical, c, i, j);
    }
  }

  /** An approved slot is named by a key, and by no other slot's key. */
  lemma ApprovedKey(c: Config, s: CredentialSlot)
    requires CleanSlots(c)
    ensures SlotKey(s) in SlotKeys(c.calls) <==> Approved(c, s)
  {
    hide SlotKey, NulFree;
    if SlotKey(s) in SlotKeys(c.calls) {
      var i, j :| 0 <= i < |c.calls| && 0 <= j < |c.calls[i].credentialSlots| && SlotKey(c.calls[i].credentialSlots[j]) == SlotKey(s);
      assert Approved(c, c.calls[i].credentialSlots[j]);
      SlotKeyDecides(c.calls[i].credentialSlots[j], s);
    }
  }

  /** Slots that are all approved have one key each. */
  lemma KeysDistinct(c: Config, slots: seq<CredentialSlot>)
    requires CleanSlots(c) && forall s :: s in slots ==> Approved(c, s)
    ensures Distinct(slots) <==> forall i, j :: 0 <= i < j < |slots| ==> SlotKey(slots[i]) != SlotKey(slots[j])
  {
    hide SlotKey, NulFree, Approved;
    forall i, j | 0 <= i < j < |slots| && SlotKey(slots[i]) == SlotKey(slots[j]) ensures slots[i] == slots[j] {
      SlotKeyDecides(slots[i], slots[j]);
    }
  }

  /** Distinct keys that are all expected are all of the expected keys exactly when there are
      as many. */
  lemma KeysExpected(c: Config, slots: seq<CredentialSlot>)
    requires CleanSlots(c) && forall s :: s in slots ==> Approved(c, s)
    requires forall i, j :: 0 <= i < j < |slots| ==> SlotKey(slots[i]) != SlotKey(slots[j])
    ensures |slots| == |SlotKeys(c.calls)| <==> forall s :: Approved(c, s) ==> s in slots
  {
    hide SlotKey, NulFree, Approved, CleanSlots;
    KeysCount(slots);
    forall s | s in slots ensures SlotKey(s) in SlotKeys(c.calls) { ApprovedKey(c, s); }
    assert Keys(slots) <= SlotKeys(c.calls);
    if |slots| == |SlotKeys(c.calls)| {
      SubsetOfSameSize(Keys(slots), SlotKeys(c.calls));
      forall s | Approved(c, s) ensures s in slots {
        ApprovedKey(c, s);
        var k :| 0 <= k < |slots| && SlotKey(slots[k]) == SlotKey(s);
        KeyOfApproved(c, s, slots[k]);
      }
    }
    if forall s :: Approved(c, s) ==> s in slots {
      AllKeys(c, slots);
      assert Keys(slots) == SlotKeys(c.calls);
    }
  }

  lemma KeyOfApproved(c: Config, s: CredentialSlot, other: CredentialSlot)
    requires CleanSlots(c) && Approved(c, s) && SlotKey(s) == SlotKey(other)
    ensures s == other
  {
    hide SlotKey, NulFree, Approved;
    SlotKeyDecides(s, other);
  }

  lemma AllKeys(c: Config, slots: seq<CredentialSlot>)
    requires forall s :: Approved(c, s) ==> s in slots
    ensures SlotKeys(c.calls) <= Keys(slots)
  {
    hide SlotKey;
    forall key | key in SlotKeys(c.calls) ensures key in Keys(slots) {
      var i, j :| 0 <= i < |c.calls| && 0 <= j < |c.calls[i].credentialSlots| && SlotKey(c.calls[i].credentialSlots[j]) == key;
      assert Approved(c, c.calls[i].credentialSlots[j]);
    }
  }

  /** A lease matches exactly when it has the approved revisions and lists exactly the approved
      credential slots, each once, even if its own texts contain NULs. */
  lemma LeaseIsExact(c: Config, w: CredentialWitness)
    requires CleanSlots(c)
    ensures CredentialLeaseMatches(c, Some(w)) <==>
            w.revisions == c.revisions && Distinct(w.slots) && forall s :: s in w.slots <==> Approved(c, s)
  {
    hide SlotKey, CleanSlots, Approved, SlotKeys, Distinct;
    forall i | 0 <= i < |w.slots| ensures SlotKey(w.slots[i]) in SlotKeys(c.calls) <==> Approved(c, w.slots[i]) {
      ApprovedKey(c, w.slots[i]);
    }
    if forall s :: s in w.slots ==> Approved(c, s) {
      KeysDistinct(c, w.slots);
      if forall i, j :: 0 <= i < j < |w.slots| ==> SlotKey(w.slots[i]) != SlotKey(w.slots[j]) { KeysExpected(c, w.slots); }
    }
  }
}
