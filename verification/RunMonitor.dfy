/** The event loop and verdict of ObserveBrowserReport as they run: variables updated in
    place, proved against Next, Run and Judge. */
module RunMonitor {
  import opened Common
  import opened ReportV5
  import opened BrowserContract
  import opened RunChecker
  import opened RunVerdict
  import SessionBinding

  class Monitor {
    const plan: Plan
    const leaves: array<LeafState>
    var dialogue: Dialogue
    var phase: Phase
    var anySent: bool
    var stopped: bool
    var lastStarted: int
    var ordinal: nat
    var pending: string
    var pendingQuestion: Option<QuestionKind>
    ghost var history: seq<Event>

    ghost function View(): State
      reads this, leaves
    {
      State(leaves[..], dialogue, phase, anySent, stopped, lastStarted, ordinal, pending, pendingQuestion)
    }

    /** The variables hold what the transition function computes from the events so far. */
    ghost predicate Valid()
      reads this, leaves
    {
      Run(plan, history) == Some(View())
    }

    constructor (p: Plan)
      ensures plan == p && history == [] && Valid() && fresh(leaves)
    {
      plan := p;
      leaves := new LeafState[|p.config.calls|](_ => FRESH_LEAF);
      dialogue := NO_DIALOGUE;
      phase := Phase(false, false, false, false, false, false, false, p.config.revisions == [], false, None);
      anySent, stopped, lastStarted, ordinal, pending, pendingQuestion := false, false, -1, 0, "", None;
      history := [];
      new;
      assert leaves[..] == Initial(p).leaves;
    }

    method StopExecution()
      modifies this`stopped, leaves
      ensures View() == Stop(old(View()))
    {
      stopped := true;
      for i := 0 to leaves.Length
        invariant stopped
        invariant forall k :: 0 <= k < i ==> leaves[k] == StopLeaf(old(leaves[k]))
        invariant forall k :: i <= k < leaves.Length ==> leaves[k] == old(leaves[k])
      {
        if leaves[i].sent && leaves[i].outcome.Unknown? {
          leaves[i] := leaves[i].(terminal := true);
        }
      }
      assert leaves[..] == StopLeaves(old(leaves[..]));
    }

    method FindLeaf(e: Event) returns (index: int)
      ensures index == LeafOf(plan.config.calls, e)
    {
      var calls := plan.config.calls;
      for i := 0 to |calls|
        invariant FindFrom(calls, e, 0) == FindFrom(calls, e, i)
      {
        if calls[i].stepId == e.stepId && calls[i].operationId == e.operationId && calls[i].invocationId == e.invocationId {
          return i;
        }
      }
      return -1;
    }

    ghost predicate InRange(index: int)
      reads this
    {
      leaves.Length == |plan.config.calls| && 0 <= index < leaves.Length
    }

    method DoSession(e: Event, index: int) returns (ok: bool)
      requires InRange(index)
      modifies this`phase
      ensures ok == SessionEventAllowed(plan, old(View()), e, index)
      ensures ok ==> View() == SessionEffect(old(View()), e)
    {
      hide AcquireAllowed, LaunchAllowed, CandidateAllowed, SaveAllowed, NonDispatchAllowed, Run;
      var call, leaf := plan.config.calls[index], leaves[index];
      var s := Snapshot();
      ok := false;
      match e.kind {
        case SessionAcquire =>
          if !AcquireAllowed(plan, s, e, call) { return; }
          phase := phase.(acquired := Some(e.outcome));
        case Launch =>
          if !LaunchAllowed(plan, s, e) { return; }
          phase := phase.(launchDone := true);
        case Candidate =>
          if !CandidateAllowed(plan, s, e, call, index) { return; }
          phase := phase.(candidate := true);
        case Join =>
          if !phase.launchDone || phase.joinDone || !e.outcome.Proved? { return; }
          phase := phase.(joinDone := true);
        case GenerationRecheck =>
          if !phase.joinDone || plan.config.session.None? || e.outcome != CurrentGeneration(plan.config.session.value.generation) { return; }
          phase := phase.(generationCurrent := true);
        case SessionSave =>
          if !SaveAllowed(plan, s, e, call) { return; }
          phase := phase.(saveDone := true);
        case SessionRelease =>
          if !phase.joinDone || !e.outcome.Proved? { return; }
          phase := phase.(released := true);
        case NonDispatchCheck =>
          if anySent || !e.outcome.NothingSent? { return; }
        case NonDispatch =>
          if !NonDispatchAllowed(plan, s, e) { return; }
          phase := phase.(nonDispatch := true);
        case _ => return;
      }
      ok := true;
    }

    /** The variables read at once, for the tests that read many of them. */
    method Snapshot() returns (s: State)
      ensures s == View()
    {
      s := State(leaves[..], dialogue, phase, anySent, stopped, lastStarted, ordinal, pending, pendingQuestion);
    }

    method DoDialogue(e: Event, index: int) returns (ok: bool)
      requires InRange(index)
      modifies this`dialogue, this`phase, this`stopped, leaves
      ensures ok == OnDialogueEvent(plan, old(View()), e, index).Some?
      ensures ok ==> View() == OnDialogueEvent(plan, old(View()), e, index).value
    {
      var call, leaf := plan.config.calls[index], leaves[index];
      var s := Snapshot();
      ok := false;
      if e.kind.RegistrationInputEvent? {
        if !call.kind.Registration? || phase.joinDone || stopped || (e.question.Some? && dialogue.question != e.question) { return; }
        if e.outcome.InitialPrivate? {
          if anySent { return; }
        } else if e.outcome.CheckpointPrivate? {
          if dialogue.leaf != index || dialogue.kind != Some(RegistrationInput) || dialogue.question.None? { return; }
          dialogue := dialogue.(answered := true);
        } else {
          return;
        }
      } else if e.kind.QuestionEvent? {
        if !phase.launchDone || phase.joinDone || stopped || leaf.terminal || !QuestionValid(e.question) || !e.outcome.Asks? { return; }
        if !e.outcome.question.RuntimeConfirmation? && (!leaf.sent || !leaf.outcome.Unknown?) { return; }
        if !MayAsk(call, e.outcome.question) || (e.outcome.question.RuntimeConfirmation? && leaf.sent) { return; }
        dialogue := Dialogue(e.question, Some(e.outcome.question), index, false, false);
      } else if e.kind.Interact? {
        if !AboutQuestion(s, e, index) || !MayAnswer(dialogue.kind, e.outcome) { return; }
        dialogue := dialogue.(answered := !e.outcome.Deny?);
        if e.outcome.Deny? {
          StopExecution();
          phase := phase.(humanDenied := true);
        }
      } else if e.kind.AuthorityRecheck? {
        if !dialogue.answered || !e.outcome.Current? || !AboutQuestion(s, e, index) { return; }
        dialogue := dialogue.(rechecked := true);
      } else {
        return;
      }
      ok := true;
    }

    /** Every earlier leaf has succeeded, and closed its context if it registers. */
    method EarlierDone(index: int) returns (ok: bool)
      requires InRange(index)
      ensures ok <==> forall i :: 0 <= i < index ==>
                leaves[i].outcome.Succeeded? && (plan.config.calls[i].kind.Registration? ==> leaves[i].closed)
    {
      for i := 0 to index
        invariant forall k :: 0 <= k < i ==> leaves[k].outcome.Succeeded? && (plan.config.calls[k].kind.Registration? ==> leaves[k].closed)
      {
        if !leaves[i].outcome.Succeeded? || (plan.config.calls[i].kind.Registration? && !leaves[i].closed) { return false; }
      }
      return true;
    }

    method MayClaimFirst(e: Event, index: int) returns (ok: bool)
      requires InRange(index)
      ensures ok == FirstClaimAllowed(plan, View(), e, plan.config.calls[index], index)
    {
      var call := plan.config.calls[index];
      if e.messageKind != InitialKind(call.kind) || e.outcome != Leaf(call.kind) || index != lastStarted + 1 { return false; }
      if dialogue.kind == Some(RuntimeConfirmation) {
        if dialogue.leaf != index || !dialogue.answered || !dialogue.rechecked || dialogue.question != e.question { return false; }
      } else if e.question.Some? {
        return false;
      }
      ok := EarlierDone(index);
    }

    method MayClaimNext(e: Event, index: int) returns (ok: bool)
      requires InRange(index)
      ensures ok == NextClaimAllowed(plan, View(), e, index)
    {
      if !leaves[index].outcome.Unknown? || dialogue.leaf != index || !dialogue.answered || !dialogue.rechecked || dialogue.question != e.question
         || dialogue.kind.None? || e.outcome != Asks(dialogue.kind.value) || leaves[index].request != e.requestId {
        return false;
      }
      return ReplyKind(dialogue.kind.value, e.messageKind);
    }

    method DoClaim(e: Event, index: int) returns (ok: bool)
      requires InRange(index)
      modifies this`pending, this`pendingQuestion, this`stopped, leaves
      ensures var r := OnClaim(plan, old(View()), e, plan.config.calls[index], index); ok == r.Some? && (ok ==> View() == r.value)
    {
      hide FirstClaimAllowed, NextClaimAllowed, TraceKey, Identifier;
      var call := plan.config.calls[index];
      if !phase.launchDone || phase.joinDone || stopped { return false; }
      if e.outcome.Refused? {
        StopExecution();
        return true;
      }
      if !Identifier(e.requestId) || e.ordinal != ordinal + 1 || e.ordinal > MAX_TRACE || e.outerProtocol != call.outerProtocol { return false; }
      if !leaves[index].sent {
        ok := MayClaimFirst(e, index);
      } else {
        ok := MayClaimNext(e, index);
      }
      if !ok { return; }
      pending, pendingQuestion := TraceKey(e), dialogue.kind;
      return true;
    }

    method DoSend(e: Event, index: int) returns (ok: bool)
      requires InRange(index)
      modifies this, leaves
      ensures history == old(history)
      ensures var r := OnSend(plan, old(View()), e, plan.config.calls[index], index); ok == r.Some? && (ok ==> View() == r.value)
    {
      hide TraceKey, Run;
      var call := plan.config.calls[index];
      if !phase.launchDone || phase.joinDone || stopped || pending == "" || pending != TraceKey(e) { return false; }
      if leaves[index].sent {
        if dialogue.question != e.question || pendingQuestion.None? || e.outcome != Asks(pendingQuestion.value) { return false; }
      } else if e.outcome != Leaf(call.kind) || (dialogue.kind == Some(RuntimeConfirmation) && dialogue.question != e.question) {
        return false;
      }
      pending, pendingQuestion, ordinal, anySent := "", None, e.ordinal, true;
      leaves[index] := leaves[index].(outcome := Unknown, sent := true, request := e.requestId, lastMessage := TraceKey(e));
      if index > lastStarted { lastStarted := index; }
      dialogue := NO_DIALOGUE;
      return true;
    }

    method DoResponse(e: Event, index: int) returns (ok: bool)
      requires InRange(index)
      modifies this`stopped, leaves
      ensures var r := OnResponse(plan, old(View()), e, index); ok == r.Some? && (ok ==> View() == r.value)
    {
      var leaf := leaves[index];
      if !leaf.sent || phase.joinDone || leaf.terminal || leaf.lastMessage != TraceKey(e) || !leaf.outcome.Unknown? { return false; }
      match e.outcome {
        case Answered =>
          leaves[index] := leaf.(terminal := true, outcome := Succeeded);
        case DefiniteFailure =>
          leaves[index] := leaf.(terminal := true, outcome := Failed);
          StopExecution();
        case Uncertain =>
          leaves[index] := leaf.(terminal := true);
          StopExecution();
        case _ => return false;
      }
      return true;
    }

    method DoDriverError(index: int) returns (ok: bool)
      requires InRange(index)
      modifies this`stopped, leaves
      ensures var r := OnDriverError(plan, old(View()), index); ok == r.Some? && (ok ==> View() == r.value)
    {
      var leaf := leaves[index];
      if !leaf.sent || phase.joinDone || leaf.outcome.Succeeded? || leaf.outcome.Failed? { return false; }
      leaves[index] := leaf.(outcome := Unknown, terminal := true);
      StopExecution();
      return true;
    }

    method DoDispatch(e: Event, index: int) returns (ok: bool)
      requires InRange(index)
      modifies this, leaves
      ensures history == old(history)
      ensures var r := OnDispatchEvent(plan, old(View()), e, index); ok == r.Some? && (ok ==> View() == r.value)
    {
      var call, leaf := plan.config.calls[index], leaves[index];
      ok := false;
      match e.kind {
        case ClaimDispatch => ok := DoClaim(e, index);
        case Send => ok := DoSend(e, index);
        case Response => ok := DoResponse(e, index);
        case WriteCompleted => ok := leaf.sent && !phase.joinDone && !leaf.terminal && e.outcome.Proved?;
        case RegistrationContextClose =>
          if !call.kind.Registration? || !leaf.sent || !e.outcome.Proved? || phase.joinDone { return; }
          leaves[index] := leaf.(closed := true);
          ok := true;
        case Failure =>
          if !e.outcome.CheckpointFailure? || !leaf.outcome.Succeeded? || phase.joinDone { return; }
          StopExecution();
          ok := true;
        case Extraction => ok := DoDriverError(index);
        case TypedDriverError => ok := DoDriverError(index);
        case _ => return;
      }
    }

    /** One turn of the event loop. */
    method Step(e: Event) returns (ok: bool)
      requires Valid()
      modifies this, leaves
      ensures ok == Next(plan, old(View()), e).Some?
      ensures ok ==> Valid() && View() == Next(plan, old(View()), e).value && history == old(history) + [e]
    {
      ok := false;
      if e.runId != plan.config.runId || e.planSha != plan.config.planSha { return; }
      if e.kind.CredentialLease? {
        if phase.launchDone || anySent || (!e.outcome.WholePlanPrivate? && !e.outcome.WholePlanPrivateTotpSeed?) { return; }
        ok := CheckLease(plan.config, plan.host.credentials);
        if !ok { return; }
        phase := phase.(credentialsLeased := true);
      } else {
        if !Addressed(plan, e) { return; }
        var index := FindLeaf(e);
        if index < 0 || (pending != "" && !e.kind.Send?) || phase.released { return; }
        if AboutSession(e.kind) {
          ok := DoSession(e, index);
        } else if AboutDialogue(e.kind) {
          ok := DoDialogue(e, index);
        } else {
          ok := DoDispatch(e, index);
        }
        if !ok { return; }
      }
      history := history + [e];
      assert history[..|history| - 1] == old(history);
      ok := true;
    }
  }

  /** The keys of all approved slots, collected call by call. */
  method CollectKeys(calls: seq<Call>) returns (expected: set<string>)
    ensures expected == SlotKeys(calls)
  {
    expected := {};
    for i := 0 to |calls|
      invariant expected == SlotKeys(calls[..i])
    {
      var slots := calls[i].credentialSlots;
      KeysNext(calls, i);
      for j := 0 to |slots|
        invariant expected == SlotKeys(calls[..i]) + set k | 0 <= k < j :: SlotKey(slots[k])
      {
        expected := expected + {SlotKey(slots[j])};
      }
    }
    assert calls[..|calls|] == calls;
  }

  lemma KeysNext(calls: seq<Call>, i: nat)
    requires i < |calls|
    ensures var slots := calls[i].credentialSlots;
            SlotKeys(calls[..i + 1]) == SlotKeys(calls[..i]) + set k | 0 <= k < |slots| :: SlotKey(slots[k])
  {
    hide SlotKey;
    var before, through := calls[..i], calls[..i + 1];
    assert through[i] == calls[i] && forall k :: 0 <= k < i ==> through[k] == before[k];
    forall key | key in SlotKeys(before) ensures key in SlotKeys(through) {
      var a, b :| 0 <= a < |before| && 0 <= b < |before[a].credentialSlots| && SlotKey(before[a].credentialSlots[b]) == key;
      assert SlotKey(through[a].credentialSlots[b]) == key;
    }
    forall k | 0 <= k < |calls[i].credentialSlots| ensures SlotKey(calls[i].credentialSlots[k]) in SlotKeys(through) {
      assert SlotKey(through[i].credentialSlots[k]) in SlotKeys(through);
    }
  }

  /** credentialLeaseMatches. */
  method CheckLease(c: Config, w: Option<CredentialWitness>) returns (ok: bool)
    ensures ok == CredentialLeaseMatches(c, w)
  {
    hide SlotKeys, SlotKey;
    if w.None? || c.revisions != w.value.revisions { return false; }
    var expected := CollectKeys(c.calls);
    var slots := w.value.slots;
    if |slots| != |expected| { return false; }
    var seen: set<string> := {};
    for n := 0 to |slots|
      invariant forall i :: 0 <= i < n ==> SlotKey(slots[i]) in expected && SlotKey(slots[i]) in seen
      invariant forall key :: key in seen ==> exists i :: 0 <= i < n && SlotKey(slots[i]) == key
      invariant forall i, j :: 0 <= i < j < n ==> SlotKey(slots[i]) != SlotKey(slots[j])
    {
      var key := SlotKey(slots[n]);
      if key !in expected || key in seen { return false; }
      seen := seen + {key};
    }
    return true;
  }

  method CheckAccess(c: Config, lease: string, a: AccessWitness, independent: Option<Binding>) returns (ok: bool)
    ensures ok == AccessMatches(c, lease, a, independent)
  {
    if !AccessNarrows(c, lease, a) { return false; }
    var bound := SessionBinding.DeriveBinding(c, independent);
    return bound == SessionBinding.Bound(a.binding);
  }

  lemma {:induction false} RefusalSticks(p: Plan, t: seq<Event>, k: nat)
    requires k <= |t| && Run(p, t[..k]).None?
    ensures Run(p, t).None?
    decreases |t|
  {
    if k == |t| {
      assert t[..k] == t;
    } else {
      assert t[..|t| - 1][..k] == t[..k];
      RefusalSticks(p, t[..|t| - 1], k);
    }
  }

  /** The event loop over a whole trace. */
  method Follow(p: Plan, t: seq<Event>) returns (r: Option<State>)
    ensures r == Run(p, t)
  {
    var m := new Monitor(p);
    for k := 0 to |t|
      invariant m.plan == p && m.history == t[..k] && m.Valid() && fresh(m) && fresh(m.leaves)
    {
      var ok := m.Step(t[k]);
      assert t[..k + 1][..k] == t[..k];
      if !ok {
        RefusalSticks(p, t, k + 1);
        return None;
      }
    }
    assert t[..|t|] == t;
    var s := m.Snapshot();
    return Some(s);
  }

  method CheckInvocations(c: Config, i: Inventory) returns (ok: bool)
    ensures ok <==> SameInvocations(c, i)
  {
    if |i.steps| != |c.calls| { return false; }
    for n := 0 to |c.calls|
      invariant forall k :: 0 <= k < n ==>
        && i.steps[k].stepId == c.calls[k].stepId && i.steps[k].operationId == c.calls[k].operationId
        && i.steps[k].invocationId == c.calls[k].invocationId
    {
      var step, call := i.steps[n], c.calls[n];
      if step.stepId != call.stepId || step.operationId != call.operationId || step.invocationId != call.invocationId { return false; }
    }
    return true;
  }

  /** The report's own start, the steps of a reused session, and every step's start. */
  method CheckStarts(c: Config, o: Observation, access: Option<AccessWitness>) returns (ok: bool)
    requires c.admittedDeadline.At? && |o.steps| == |c.calls|
    ensures ok <==> StartsInTime(c, o, access)
  {
    var deadline := c.admittedDeadline.time;
    if !o.startedAt.At? || deadline <= o.startedAt.time { return false; }
    if access.Some? && access.value.outcome.Reuse? {
      var s := access.value.session;
      if !s.createdAt.At? || !s.expiresAt.At? || o.startedAt.time < s.createdAt.time || s.expiresAt.time <= o.startedAt.time { return false; }
      for n := 0 to |c.calls|
        invariant forall k :: 0 <= k < n && c.calls[k].sessionName == s.name && !o.steps[k].startedAt.Absent? ==>
          o.steps[k].startedAt.At? && s.createdAt.time <= o.steps[k].startedAt.time < s.expiresAt.time
      {
        var at := o.steps[n].startedAt;
        if c.calls[n].sessionName == s.name && !at.Absent? && (!at.At? || at.time < s.createdAt.time || s.expiresAt.time <= at.time) { return false; }
      }
    }
    for n := 0 to |o.steps|
      invariant forall k :: 0 <= k < n && !o.steps[k].startedAt.Absent? ==> o.steps[k].startedAt.At? && o.steps[k].startedAt.time < deadline
    {
      var at := o.steps[n].startedAt;
      if !at.Absent? && (!at.At? || deadline <= at.time) { return false; }
    }
    return true;
  }

  /** The tests after the event loop. */
  method Compare(p: Plan, o: Observation, s: State) returns (ok: bool)
    requires Sized(p, s) && |o.steps| == |s.leaves|
    ensures ok <==> Proves(p, o, s)
  {
    if s.pending != "" || !s.phase.joinDone || !s.phase.released { return false; }
    for n := 0 to |o.steps|
      invariant forall k :: 0 <= k < n ==>
        && o.steps[k].outcome == s.leaves[k].outcome
        && (s.leaves[k].sent && p.config.calls[k].kind.Registration? ==> s.leaves[k].closed)
    {
      if o.steps[n].outcome != s.leaves[n].outcome || (s.leaves[n].sent && p.config.calls[n].kind.Registration? && !s.leaves[n].closed) {
        return false;
      }
    }
    return p.host.nonDispatch.None? || s.phase.nonDispatch;
  }

  /** The tests before the host's session access is compared. */
  method CheckExpected(canonical: string -> bool, c: Config, i: Inventory, o: Observation, h: Host) returns (ok: bool)
    ensures ok <==> Expected(canonical, c, i, o, h)
  {
    hide ConfigValid, InventoryValid, SameInvocations, LaunchMatches, Joined, RequiresAccess;
    ok := ValidateConfig(canonical, c);
    if !ok { return; }
    ok := ValidateInventory(i);
    if !ok || h.durableBindings < 0 || 1 < h.durableBindings || c != h.config || i != h.inventory || c.factRefs != h.factRefs
       || |h.trace| == 0 || MAX_TRACE < |h.trace| || i.runId != c.runId || i.workflowDigest != "sha256:" + c.workflowSha || !o.state.Validated? {
      return false;
    }
    ok := CheckInvocations(c, i);
    if !ok { return; }
    return LaunchMatches(c, h.launch) && Joined(h.join, h.launch, RequiresAccess(c));
  }

  method ObserveBrowserReport(canonical: string -> bool, c: Config, i: Inventory, decoded: Option<Report>, h: Host) returns (v: Verdict)
    ensures v == Judge(canonical, c, i, decoded, h)
  {
    hide Expected, StartsInTime, Proves, Observe, AccessMatches, Run, UnknownObservation, RequiresAccess;
    var o := ObserveReport(i, decoded);
    var unknown := MakeUnknown(i, Invalid);
    var refusal := Rejected(unknown);
    var ok := CheckExpected(canonical, c, i, o, h);
    if !ok { return refusal; }
    HasDeadline(canonical, c, i, o, h);
    if h.access.None? {
      if RequiresAccess(c) || h.join.accessLeaseId != "" { return refusal; }
    } else {
      if h.durableBindings != 1 { return refusal; }
      ok := CheckAccess(c, h.join.accessLeaseId, h.access.value, h.expectedBinding);
      if !ok { return refusal; }
    }
    if |o.steps| != |c.calls| { return refusal; }
    ok := CheckStarts(c, o, h.access);
    if !ok { return refusal; }
    var p := Plan(c, h);
    var final := Follow(p, h.trace);
    if final.None? { return refusal; }
    ok := Compare(p, o, final.value);
    if !ok { return refusal; }
    return Accepted(o, final.value.phase.nonDispatch && !final.value.anySent);
  }

  lemma HasDeadline(canonical: string -> bool, c: Config, i: Inventory, o: Observation, h: Host)
    requires Expected(canonical, c, i, o, h)
    ensures c.admittedDeadline.At?
  {
  }
}
