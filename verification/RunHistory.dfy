/** A run of the checker told as the sequence of its states: what each event changed
    and which tests it passed, so that the order of a trace can be read off. */
module RunHistory {
  import opened Common
  import opened ReportV5
  import opened BrowserContract
  import opened RunChecker
  import opened RunSafety

  // ---------- Flags ----------

  /** How one event moves the flags of the run's milestones, and which flags it needed. */
  predicate MilestoneStep(a: Phase, e: Event, b: Phase) {
    && (b.launchDone <==> a.launchDone || e.kind.Launch?) && (e.kind.Launch? ==> !a.launchDone)
    && (b.joinDone <==> a.joinDone || e.kind.Join?) && (e.kind.Join? ==> a.launchDone && !a.joinDone)
    && (b.released <==> a.released || e.kind.SessionRelease?) && (e.kind.SessionRelease? ==> a.joinDone)
    && (a.released ==> e.kind.CredentialLease? && !a.launchDone)
    && (b.nonDispatch <==> a.nonDispatch || e.kind.NonDispatch?)
    && (e.kind.Send? ==> a.launchDone && !a.joinDone)
  }

  /** The same of the session's flags. */
  predicate SessionStep(a: Phase, e: Event, b: Phase) {
    && (b.saveDone <==> a.saveDone || e.kind.SessionSave?)
    && (e.kind.SessionSave? ==> !a.saveDone && a.joinDone && a.candidate && a.generationCurrent && !a.humanDenied)
    && (b.candidate <==> a.candidate || e.kind.Candidate?) && (e.kind.Candidate? ==> !a.joinDone)
    && (b.generationCurrent <==> a.generationCurrent || e.kind.GenerationRecheck?) && (e.kind.GenerationRecheck? ==> a.joinDone)
    && (b.humanDenied <==> a.humanDenied || Denies(e)) && (Denies(e) ==> !a.joinDone)
    && b.acquired == (if e.kind.SessionAcquire? then Some(e.outcome) else a.acquired)
  }

  predicate PhaseStep(a: Phase, e: Event, b: Phase) {
    MilestoneStep(a, e, b) && SessionStep(a, e, b)
  }

  predicate FlagStep(s: State, e: Event, r: State) {
    && PhaseStep(s.phase, e, r.phase)
    && (r.anySent <==> s.anySent || e.kind.Send?)
    && r.ordinal == (if e.kind.Send? then e.ordinal else s.ordinal)
  }

  lemma SamePhaseStep(a: Phase, e: Event)
    requires !a.released && !AboutSession(e.kind) && !Denies(e) && (e.kind.Send? ==> a.launchDone && !a.joinDone)
    ensures PhaseStep(a, e, a)
  {
  }

  lemma DenialPhaseStep(a: Phase, e: Event)
    requires !a.released && !a.joinDone && Denies(e)
    ensures PhaseStep(a, e, a.(humanDenied := true))
  {
  }

  /** Each event of the phase raises its own flag and no other. */
  lemma EffectFlags(a: Phase, e: Event)
    ensures PhaseEffect(a, e) ==
            a.(launchDone := a.launchDone || e.kind.Launch?,
               joinDone := a.joinDone || e.kind.Join?,
               released := a.released || e.kind.SessionRelease?,
               nonDispatch := a.nonDispatch || e.kind.NonDispatch?,
               candidate := a.candidate || e.kind.Candidate?,
               generationCurrent := a.generationCurrent || e.kind.GenerationRecheck?,
               saveDone := a.saveDone || e.kind.SessionSave?,
               acquired := if e.kind.SessionAcquire? then Some(e.outcome) else a.acquired)
  {
  }

  lemma EffectMilestoneStep(a: Phase, e: Event)
    requires !a.released && AboutSession(e.kind)
    requires e.kind.Launch? ==> !a.launchDone
    requires e.kind.Join? ==> a.launchDone && !a.joinDone
    requires e.kind.SessionRelease? ==> a.joinDone
    ensures MilestoneStep(a, e, PhaseEffect(a, e))
  {
    EffectFlags(a, e);
    hide PhaseEffect;
  }

  lemma EffectSessionStep(a: Phase, e: Event)
    requires AboutSession(e.kind)
    requires e.kind.GenerationRecheck? ==> a.joinDone
    requires e.kind.SessionSave? ==> !a.saveDone && a.joinDone && a.candidate && a.generationCurrent && !a.humanDenied
    requires e.kind.Candidate? ==> !a.joinDone
    ensures SessionStep(a, e, PhaseEffect(a, e))
  {
    EffectFlags(a, e);
    hide PhaseEffect;
  }

  lemma SessionFlagStep(p: Plan, s: State, e: Event, index: int)
    requires Sized(p, s) && 0 <= index < |p.config.calls| && !s.phase.released && AboutSession(e.kind) && SessionEventAllowed(p, s, e, index)
    ensures FlagStep(s, e, SessionEffect(s, e))
  {
    EffectMilestoneStep(s.phase, e);
    EffectSessionStep(s.phase, e);
    hide MilestoneStep, SessionStep, PhaseEffect;
  }

  lemma DialogueFlagStep(p: Plan, s: State, e: Event, index: int)
    requires Sized(p, s) && 0 <= index < |p.config.calls| && !s.phase.released && AboutDialogue(e.kind)
    ensures var r := OnDialogueEvent(p, s, e, index); r.Some? ==> FlagStep(s, e, r.value)
  {
    if OnDialogueEvent(p, s, e, index).Some? {
      if Denies(e) {
        DenialPhaseStep(s.phase, e);
      } else {
        SamePhaseStep(s.phase, e);
      }
    }
  }

  lemma DispatchFlagStep(p: Plan, s: State, e: Event, index: int)
    requires Sized(p, s) && 0 <= index < |p.config.calls| && !s.phase.released && !AboutSession(e.kind) && !AboutDialogue(e.kind)
    ensures var r := OnDispatchEvent(p, s, e, index); r.Some? ==> FlagStep(s, e, r.value)
  {
    if OnDispatchEvent(p, s, e, index).Some? { SamePhaseStep(s.phase, e); }
  }

  lemma FlagsNext(p: Plan, s: State, e: Event)
    requires Sized(p, s) && (s.phase.released ==> s.phase.launchDone) && Next(p, s, e).Some?
    ensures FlagStep(s, e, Next(p, s, e).value)
  {
    var index := LeafOf(p.config.calls, e);
    if e.kind.CredentialLease? {
      assert PhaseStep(s.phase, e, s.phase.(credentialsLeased := true));
    } else if AboutSession(e.kind) {
      SessionFlagStep(p, s, e, index);
    } else if AboutDialogue(e.kind) {
      DialogueFlagStep(p, s, e, index);
    } else {
      DispatchFlagStep(p, s, e, index);
    }
  }

  // ---------- Leaves ----------

  /** What one event can change of one leaf. */
  predicate LeafStep(calls: seq<Call>, s: State, e: Event, r: State, i: int)
    requires 0 <= i < |s.leaves| && |r.leaves| == |s.leaves|
  {
    var mine := LeafOf(calls, e) == i;
    && (r.leaves[i].sent <==> s.leaves[i].sent || (e.kind.Send? && mine))
    && (r.leaves[i].outcome.Succeeded? <==>
          (s.leaves[i].outcome.Succeeded? && !(e.kind.Send? && mine)) || (e.kind.Response? && e.outcome.Answered? && mine))
    && (r.leaves[i].outcome.Failed? <==>
          (s.leaves[i].outcome.Failed? && !(e.kind.Send? && mine)) || (e.kind.Response? && e.outcome.DefiniteFailure? && mine))
    && (r.leaves[i].closed <==> s.leaves[i].closed || (e.kind.RegistrationContextClose? && mine))
    && (r.leaves[i].request == if e.kind.Send? && mine then e.requestId else s.leaves[i].request)
    && (e.kind.RegistrationContextClose? && mine ==> !s.phase.joinDone)
  }

  lemma SessionLeafStep(p: Plan, s: State, e: Event, i: int)
    requires Sized(p, s) && 0 <= i < |s.leaves| && AboutSession(e.kind)
    ensures LeafStep(p.config.calls, s, e, SessionEffect(s, e), i)
  {
  }

  lemma DialogueLeafStep(p: Plan, s: State, e: Event, index: int, i: int)
    requires Sized(p, s) && 0 <= index < |p.config.calls| && 0 <= i < |s.leaves| && AboutDialogue(e.kind)
    ensures var r := OnDialogueEvent(p, s, e, index); r.Some? ==> LeafStep(p.config.calls, s, e, r.value, i)
  {
    assert Stop(s).leaves[i] == StopLeaf(s.leaves[i]);
  }

  lemma ResponseLeafStep(p: Plan, s: State, e: Event, i: int)
    requires Sized(p, s) && 0 <= LeafOf(p.config.calls, e) && 0 <= i < |s.leaves| && e.kind.Response?
    ensures var r := OnResponse(p, s, e, LeafOf(p.config.calls, e)); r.Some? ==> LeafStep(p.config.calls, s, e, r.value, i)
  {
    var index := LeafOf(p.config.calls, e);
    var failed := SetLeaf(s, index, s.leaves[index].(terminal := true, outcome := Failed));
    var open := SetLeaf(s, index, s.leaves[index].(terminal := true));
    assert Stop(failed).leaves[i] == StopLeaf(failed.leaves[i]);
    assert Stop(open).leaves[i] == StopLeaf(open.leaves[i]);
  }

  lemma DriverErrorLeafStep(p: Plan, s: State, e: Event, i: int)
    requires Sized(p, s) && 0 <= LeafOf(p.config.calls, e) && 0 <= i < |s.leaves| && (e.kind.Extraction? || e.kind.TypedDriverError?)
    ensures var r := OnDriverError(p, s, LeafOf(p.config.calls, e)); r.Some? ==> LeafStep(p.config.calls, s, e, r.value, i)
  {
    var index := LeafOf(p.config.calls, e);
    var set_ := SetLeaf(s, index, s.leaves[index].(outcome := Unknown, terminal := true));
    assert Stop(set_).leaves[i] == StopLeaf(set_.leaves[i]);
  }

  lemma DispatchLeafStep(p: Plan, s: State, e: Event, i: int)
    requires Sized(p, s) && 0 <= LeafOf(p.config.calls, e) && 0 <= i < |s.leaves| && !AboutSession(e.kind) && !AboutDialogue(e.kind)
    ensures var r := OnDispatchEvent(p, s, e, LeafOf(p.config.calls, e)); r.Some? ==> LeafStep(p.config.calls, s, e, r.value, i)
  {
    assert Stop(s).leaves[i] == StopLeaf(s.leaves[i]);
    if e.kind.Response? {
      ResponseLeafStep(p, s, e, i);
    } else if e.kind.Extraction? || e.kind.TypedDriverError? {
      DriverErrorLeafStep(p, s, e, i);
    }
  }

  lemma LeafNext(p: Plan, s: State, e: Event, i: int)
    requires Sized(p, s) && 0 <= i < |s.leaves| && Next(p, s, e).Some?
    ensures LeafStep(p.config.calls, s, e, Next(p, s, e).value, i)
  {
    var index := LeafOf(p.config.calls, e);
    if e.kind.CredentialLease? {
    } else if AboutSession(e.kind) {
      SessionLeafStep(p, s, e, i);
    } else if AboutDialogue(e.kind) {
      DialogueLeafStep(p, s, e, index, i);
    } else {
      DispatchLeafStep(p, s, e, i);
    }
  }

  // ---------- Dialogue ----------

  predicate AffirmativeAnswer(e: Event) {
    || (e.kind.Interact? && (e.outcome.Approve? || e.outcome.Continue?))
    || (e.kind.RegistrationInputEvent? && e.outcome.CheckpointPrivate?)
  }

  /** What one event does to the open dialogue. */
  predicate DialogueStep(calls: seq<Call>, s: State, e: Event, r: State) {
    var d, leaf := s.dialogue, LeafOf(calls, e);
    && (s.stopped ==> r.stopped)
    && match e.kind
       case Send => r.dialogue == NO_DIALOGUE
       case QuestionEvent => e.outcome.Asks? && r.dialogue == Dialogue(e.question, Some(e.outcome.question), leaf, false, false)
       case Interact =>
         && !s.stopped && d.kind.Some? && d.leaf == leaf
         && (if e.outcome.Deny? then r.dialogue == d.(answered := false) && r.stopped
             else AffirmativeAnswer(e) && r.dialogue == d.(answered := true))
       case RegistrationInputEvent =>
         || r.dialogue == d
         || (AffirmativeAnswer(e) && !s.stopped && d.kind.Some? && d.leaf == leaf && r.dialogue == d.(answered := true))
       case AuthorityRecheck =>
         d.answered && e.outcome.Current? && d.leaf == leaf && r.dialogue == d.(rechecked := true)
       case _ => r.dialogue == d
  }

  lemma DispatchDialogueStep(p: Plan, s: State, e: Event, index: int)
    requires Sized(p, s) && 0 <= index < |p.config.calls| && !AboutSession(e.kind) && !AboutDialogue(e.kind)
    ensures var r := OnDispatchEvent(p, s, e, index); r.Some? ==> DialogueStep(p.config.calls, s, e, r.value)
  {
  }

  lemma DialogueDialogueStep(p: Plan, s: State, e: Event)
    requires Sized(p, s) && 0 <= LeafOf(p.config.calls, e) && AboutDialogue(e.kind)
    ensures var r := OnDialogueEvent(p, s, e, LeafOf(p.config.calls, e)); r.Some? ==> DialogueStep(p.config.calls, s, e, r.value)
  {
  }

  lemma DialogueNext(p: Plan, s: State, e: Event)
    requires Sized(p, s) && Next(p, s, e).Some?
    ensures DialogueStep(p.config.calls, s, e, Next(p, s, e).value)
  {
    if e.kind.CredentialLease? || AboutSession(e.kind) {
    } else if AboutDialogue(e.kind) {
      DialogueDialogueStep(p, s, e);
    } else {
      DispatchDialogueStep(p, s, e, LeafOf(p.config.calls, e));
    }
  }

  // ---------- Tests passed ----------

  predicate Gate(p: Plan, s: State, e: Event)
    requires Sized(p, s)
  {
    var leaf := LeafOf(p.config.calls, e);
    && (e.kind.SessionSave? ==> 0 <= leaf && SaveAllowed(p, s, e, p.config.calls[leaf]))
    && (e.kind.Candidate? ==> 0 <= leaf && CandidateAllowed(p, s, e, p.config.calls[leaf], leaf))
    && (e.kind.SessionAcquire? ==> 0 <= leaf && AcquireAllowed(p, s, e, p.config.calls[leaf]))
    && (e.kind.Launch? ==> LaunchAllowed(p, s, e))
    && (e.kind.NonDispatch? ==> NonDispatchAllowed(p, s, e))
    && (e.kind.GenerationRecheck? ==> p.config.session.Some? && e.outcome == CurrentGeneration(p.config.session.value.generation))
  }

  lemma GateNext(p: Plan, s: State, e: Event)
    requires Sized(p, s) && Next(p, s, e).Some?
    ensures Gate(p, s, e)
  {
  }

  // ---------- The story of a run ----------

  predicate Told(p: Plan, t: seq<Event>, ss: seq<State>, k: int)
    requires 0 <= k < |t| && |ss| == |t| + 1 && Sized(p, ss[k]) && Sized(p, ss[k + 1])
  {
    var s, e, r := ss[k], t[k], ss[k + 1];
    && FlagStep(s, e, r) && DialogueStep(p.config.calls, s, e, r) && Gate(p, s, e)
    && (forall i :: 0 <= i < |s.leaves| ==> LeafStep(p.config.calls, s, e, r, i))
    && (e.kind.Send? ==> 0 < k && ClaimHolds(p, s, t[k - 1]) && SameMessage(t[k - 1], e)
                         && LeafOf(p.config.calls, e) == LeafOf(p.config.calls, t[k - 1]))
  }

  predicate Story(p: Plan, t: seq<Event>, ss: seq<State>) {
    && |ss| == |t| + 1 && ss[0] == Initial(p)
    && (forall k :: 0 <= k < |ss| ==> Sized(p, ss[k]) && Orderly(ss[k]) && Phased(ss[k]))
    && forall k :: 0 <= k < |t| ==> Told(p, t, ss, k)
  }

  lemma StepTold(p: Plan, t: seq<Event>, s: State)
    requires CleanCalls(p.config.calls) && t != [] && Sized(p, s) && Orderly(s) && Phased(s)
    requires PendingIsLast(p, t[..|t| - 1], s) && Next(p, s, t[|t| - 1]).Some?
    ensures var e, r := t[|t| - 1], Next(p, s, t[|t| - 1]).value;
            && FlagStep(s, e, r) && DialogueStep(p.config.calls, s, e, r) && Gate(p, s, e)
            && (forall i :: 0 <= i < |s.leaves| ==> LeafStep(p.config.calls, s, e, r, i))
            && (e.kind.Send? ==> 1 < |t| && ClaimHolds(p, s, t[|t| - 2]) && SameMessage(t[|t| - 2], e)
                                 && LeafOf(p.config.calls, e) == LeafOf(p.config.calls, t[|t| - 2]))
  {
    var e := t[|t| - 1];
    FlagsNext(p, s, e);
    DialogueNext(p, s, e);
    GateNext(p, s, e);
    forall i | 0 <= i < |s.leaves| ensures LeafStep(p.config.calls, s, e, Next(p, s, e).value, i) {
      LeafNext(p, s, e, i);
    }
    if e.kind.Send? { SendTold(p, t, s); }
  }

  lemma SendTold(p: Plan, t: seq<Event>, s: State)
    requires CleanCalls(p.config.calls) && t != [] && Sized(p, s) && Orderly(s) && Phased(s)
    requires PendingIsLast(p, t[..|t| - 1], s) && Next(p, s, t[|t| - 1]).Some? && t[|t| - 1].kind.Send?
    ensures 1 < |t| && ClaimHolds(p, s, t[|t| - 2]) && SameMessage(t[|t| - 2], t[|t| - 1])
    ensures LeafOf(p.config.calls, t[|t| - 1]) == LeafOf(p.config.calls, t[|t| - 2])
  {
    assert s.pending != "";
    SendKeepsOrder(p, s, t[|t| - 2], t[|t| - 1]);
  }

  lemma StoryGrows(p: Plan, t: seq<Event>, front: seq<State>, r: State)
    requires t != [] && Story(p, t[..|t| - 1], front)
    requires Sized(p, r) && Orderly(r) && Phased(r)
    requires var s, e := front[|t| - 1], t[|t| - 1];
             && FlagStep(s, e, r) && DialogueStep(p.config.calls, s, e, r) && Gate(p, s, e)
             && (forall i :: 0 <= i < |s.leaves| ==> LeafStep(p.config.calls, s, e, r, i))
             && (e.kind.Send? ==> 1 < |t| && ClaimHolds(p, s, t[|t| - 2]) && SameMessage(t[|t| - 2], e)
                                  && LeafOf(p.config.calls, e) == LeafOf(p.config.calls, t[|t| - 2]))
    ensures Story(p, t, front + [r])
  {
    var ss, early := front + [r], t[..|t| - 1];
    forall k | 0 <= k < |t| ensures Told(p, t, ss, k) {
      if k < |t| - 1 {
        assert Told(p, early, front, k);
        assert ss[k] == front[k] && ss[k + 1] == front[k + 1] && early[k] == t[k];
        assert 0 < k ==> early[k - 1] == t[k - 1];
      }
    }
  }

  lemma TellNext(p: Plan, t: seq<Event>, front: seq<State>) returns (ss: seq<State>)
    requires CleanCalls(p.config.calls) && t != [] && Run(p, t).Some?
    requires Story(p, t[..|t| - 1], front) && Run(p, t[..|t| - 1]) == Some(front[|t| - 1])
    ensures Story(p, t, ss) && ss[|t|] == Run(p, t).value && ss[..|t|] == front
  {
    ReachableOrderly(p, t[..|t| - 1]);
    ReachableOrderly(p, t);
    StepTold(p, t, front[|t| - 1]);
    StoryGrows(p, t, front, Run(p, t).value);
    ss := front + [Run(p, t).value];
  }

  lemma {:induction false} Tell(p: Plan, t: seq<Event>) returns (ss: seq<State>)
    requires CleanCalls(p.config.calls) && Run(p, t).Some?
    ensures Story(p, t, ss) && ss[|t|] == Run(p, t).value
    decreases |t|
  {
    if t == [] {
      ss := [Initial(p)];
      InitialOrderly(p);
    } else {
      ss := Tell(p, t[..|t| - 1]);
      ss := TellNext(p, t, ss);
    }
  }
}
