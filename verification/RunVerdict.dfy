/** The verdict of ObserveBrowserReport and what an accepted report proves. */
module RunVerdict {
  import opened Common
  import opened ReportV5
  import opened BrowserContract
  import opened RunChecker
  import opened RunSafety
  import opened RunHistory
  import opened RunEvidence
  import SessionBinding

  datatype Verdict = Accepted(observation: Observation, successorEligible: bool) | Rejected(observation: Observation)

  predicate Joined(w: JoinWitness, launch: LaunchWitness, requireAccess: bool) {
    && w.launchLeaseId == launch.leaseId && w.containmentLeaseId == launch.containmentLeaseId
    && (Identifier(w.accessLeaseId) || (!requireAccess && w.accessLeaseId == ""))
    && w.transportJoined && w.driverJoined && w.chromiumJoined && w.callbacksJoined
  }

  predicate LaunchMatches(c: Config, w: LaunchWitness) {
    && w.allTraffic && w.sandbox && Identifier(w.leaseId) && w.launchNonce == c.launchNonce && w.worker == c.worker
    && w.driverClosureSha == c.driverClosureSha && w.containmentLeaseId == c.containmentLeaseId && w.origins == c.origins
  }

  predicate RequiresAccess(c: Config) {
    c.session.Some? && (c.session.value.reuseAllowed || c.session.value.saveAllowed)
  }

  /** Observed rights may narrow the approved ones; everything else matches exactly. */
  predicate AccessNarrows(c: Config, lease: string, a: AccessWitness) {
    && c.session.Some? && Identifier(a.leaseId) && a.leaseId == lease && (a.outcome.Fresh? || a.outcome.Reuse?)
    && var want := c.session.value;
    && (a.session.reuseAllowed ==> want.reuseAllowed) && (a.session.saveAllowed ==> want.saveAllowed)
    && (a.outcome.Reuse? ==> a.session.reuseAllowed)
    && a.session.(reuseAllowed := want.reuseAllowed, saveAllowed := want.saveAllowed) == want
  }

  ghost predicate AccessMatches(c: Config, lease: string, a: AccessWitness, independent: Option<Binding>) {
    AccessNarrows(c, lease, a) && SessionBinding.ExpectedBinding(c, independent) == SessionBinding.Bound(a.binding)
  }

  predicate SameInvocations(c: Config, i: Inventory) {
    && |i.steps| == |c.calls|
    && forall n :: 0 <= n < |c.calls| ==>
         && i.steps[n].stepId == c.calls[n].stepId && i.steps[n].operationId == c.calls[n].operationId
         && i.steps[n].invocationId == c.calls[n].invocationId
  }

  /** Everything recorded started before the admitted deadline, and under a reused
      session within that session's lifetime. */
  predicate StartsInTime(c: Config, o: Observation, access: Option<AccessWitness>)
    requires c.admittedDeadline.At? && |o.steps| == |c.calls|
  {
    && o.startedAt.At? && o.startedAt.time < c.admittedDeadline.time
    && (forall n :: 0 <= n < |o.steps| && !o.steps[n].startedAt.Absent? ==>
          o.steps[n].startedAt.At? && o.steps[n].startedAt.time < c.admittedDeadline.time)
    && (access.Some? && access.value.outcome.Reuse? ==>
          var s := access.value.session;
          && s.createdAt.At? && s.expiresAt.At?
          && s.createdAt.time <= o.startedAt.time < s.expiresAt.time
          && forall n :: 0 <= n < |o.steps| && c.calls[n].sessionName == s.name && !o.steps[n].startedAt.Absent? ==>
               o.steps[n].startedAt.At? && s.createdAt.time <= o.steps[n].startedAt.time < s.expiresAt.time)
  }

  predicate Expected(canonical: string -> bool, c: Config, i: Inventory, o: Observation, h: Host) {
    && ConfigValid(canonical, c) && InventoryValid(i) && 0 <= h.durableBindings <= 1
    && c == h.config && i == h.inventory && c.factRefs == h.factRefs && 0 < |h.trace| <= MAX_TRACE
    && i.runId == c.runId && i.workflowDigest == "sha256:" + c.workflowSha && SameInvocations(c, i)
    && o.state.Validated?
    && LaunchMatches(c, h.launch) && Joined(h.join, h.launch, RequiresAccess(c))
  }

  /** The tests made before the event loop. */
  ghost predicate Admissible(canonical: string -> bool, c: Config, i: Inventory, decoded: Option<Report>, h: Host) {
    var o := Observe(i, decoded);
    && Expected(canonical, c, i, o, h)
    && (if h.access.None? then !RequiresAccess(c) && h.join.accessLeaseId == ""
        else h.durableBindings == 1 && AccessMatches(c, h.join.accessLeaseId, h.access.value, h.expectedBinding))
    && |o.steps| == |c.calls| && StartsInTime(c, o, h.access)
  }

  /** The tests made after it. */
  predicate Proves(p: Plan, o: Observation, s: State)
    requires Sized(p, s)
  {
    && Finished(s) && |o.steps| == |s.leaves|
    && (forall n :: 0 <= n < |o.steps| ==>
          && o.steps[n].outcome == s.leaves[n].outcome
          && (s.leaves[n].sent && p.config.calls[n].kind.Registration? ==> s.leaves[n].closed))
    && (p.host.nonDispatch.Some? ==> s.phase.nonDispatch)
  }

  ghost function Judge(canonical: string -> bool, c: Config, i: Inventory, decoded: Option<Report>, h: Host): Verdict {
    var refusal := Rejected(UnknownObservation(i, Invalid));
    var p, o := Plan(c, h), Observe(i, decoded);
    if !Admissible(canonical, c, i, decoded, h) then refusal
    else
      var final := Run(p, h.trace);
      if final.Some? && Proves(p, o, final.value)
      then Accepted(o, final.value.phase.nonDispatch && !final.value.anySent)
      else refusal
  }

  // ---------- What acceptance proves ----------

  ghost predicate IsAccepted(canonical: string -> bool, c: Config, i: Inventory, decoded: Option<Report>, h: Host) {
    Judge(canonical, c, i, decoded, h).Accepted?
  }

  /** What an accepted trace and observation satisfy, whatever the rest of the input. */
  predicate Upheld(p: Plan, t: seq<Event>, o: Observation) {
    && Followed(p, t) && AtMostOneSave(p.config.calls) && Proves(p, o, Run(p, t).value)
    && (o.reportStatus.Success? ==> forall n :: 0 <= n < |o.steps| ==> o.steps[n].outcome.Succeeded?)
  }

  lemma AcceptedIsUpheld(canonical: string -> bool, c: Config, i: Inventory, decoded: Option<Report>, h: Host)
    requires IsAccepted(canonical, c, i, decoded, h)
    ensures var p, o := Plan(c, h), Observe(i, decoded);
            && Upheld(p, h.trace, o)
            && var s := Run(p, h.trace).value; Judge(canonical, c, i, decoded, h) == Accepted(o, s.phase.nonDispatch && !s.anySent)
  {
    hide Observe;
    ObservedSuccess(i, decoded);
    hide ConfigValid, InventoryValid, AccessMatches, StartsInTime, LaunchMatches, Joined, SameInvocations, UnknownObservation, Run, Finished;
    ValidCallsAreClean(canonical, c);
  }

  lemma ObservedSuccess(i: Inventory, decoded: Option<Report>)
    ensures var o := Observe(i, decoded);
            o.state.Validated? && o.reportStatus.Success? ==> forall n :: 0 <= n < |o.steps| ==> o.steps[n].outcome.Succeeded?
  {
  }

  ghost predicate EverSent(calls: seq<Call>, t: seq<Event>, n: int) {
    exists k :: SentAt(calls, t, k, n)
  }

  ghost predicate EverSucceeded(calls: seq<Call>, t: seq<Event>, n: int) {
    exists a :: SucceededAt(calls, t, a, n)
  }

  ghost predicate EverFailed(calls: seq<Call>, t: seq<Event>, n: int) {
    exists a :: FailedAt(calls, t, a, n)
  }

  /** The outcome a trace proves for leaf n: the one its settling response names, unknown
      when it was sent and got none, not started when it was never sent. */
  ghost predicate Grounded(calls: seq<Call>, t: seq<Event>, o: Outcome, n: int) {
    && (o.Succeeded? <==> EverSucceeded(calls, t, n))
    && (o.Failed? <==> EverFailed(calls, t, n))
    && (o.NotStarted? <==> !EverSent(calls, t, n))
    && (o.Unknown? <==> EverSent(calls, t, n) && !EverSucceeded(calls, t, n) && !EverFailed(calls, t, n))
  }

  /** A leaf of the final state is marked sent exactly when the trace sends it. */
  lemma SentWhenTold(p: Plan, t: seq<Event>, ss: seq<State>, n: nat)
    requires Story(p, t, ss) && n < |p.config.calls|
    ensures ss[|t|].leaves[n].sent <==> EverSent(p.config.calls, t, n)
  {
    if ss[|t|].leaves[n].sent {
      var k := SendSource(p, t, ss, |t|, n);
    }
    if EverSent(p.config.calls, t, n) {
      var k :| SentAt(p.config.calls, t, k, n);
      RequestKept(p, t, ss, k, |t|, n);
    }
  }

  /** A leaf ends settled exactly as one of its responses settled it. */
  lemma SettledWhenTold(p: Plan, t: seq<Event>, ss: seq<State>, n: nat)
    requires Followed(p, t) && Story(p, t, ss) && ss[|t|] == Run(p, t).value && n < |p.config.calls|
    ensures ss[|t|].leaves[n].outcome.Succeeded? <==> EverSucceeded(p.config.calls, t, n)
    ensures ss[|t|].leaves[n].outcome.Failed? <==> EverFailed(p.config.calls, t, n)
  {
    hide Run, Told, Orderly, Phased;
    if ss[|t|].leaves[n].outcome.Succeeded? { var a := SuccessSource(p, t, ss, |t|, n); }
    if ss[|t|].leaves[n].outcome.Failed? { var a := FailureSource(p, t, ss, |t|, n); }
    if EverSucceeded(p.config.calls, t, n) {
      var a :| SucceededAt(p.config.calls, t, a, n);
      ResponseSettles(p, t, a, n);
    }
    if EverFailed(p.config.calls, t, n) {
      var a :| FailedAt(p.config.calls, t, a, n);
      ResponseSettles(p, t, a, n);
    }
  }

  /** Not started means not sent, and no outcome falls outside the four. */
  lemma OrderlyOutcome(s: State, n: nat)
    requires Orderly(s) && n < |s.leaves|
    ensures !s.leaves[n].outcome.OtherOutcome? && (s.leaves[n].outcome.NotStarted? <==> !s.leaves[n].sent)
  {
  }

  lemma FinalGrounded(p: Plan, t: seq<Event>, n: nat)
    requires Followed(p, t) && n < |p.config.calls|
    ensures Grounded(p.config.calls, t, Run(p, t).value.leaves[n].outcome, n)
  {
    var ss := Tell(p, t);
    assert Orderly(ss[|t|]);
    hide Told, Phased, Run, Next, Initial, Orderly, EverSent, EverSucceeded, EverFailed;
    OrderlyOutcome(ss[|t|], n);
    SentWhenTold(p, t, ss, n);
    SettledWhenTold(p, t, ss, n);
  }

  /** The outcomes of an accepted report are those the trace proves, in both directions. */
  lemma OutcomesAreGrounded(p: Plan, t: seq<Event>, o: Observation, n: nat)
    requires Upheld(p, t, o) && n < |p.config.calls|
    ensures |o.steps| == |p.config.calls| && Grounded(p.config.calls, t, o.steps[n].outcome, n)
  {
    FinalGrounded(p, t, n);
  }

  ghost predicate Done(calls: seq<Call>, t: seq<Event>, n: int)
    requires 0 <= n < |calls|
  {
    && EverSent(calls, t, n) && EverSucceeded(calls, t, n)
    && (calls[n].kind.Registration? ==> exists q, j :: ClosedAt(calls, t, q, n) && q < j < |t| && t[j].kind.Join?)
  }

  lemma ClosedBeforeJoin(p: Plan, t: seq<Event>, ss: seq<State>, n: nat) returns (q: nat, j: nat)
    requires Story(p, t, ss) && n < |p.config.calls| && ss[|t|].leaves[n].closed && ss[|t|].phase.joinDone
    ensures ClosedAt(p.config.calls, t, q, n) && q < j < |t| && t[j].kind.Join?
  {
    q := CloseSource(p, t, ss, |t|, n);
    j := FlagRaised(p, t, ss, Join, |t|);
    if j < q { FlagAfter(p, t, ss, j, q); }
  }

  lemma SucceededIsDone(p: Plan, t: seq<Event>, n: nat)
    requires Followed(p, t) && n < |p.config.calls|
    requires var s := Run(p, t).value;
             s.phase.joinDone && s.leaves[n].outcome.Succeeded? && (s.leaves[n].sent && p.config.calls[n].kind.Registration? ==> s.leaves[n].closed)
    ensures Done(p.config.calls, t, n)
  {
    var ss := Tell(p, t);
    assert Orderly(ss[|t|]);
    var k := SendSource(p, t, ss, |t|, n);
    var a := SuccessSource(p, t, ss, |t|, n);
    if p.config.calls[n].kind.Registration? {
      var q, j := ClosedBeforeJoin(p, t, ss, n);
    }
  }

  /** A success report: every approved call was sent and got its success response, and
      every registration was closed before the join. That the calls were sent in order
      is SendsAreInOrder. */
  lemma SuccessIsDone(p: Plan, t: seq<Event>, o: Observation, n: nat)
    requires Upheld(p, t, o) && n < |p.config.calls| && o.reportStatus.Success?
    ensures Done(p.config.calls, t, n)
  {
    assert o.steps[n].outcome.Succeeded?;
    SucceededIsDone(p, t, n);
  }

  lemma NoSendNoStart(p: Plan, t: seq<Event>)
    requires Followed(p, t) && Run(p, t).value.phase.nonDispatch
    ensures !Run(p, t).value.anySent && forall k :: 0 <= k < |t| ==> !t[k].kind.Send?
    ensures forall n :: 0 <= n < |p.config.calls| ==> Run(p, t).value.leaves[n].outcome.NotStarted?
    ensures p.host.nonDispatch.Some?
  {
    var ss := Tell(p, t);
    assert Orderly(ss[|t|]) && Phased(ss[|t|]);
    forall k | 0 <= k < |t| ensures !t[k].kind.Send? {
      if t[k].kind.Send? { FlagAfter(p, t, ss, k, |t|); }
    }
    var m := FlagRaised(p, t, ss, NonDispatch, |t|);
    assert Told(p, t, ss, m);
  }

  /** Non-dispatch is proved exactly when the host supplied its witness, and then nothing was
      sent and every step is reported as not started. */
  lemma NonDispatchIsTotal(p: Plan, t: seq<Event>, o: Observation)
    requires Upheld(p, t, o)
    ensures var s := Run(p, t).value;
            && (s.phase.nonDispatch && !s.anySent <==> p.host.nonDispatch.Some?)
            && (s.phase.nonDispatch ==>
                  && (forall k :: 0 <= k < |t| ==> !t[k].kind.Send?)
                  && (forall n :: 0 <= n < |o.steps| ==> o.steps[n].outcome.NotStarted?))
  {
    if Run(p, t).value.phase.nonDispatch { NoSendNoStart(p, t); }
  }

  /** What an accepted report proves: one launch, one join and one release in their places;
      outcomes grounded in the trace; a success done in full; and a successor eligible
      exactly when the host witnessed that nothing was sent. */
  lemma AcceptedReport(canonical: string -> bool, c: Config, i: Inventory, decoded: Option<Report>, h: Host) returns (l: nat, j: nat)
    requires IsAccepted(canonical, c, i, decoded, h)
    ensures Milestones(h.trace, l, j)
    ensures var v := Judge(canonical, c, i, decoded, h);
            && |v.observation.steps| == |c.calls|
            && (forall n :: 0 <= n < |c.calls| ==> Grounded(c.calls, h.trace, v.observation.steps[n].outcome, n))
            && (v.observation.reportStatus.Success? ==> forall n :: 0 <= n < |c.calls| ==> Done(c.calls, h.trace, n))
            && (v.successorEligible <==> h.nonDispatch.Some?)
            && (v.successorEligible ==> forall n :: 0 <= n < |c.calls| ==> v.observation.steps[n].outcome.NotStarted?)
  {
    hide IsAccepted, Judge, Grounded, Done, Milestones;
    AcceptedIsUpheld(canonical, c, i, decoded, h);
    var p, o := Plan(c, h), Observe(i, decoded);
    hide Observe;
    NonDispatchIsTotal(p, h.trace, o);
    forall n: nat | n < |c.calls| ensures |o.steps| == |c.calls| && Grounded(c.calls, h.trace, o.steps[n].outcome, n) {
      OutcomesAreGrounded(p, h.trace, o, n);
    }
    if o.reportStatus.Success? {
      forall n: nat | n < |c.calls| ensures Done(c.calls, h.trace, n) {
        SuccessIsDone(p, h.trace, o, n);
      }
    }
    l, j := FinishedRunMilestones(p, h.trace);
  }

  /** Every refusal reports nothing but uncertainty. */
  lemma RefusalIsUncertain(canonical: string -> bool, c: Config, i: Inventory, decoded: Option<Report>, h: Host)
    requires !IsAccepted(canonical, c, i, decoded, h)
    ensures var o := Judge(canonical, c, i, decoded, h).observation;
            o.state.Invalid? && forall n :: 0 <= n < |o.steps| ==> o.steps[n].outcome.Unknown?
  {
  }
}
