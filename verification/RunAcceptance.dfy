/** When ObserveBrowserReport accepts: exactly when the host's witnesses are those of the
    approved attempt and the trace obeys the rules to its end (runevidence/browser.go). */
module RunAcceptance {
  import opened Common
  import opened ReportV5
  import opened BrowserContract
  import opened RunChecker
  import opened RunSafety
  import opened RunEvidence
  import opened RunVerdict
  import opened RunRules
  import opened RunConformance
  import opened BindingMeaning

  /** The leaf of an event is the first approved call with the event's three ids. */
  predicate Names(c: Call, e: Event) {
    e.stepId == c.stepId && e.operationId == c.operationId && e.invocationId == c.invocationId
  }

  lemma {:induction false} LeafFrom(calls: seq<Call>, e: Event, i: nat)
    requires i <= |calls|
    ensures var r := FindFrom(calls, e, i);
            && (r < 0 <==> forall n :: i <= n < |calls| ==> !Names(calls[n], e))
            && (0 <= r ==> i <= r && Names(calls[r], e) && forall n :: i <= n < r ==> !Names(calls[n], e))
    decreases |calls| - i
  {
    if i < |calls| { LeafFrom(calls, e, i + 1); }
  }

  lemma LeafExactly(calls: seq<Call>, e: Event)
    ensures LeafOf(calls, e) < 0 <==> forall n :: 0 <= n < |calls| ==> !Names(calls[n], e)
    ensures var r := LeafOf(calls, e); 0 <= r ==> Names(calls[r], e) && forall n :: 0 <= n < r ==> !Names(calls[n], e)
  {
    LeafFrom(calls, e, 0);
  }

  // ---------- The host ----------

  predicate NeedsAccess(c: Config) {
    c.session.Some? && !(!c.session.value.reuseAllowed && !c.session.value.saveAllowed)
  }

  /** Launched as approved, contained and joined in full. */
  predicate Contained(c: Config, h: Host) {
    && h.launch == LaunchWitness(h.launch.leaseId, c.launchNonce, c.worker, c.driverClosureSha, c.containmentLeaseId, true, true, c.origins)
    && h.join == JoinWitness(h.launch.leaseId, c.containmentLeaseId, h.join.accessLeaseId, true, true, true, true)
    && Identifier(h.launch.leaseId) && (Identifier(h.join.accessLeaseId) || (h.join.accessLeaseId == "" && !NeedsAccess(c)))
  }

  /** The session the host observed: the approved one with its rights or fewer, found behind
      the binding that the plan's calls and the independent expectation determine. */
  ghost predicate AccessAsApproved(c: Config, h: Host, a: AccessWitness) {
    && c.session.Some? && Identifier(a.leaseId) && a.leaseId == h.join.accessLeaseId && h.durableBindings == 1
    && exists reuse, save ::
         && a.session == c.session.value.(reuseAllowed := reuse, saveAllowed := save)
         && (reuse ==> c.session.value.reuseAllowed) && (save ==> c.session.value.saveAllowed)
         && a.outcome in (if reuse then {Fresh, Reuse} else {Fresh})
         && BindingOf(c, h.expectedBinding, a.binding)
  }

  predicate Before(s: Stamp, bound: Stamp) {
    s.At? && bound.At? && s.time < bound.time
  }

  predicate Within(s: Stamp, a: Session) {
    s.At? && a.createdAt.At? && a.createdAt.time <= s.time && Before(s, a.expiresAt)
  }

  /** Whatever started did so before the deadline, and under a reused session while it lasted. */
  predicate Started(c: Config, h: Host, o: Observation) {
    && |o.steps| == |c.calls| && Before(o.startedAt, c.admittedDeadline)
    && (forall n :: 0 <= n < |c.calls| && o.steps[n].startedAt != Absent ==> Before(o.steps[n].startedAt, c.admittedDeadline))
    && (h.access.Some? && h.access.value.outcome == Reuse ==>
          && Within(o.startedAt, h.access.value.session)
          && forall n :: 0 <= n < |c.calls| && o.steps[n].startedAt != Absent && c.calls[n].sessionName == h.access.value.session.name ==>
               Within(o.steps[n].startedAt, h.access.value.session))
  }

  ghost predicate Trusted(canonical: string -> bool, c: Config, i: Inventory, decoded: Option<Report>, h: Host) {
    && ConfigValid(canonical, c) && InventoryValid(i) && h.durableBindings in {0, 1}
    && h.config == c && h.inventory == i && h.factRefs == c.factRefs && 1 <= |h.trace| <= 4096
    && i.runId == c.runId && i.workflowDigest == "sha256:" + c.workflowSha && |i.steps| == |c.calls|
    && (forall n :: 0 <= n < |c.calls| ==>
          (i.steps[n].stepId, i.steps[n].operationId, i.steps[n].invocationId) == (c.calls[n].stepId, c.calls[n].operationId, c.calls[n].invocationId))
    && Contained(c, h)
    && (h.access.None? ==> !NeedsAccess(c) && h.join.accessLeaseId == "")
    && (h.access.Some? ==> AccessAsApproved(c, h, h.access.value))
    && Observe(i, decoded).state == Validated && Started(c, h, Observe(i, decoded))
  }

  lemma AccessExactly(canonical: string -> bool, c: Config, h: Host, a: AccessWitness)
    requires ConfigValid(canonical, c)
    ensures h.durableBindings == 1 && AccessMatches(c, h.join.accessLeaseId, a, h.expectedBinding) <==> AccessAsApproved(c, h, a)
  {
    BindingExactly(canonical, c, h.expectedBinding, a.binding);
    hide ConfigValid, BindingOf;
    if h.durableBindings == 1 && AccessMatches(c, h.join.accessLeaseId, a, h.expectedBinding) {
      var want := c.session.value;
      assert a.session == want.(reuseAllowed := a.session.reuseAllowed, saveAllowed := a.session.saveAllowed);
    }
  }

  lemma HostExactly(c: Config, h: Host)
    ensures LaunchMatches(c, h.launch) && Joined(h.join, h.launch, RequiresAccess(c)) <==> Contained(c, h)
    ensures RequiresAccess(c) <==> NeedsAccess(c)
  {
  }

  lemma StartedExactly(c: Config, h: Host, o: Observation)
    requires c.admittedDeadline.At?
    ensures |o.steps| == |c.calls| && StartsInTime(c, o, h.access) <==> Started(c, h, o)
  {
  }

  lemma TrustedExactly(canonical: string -> bool, c: Config, i: Inventory, decoded: Option<Report>, h: Host)
    ensures Admissible(canonical, c, i, decoded, h) <==> Trusted(canonical, c, i, decoded, h)
  {
    hide Observe, InventoryValid, LaunchMatches, Joined, RequiresAccess, Contained, NeedsAccess, AccessMatches, AccessAsApproved, StartsInTime, Started;
    HostExactly(c, h);
    if ConfigValid(canonical, c) {
      if h.access.Some? { AccessExactly(canonical, c, h, h.access.value); }
      DeadlineKnown(canonical, c);
      StartedExactly(c, h, Observe(i, decoded));
    }
    hide ConfigValid;
  }

  lemma DeadlineKnown(canonical: string -> bool, c: Config)
    requires ConfigValid(canonical, c)
    ensures c.admittedDeadline.At?
  {
  }

  // ---------- The end of the trace ----------

  /** The trace ends joined and released, with no claim unsent; the reported outcomes are those
      it shows; every registration that was sent is closed; and a witnessed non-dispatch is
      in it. */
  ghost predicate Concluded(p: Plan, t: seq<Event>, o: Observation) {
    && Had(t, Join) && Had(t, SessionRelease) && !Granted(t) && |o.steps| == |p.config.calls|
    && (forall n :: 0 <= n < |p.config.calls| ==>
          && Grounded(p.config.calls, t, o.steps[n].outcome, n)
          && (p.config.calls[n].kind.Registration? && EverSent(p.config.calls, t, n) ==> EverClosed(p.config.calls, t, n)))
    && (p.host.nonDispatch.Some? ==> Had(t, NonDispatch))
  }

  /** The outcome of a leaf is the one grounded in the trace, and no other. */
  lemma OutcomeExactly(p: Plan, t: seq<Event>, s: State, o: Outcome, n: int)
    requires Sees(p, t, s) && 0 <= n < |p.config.calls|
    ensures o == s.leaves[n].outcome <==> Grounded(p.config.calls, t, o, n)
  {
    hide Orderly, PhaseSeen, LeavesSeen, SendSeen, DialogueSeen, ClaimSeen, EverSent, EverSucceeded, EverFailed, EverClosed;
    OpenLeaf(p, t, s, n);
    KnownOutcome(p, t, s, n);
  }

  lemma KnownOutcome(p: Plan, t: seq<Event>, s: State, n: int)
    requires Sees(p, t, s) && 0 <= n < |p.config.calls|
    ensures !s.leaves[n].outcome.OtherOutcome? && (s.leaves[n].outcome.NotStarted? <==> !s.leaves[n].sent)
  {
    hide PhaseSeen, LeavesSeen, SendSeen, DialogueSeen, ClaimSeen;
    OrderlyOutcome(s, n);
  }

  lemma ConcludedExactly(p: Plan, t: seq<Event>, s: State, o: Observation)
    requires Sees(p, t, s)
    ensures Proves(p, o, s) <==> Concluded(p, t, o)
  {
    hide Orderly, Phased, LeavesSeen, SendSeen, DialogueSeen, PendingIsLast, Granted, Had, Denied, LastAcquire, Grounded, EverSent, EverClosed;
    forall n | 0 <= n < |p.config.calls| && |o.steps| == |p.config.calls|
      ensures o.steps[n].outcome == s.leaves[n].outcome <==> Grounded(p.config.calls, t, o.steps[n].outcome, n)
      ensures s.leaves[n].sent <==> EverSent(p.config.calls, t, n)
      ensures s.leaves[n].closed <==> EverClosed(p.config.calls, t, n)
    {
      OutcomeExactly(p, t, s, o.steps[n].outcome, n);
      OpenLeaf(p, t, s, n);
    }
  }

  lemma Eligible(p: Plan, t: seq<Event>, s: State)
    requires Sees(p, t, s)
    ensures s.phase.nonDispatch && !s.anySent <==> Had(t, NonDispatch)
  {
    hide Orderly, LeavesSeen, SendSeen, DialogueSeen, ClaimSeen, Had, Denied, LastAcquire;
  }

  lemma ReadyToRun(canonical: string -> bool, c: Config)
    requires ConfigValid(canonical, c)
    ensures CleanCalls(c.calls) && CleanSlots(c)
  {
    hide ConfigValid;
    ValidCallsAreClean(canonical, c);
    ValidSlotsClean(canonical, c);
  }

  /** A report is accepted exactly when the host is to be trusted, every event of the trace
      obeys its rule, and the trace concludes as reported; then the observation is the
      report's, and a successor is eligible exactly when non-dispatch is in the trace. */
  lemma AcceptedExactly(canonical: string -> bool, c: Config, i: Inventory, decoded: Option<Report>, h: Host)
    ensures var o := Observe(i, decoded);
            IsAccepted(canonical, c, i, decoded, h) <==>
            Trusted(canonical, c, i, decoded, h) && Obeys(Plan(c, h), h.trace) && Concluded(Plan(c, h), h.trace, o)
    ensures IsAccepted(canonical, c, i, decoded, h) ==>
              Judge(canonical, c, i, decoded, h) == Accepted(Observe(i, decoded), Had(h.trace, NonDispatch))
  {
    hide Observe, Admissible, Trusted, Obeys, Concluded, Proves, Run, Sees, Had, UnknownObservation;
    var p, o := Plan(c, h), Observe(i, decoded);
    TrustedExactly(canonical, c, i, decoded, h);
    if Trusted(canonical, c, i, decoded, h) {
      TrustedConfig(canonical, c, i, decoded, h);
      ReadyToRun(canonical, c);
      RunConforms(p, h.trace);
      if Run(p, h.trace).Some? {
        RunSees(p, h.trace);
        ConcludedExactly(p, h.trace, Run(p, h.trace).value, o);
        Eligible(p, h.trace, Run(p, h.trace).value);
      }
    }
  }

  lemma TrustedConfig(canonical: string -> bool, c: Config, i: Inventory, decoded: Option<Report>, h: Host)
    requires Trusted(canonical, c, i, decoded, h)
    ensures ConfigValid(canonical, c)
  {
  }
}
