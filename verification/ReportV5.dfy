/** Execution report v5 (udonreport/v5.go) and its observation against an
    independently derived inventory (udonreport/observation_v5.go). */
module ReportV5 {
  import opened Common

  const VERSION := "udon.execution-report.v5"
  const MAX_STEPS := 256

  /** A timestamp field: the empty string, text that is not a v5 timestamp, or an
      instant in nanoseconds from Go's zero time. */
  datatype Stamp = Absent | Malformed | At(time: int)

  datatype Outcome = NotStarted | Unknown | Succeeded | Failed | OtherOutcome(text: string)

  datatype ErrorCode =
    NoError | ExecutionFailed | CheckpointFailed | Cancelled | OperationFailed | OtherError(text: string)

  datatype Status = NoStatus | Incomplete | Success | Error | OtherStatus(text: string)

  datatype Step = Step(
    stepId: string, operationId: string, invocationId: string,
    outcome: Outcome, startedAt: Stamp, finishedAt: Stamp, errorCode: ErrorCode)

  datatype Report = Report(
    version: string, runId: string, workflowId: string, workflowDigest: string,
    inventoryComplete: bool, status: Status, startedAt: Stamp, finishedAt: Stamp,
    errorCode: ErrorCode, steps: seq<Step>)

  predicate PrefixedDigest(s: string) {
    |s| == 71 && s[..7] == "sha256:" && DigestText(s[7..])
  }

  // ---------- What a valid report is ----------

  predicate HeaderOk(r: Report) {
    && r.version == VERSION && Identifier(r.runId) && Identifier(r.workflowId)
    && PrefixedDigest(r.workflowDigest) && r.inventoryComplete
    && 0 < |r.steps| <= MAX_STEPS
    && r.startedAt.At?
    && match r.status
       case Incomplete => r.finishedAt.Absent? && r.errorCode.NoError?
       case Success => r.finishedAt.At? && r.startedAt.time <= r.finishedAt.time && r.errorCode.NoError?
       case Error =>
         && r.finishedAt.At? && r.startedAt.time <= r.finishedAt.time
         && (r.errorCode.ExecutionFailed? || r.errorCode.CheckpointFailed? || r.errorCode.Cancelled?)
       case _ => false
  }

  /** The report's finish as a bound; an incomplete report has none, and neither
      has one whose finish is Go's zero time. */
  function Bound(r: Report): Option<int> {
    if r.finishedAt.At? && r.finishedAt.time != 0 then Some(r.finishedAt.time) else None
  }

  predicate StepFields(s: Step) {
    && Identifier(s.stepId) && Identifier(s.operationId) && s.invocationId == s.stepId
    && match s.outcome
       case NotStarted => s.startedAt.Absent? && s.finishedAt.Absent? && s.errorCode.NoError?
       case Unknown => s.startedAt.At? && s.finishedAt.Absent? && s.errorCode.NoError?
       case Succeeded => s.startedAt.At? && s.finishedAt.At? && s.errorCode.NoError?
       case Failed => s.startedAt.At? && s.finishedAt.At? && s.errorCode.OperationFailed?
       case OtherOutcome(_) => false
  }

  predicate UniqueIds(steps: seq<Step>) {
    forall i, j :: 0 <= i < j < |steps| ==>
      steps[i].stepId != steps[j].stepId && steps[i].operationId != steps[j].operationId
  }

  /** succeeded* (failed or unknown)? not_started* */
  predicate CausalShape(steps: seq<Step>) {
    forall i, j :: 0 <= i < j < |steps| ==> steps[i].outcome.Succeeded? || steps[j].outcome.NotStarted?
  }

  /** Every recorded instant, in report order. */
  function Instants(start: int, steps: seq<Step>): (r: seq<int>)
    ensures r != []
  {
    if steps == [] then [start]
    else
      var s := steps[|steps| - 1];
      Instants(start, steps[..|steps| - 1])
      + (if s.startedAt.At? then [s.startedAt.time] else [])
      + (if s.finishedAt.At? then [s.finishedAt.time] else [])
  }

  predicate Chain(times: seq<int>, bound: Option<int>) {
    && (forall i, j :: 0 <= i < j < |times| ==> times[i] <= times[j])
    && (bound.Some? ==> forall i :: 1 <= i < |times| ==> times[i] <= bound.value)
  }

  predicate StepsOk(r: Report, steps: seq<Step>)
    requires r.startedAt.At?
  {
    && (forall i :: 0 <= i < |steps| ==> StepFields(steps[i]))
    && UniqueIds(steps)
    && CausalShape(steps)
    && Chain(Instants(r.startedAt.time, steps), Bound(r))
    && (r.status.Success? ==> forall i :: 0 <= i < |steps| ==> steps[i].outcome.Succeeded?)
  }

  predicate ReportValid(r: Report) {
    HeaderOk(r) && StepsOk(r, r.steps)
  }

  lemma {:induction false} InstantsPrefix(start: int, steps: seq<Step>, n: nat)
    requires n <= |steps|
    ensures Instants(start, steps[..n]) <= Instants(start, steps)
    decreases |steps|
  {
    if n == |steps| {
      assert steps[..n] == steps;
    } else {
      var front := steps[..|steps| - 1];
      assert front[..n] == steps[..n];
      InstantsPrefix(start, front, n);
    }
  }

  lemma StepsOkPrefix(r: Report, steps: seq<Step>, n: nat)
    requires r.startedAt.At? && n <= |steps| && StepsOk(r, steps)
    ensures StepsOk(r, steps[..n])
  {
    InstantsPrefix(r.startedAt.time, steps, n);
  }

  function Last(start: int, steps: seq<Step>): int {
    var times := Instants(start, steps);
    times[|times| - 1]
  }

  predicate Within(a: int, bound: Option<int>) {
    bound.Some? ==> a <= bound.value
  }

  /** What one step must satisfy given the last instant and whether the sequence stopped. */
  predicate Follows(r: Report, last: int, stopped: bool, s: Step) {
    && StepFields(s)
    && (s.outcome.NotStarted? || !stopped)
    && (s.startedAt.At? ==> last <= s.startedAt.time && Within(s.startedAt.time, Bound(r)))
    && (s.finishedAt.At? ==> s.startedAt.At? && s.startedAt.time <= s.finishedAt.time && Within(s.finishedAt.time, Bound(r)))
    && (r.status.Success? ==> s.outcome.Succeeded?)
  }

  predicate AllSucceeded(steps: seq<Step>) {
    forall i :: 0 <= i < |steps| ==> steps[i].outcome.Succeeded?
  }

  predicate NewIds(steps: seq<Step>, s: Step) {
    forall i :: 0 <= i < |steps| ==> steps[i].stepId != s.stepId && steps[i].operationId != s.operationId
  }

  lemma ShapeNext(steps: seq<Step>, s: Step)
    ensures UniqueIds(steps + [s]) <==> UniqueIds(steps) && NewIds(steps, s)
    ensures CausalShape(steps + [s]) <==> CausalShape(steps) && (s.outcome.NotStarted? || AllSucceeded(steps))
  {
    var more := steps + [s];
    assert more[|steps|] == s && forall i :: 0 <= i < |steps| ==> more[i] == steps[i];
  }

  lemma ChainNext(start: int, bound: Option<int>, steps: seq<Step>, s: Step)
    requires Chain(Instants(start, steps), bound) && (s.finishedAt.At? ==> s.startedAt.At?)
    ensures Chain(Instants(start, steps + [s]), bound) <==>
              && (s.startedAt.At? ==> Last(start, steps) <= s.startedAt.time && Within(s.startedAt.time, bound))
              && (s.finishedAt.At? ==> s.startedAt.time <= s.finishedAt.time && Within(s.finishedAt.time, bound))
  {
    var before, after := Instants(start, steps), Instants(start, steps + [s]);
    assert (steps + [s])[..|steps|] == steps;
    assert after == before + (if s.startedAt.At? then [s.startedAt.time] else []) + (if s.finishedAt.At? then [s.finishedAt.time] else []);
    hide Instants;
    if s.startedAt.At? {
      var started := before + [s.startedAt.time];
      LongerChain(before, s.startedAt.time, bound);
      if s.finishedAt.At? {
        LongerChain(started, s.finishedAt.time, bound);
        assert after == started + [s.finishedAt.time];
      } else {
        assert after == started;
      }
    } else {
      assert after == before;
    }
    hide Chain;
  }

  lemma LongerChain(times: seq<int>, t: int, bound: Option<int>)
    requires times != []
    ensures Chain(times + [t], bound) <==> Chain(times, bound) && times[|times| - 1] <= t && Within(t, bound)
  {
    var more := times + [t];
    assert more[|times|] == t && forall i :: 0 <= i < |times| ==> more[i] == times[i];
    if Chain(more, bound) { assert more[|times| - 1] <= more[|times|]; }
  }

  /** One more step keeps a good prefix good exactly when it has new identities and
      follows the last instant and the stop flag. */
  lemma StepsOkNext(r: Report, steps: seq<Step>, s: Step)
    requires r.startedAt.At? && StepsOk(r, steps)
    ensures StepsOk(r, steps + [s]) <==>
              NewIds(steps, s) && Follows(r, Last(r.startedAt.time, steps), !AllSucceeded(steps), s)
  {
    var more := steps + [s];
    assert more[|steps|] == s && forall i :: 0 <= i < |steps| ==> more[i] == steps[i];
    ShapeNext(steps, s);
    assert StepFields(s) ==> (s.finishedAt.At? ==> s.startedAt.At?);
    if StepFields(s) { ChainNext(r.startedAt.time, Bound(r), steps, s); }
    hide StepFields, UniqueIds, CausalShape, Chain, Instants, Last, Within, NewIds, AllSucceeded, Bound;
  }

  function StepIds(steps: seq<Step>): set<string> {
    set i | 0 <= i < |steps| :: steps[i].stepId
  }

  function OperationIds(steps: seq<Step>): set<string> {
    set i | 0 <= i < |steps| :: steps[i].operationId
  }

  /** What reading step n adds to every accumulator of the loop. */
  lemma Extend(r: Report, n: nat)
    requires r.startedAt.At? && n < |r.steps| && StepsOk(r, r.steps[..n])
    ensures var s, before, through := r.steps[n], r.steps[..n], r.steps[..n + 1];
            && (StepsOk(r, through) <==>
                  && s.stepId !in StepIds(before) && s.operationId !in OperationIds(before)
                  && Follows(r, Last(r.startedAt.time, before), !AllSucceeded(before), s))
            && (StepsOk(r, r.steps) ==> StepsOk(r, through))
            && Last(r.startedAt.time, through)
                 == Later(Last(r.startedAt.time, before), s)
            && AllSucceeded(through) == (AllSucceeded(before) && s.outcome.Succeeded?)
            && StepIds(through) == StepIds(before) + {s.stepId}
            && OperationIds(through) == OperationIds(before) + {s.operationId}
  {
    var s, before, through := r.steps[n], r.steps[..n], r.steps[..n + 1];
    assert before + [s] == through;
    hide StepsOk, Follows;
    StepsOkNext(r, before, s);
    if StepsOk(r, r.steps) { StepsOkPrefix(r, r.steps, n + 1); }
    hide NewIds, StepIds, OperationIds, Last, AllSucceeded;
    MoreSteps(r.startedAt.time, before, s);
  }

  lemma MoreSteps(start: int, before: seq<Step>, s: Step)
    ensures var through := before + [s];
            && (NewIds(before, s) <==> s.stepId !in StepIds(before) && s.operationId !in OperationIds(before))
            && Last(start, through) == Later(Last(start, before), s)
            && AllSucceeded(through) == (AllSucceeded(before) && s.outcome.Succeeded?)
            && StepIds(through) == StepIds(before) + {s.stepId}
            && OperationIds(through) == OperationIds(before) + {s.operationId}
  {
    var through := before + [s];
    assert through[..|before|] == before && through[|before|] == s;
    assert forall i :: 0 <= i < |before| ==> through[i] == before[i];
  }

  function Later(last: int, s: Step): int {
    if s.finishedAt.At? then s.finishedAt.time else if s.startedAt.At? then s.startedAt.time else last
  }

  predicate IdsOk(s: Step) {
    Identifier(s.stepId) && Identifier(s.operationId) && s.invocationId == s.stepId
  }

  /** The tests Validate makes of one step's outcome, in its order. */
  method CheckOutcome(r: Report, s: Step, last: int, stopped: bool) returns (ok: bool, now: int, stop: bool)
    requires IdsOk(s)
    ensures ok <==> Follows(r, last, stopped, s)
    ensures ok ==> now == Later(last, s) && stop == (stopped || !s.outcome.Succeeded?)
  {
    ok, now, stop := false, last, stopped;
    if s.outcome.NotStarted? {
      if !s.startedAt.Absent? || !s.finishedAt.Absent? || !s.errorCode.NoError? { return; }
      stop := true;
    } else {
      if stopped { return; }
      if !s.startedAt.At? || s.startedAt.time < now || !Within(s.startedAt.time, Bound(r)) { return; }
      now := s.startedAt.time;
      if s.outcome.Unknown? {
        if !s.finishedAt.Absent? || !s.errorCode.NoError? { return; }
        stop := true;
      } else if s.outcome.Succeeded? || s.outcome.Failed? {
        if !s.finishedAt.At? || s.finishedAt.time < now || !Within(s.finishedAt.time, Bound(r)) { return; }
        now := s.finishedAt.time;
        if s.outcome.Succeeded? && !s.errorCode.NoError? { return; }
        if s.outcome.Failed? {
          if !s.errorCode.OperationFailed? { return; }
          stop := true;
        }
      } else {
        return;
      }
    }
    if r.status.Success? && !s.outcome.Succeeded? { return; }
    ok := true;
  }

  method Validate(r: Report) returns (ok: bool)
    ensures ok <==> ReportValid(r)
  {
    if !HeaderOk(r) { return false; }
    var seenSteps, seenOperations: set<string> := {}, {};
    var previous, stopped := r.startedAt.time, false;
    for n := 0 to |r.steps|
      invariant StepsOk(r, r.steps[..n])
      invariant seenSteps == StepIds(r.steps[..n])
      invariant seenOperations == OperationIds(r.steps[..n])
      invariant stopped == !AllSucceeded(r.steps[..n])
      invariant previous == Last(r.startedAt.time, r.steps[..n])
    {
      var s := r.steps[n];
      Extend(r, n);
      if !IdsOk(s) || s.stepId in seenSteps || s.operationId in seenOperations { return false; }
      seenSteps, seenOperations := seenSteps + {s.stepId}, seenOperations + {s.operationId};
      var ok;
      ok, previous, stopped := CheckOutcome(r, s, previous, stopped);
      if !ok { return false; }
    }
    assert r.steps[..|r.steps|] == r.steps;
    return true;
  }

  /** The outcomes of a valid report split as succeeded^k, at most one failed or
      unknown, and not_started for the rest. */
  lemma OutcomeShape(r: Report) returns (k: nat)
    requires ReportValid(r)
    ensures k <= |r.steps|
    ensures forall i :: 0 <= i < k ==> r.steps[i].outcome.Succeeded?
    ensures k < |r.steps| ==> r.steps[k].outcome in {Failed, Unknown, NotStarted}
    ensures forall i :: k < i < |r.steps| ==> r.steps[i].outcome.NotStarted?
  {
    k := 0;
    while k < |r.steps| && r.steps[k].outcome.Succeeded?
      invariant 0 <= k <= |r.steps|
      invariant forall i :: 0 <= i < k ==> r.steps[i].outcome.Succeeded?
    {
      k := k + 1;
    }
    assert k < |r.steps| ==> StepFields(r.steps[k]);
  }

  /** A finish equal to the zero time bounds nothing: such a report is valid with a
      step that runs after it. */
  lemma ZeroFinishIsNoBound(id: string, digest: string)
    requires Identifier(id) && PrefixedDigest(digest)
    ensures ReportValid(Report(VERSION, id, id, digest, true, Success, At(-5), At(0), NoError,
                               [Step(id, id, id, Succeeded, At(7), At(9), NoError)]))
  {
    var s := Step(id, id, id, Succeeded, At(7), At(9), NoError);
    var r := Report(VERSION, id, id, digest, true, Success, At(-5), At(0), NoError, [s]);
    assert [s][..0] == [];
    assert Instants(-5, [s]) == [-5, 7, 9];
  }

  // ---------- Inventory and observation ----------

  datatype Inventory = Inventory(runId: string, workflowId: string, workflowDigest: string, steps: seq<Step>)

  datatype ObservedState = Validated | DryRun | MissingReport | Invalid | Mismatched | OtherState(text: string)

  datatype Observation = Observation(
    reportVersion: string, runId: string, workflowId: string, workflowDigest: string,
    state: ObservedState, inventoryComplete: bool, reportStatus: Status,
    startedAt: Stamp, finishedAt: Stamp, errorCode: ErrorCode, steps: seq<Step>)

  /** 2000-01-01T00:00:00Z in nanoseconds from the zero time. */
  const MILLENNIUM := 63_082_281_600 * 1_000_000_000

  /** The inventory read as an incomplete report that starts at a fixed instant. */
  function AsIncomplete(i: Inventory): Report {
    Report(VERSION, i.runId, i.workflowId, i.workflowDigest, true, Incomplete, At(MILLENNIUM), Absent, NoError, i.steps)
  }

  predicate InventoryValid(i: Inventory) {
    && (forall n :: 0 <= n < |i.steps| ==> i.steps[n].outcome.NotStarted?)
    && ReportValid(AsIncomplete(i))
  }

  predicate SameInvocation(a: Step, b: Step) {
    a.stepId == b.stepId && a.operationId == b.operationId && a.invocationId == b.invocationId
  }

  function UnknownObservation(i: Inventory, state: ObservedState): Observation {
    Observation(VERSION, i.runId, i.workflowId, i.workflowDigest, state, false, NoStatus, Absent, Absent, NoError,
                seq(|i.steps|, n requires 0 <= n < |i.steps| => i.steps[n].(outcome := Unknown)))
  }

  function InventoryOf(o: Observation): Inventory {
    Inventory(o.runId, o.workflowId, o.workflowDigest,
              seq(|o.steps|, n requires 0 <= n < |o.steps| =>
                Step(o.steps[n].stepId, o.steps[n].operationId, o.steps[n].invocationId, NotStarted, Absent, Absent, NoError)))
  }

  predicate Matches(r: Report, i: Inventory) {
    && r.runId == i.runId && r.workflowId == i.workflowId && r.workflowDigest == i.workflowDigest
    && |r.steps| == |i.steps|
    && forall n :: 0 <= n < |i.steps| ==> SameInvocation(r.steps[n], i.steps[n])
  }

  /** `decoded` is what strict JSON decoding makes of the bytes, before semantic
      validation; None when the bytes are not the closed v5 wire. */
  function Observe(i: Inventory, decoded: Option<Report>): Observation {
    if !InventoryValid(i) || decoded.None? || !ReportValid(decoded.value) then UnknownObservation(i, Invalid)
    else if !Matches(decoded.value, i) then UnknownObservation(i, Mismatched)
    else
      var r := decoded.value;
      Observation(VERSION, i.runId, i.workflowId, i.workflowDigest, Validated, true,
                  r.status, r.startedAt, r.finishedAt, r.errorCode, r.steps)
  }

  function AsReport(o: Observation): Report {
    Report(VERSION, o.runId, o.workflowId, o.workflowDigest, true, o.reportStatus, o.startedAt, o.finishedAt, o.errorCode, o.steps)
  }

  predicate ObservationValid(o: Observation) {
    && o.reportVersion == VERSION
    && InventoryValid(InventoryOf(o))
    && if o.state.Validated? then o.inventoryComplete && ReportValid(AsReport(o))
       else !o.state.OtherState? && o == UnknownObservation(InventoryOf(o), o.state)
  }

  /** For a valid inventory and whatever bytes, the observation validates and
      carries exactly that inventory; it is `validated` only for a valid report of it. */
  lemma ObservationFaithful(i: Inventory, decoded: Option<Report>)
    requires InventoryValid(i)
    ensures var o := Observe(i, decoded);
            && ObservationValid(o) && InventoryOf(o) == i
            && (o.state.Validated? <==> decoded.Some? && ReportValid(decoded.value) && Matches(decoded.value, i))
            && (o.state.Validated? ==> AsReport(o) == decoded.value)
  {
    var o := Observe(i, decoded);
    forall n | 0 <= n < |i.steps| ensures InventoryOf(o).steps[n] == i.steps[n] {
      assert StepFields(i.steps[n]);
    }
    assert InventoryOf(o).steps == i.steps;
  }

  /** Outcomes a validator could read nothing from: an uncertain observation never
      reports a step as succeeded, failed or not started. */
  method MakeUnknown(i: Inventory, state: ObservedState) returns (o: Observation)
    ensures o == UnknownObservation(i, state)
  {
    var steps := i.steps;
    for n := 0 to |steps|
      invariant |steps| == |i.steps|
      invariant forall k :: 0 <= k < n ==> steps[k] == i.steps[k].(outcome := Unknown)
      invariant forall k :: n <= k < |steps| ==> steps[k] == i.steps[k]
    {
      steps := steps[n := steps[n].(outcome := Unknown)];
    }
    o := Observation(VERSION, i.runId, i.workflowId, i.workflowDigest, state, false, NoStatus, Absent, Absent, NoError, steps);
  }

  method ReadInventory(o: Observation) returns (i: Inventory)
    ensures i == InventoryOf(o)
  {
    var steps: seq<Step> := [];
    for n := 0 to |o.steps|
      invariant |steps| == n
      invariant forall k :: 0 <= k < n ==>
        steps[k] == Step(o.steps[k].stepId, o.steps[k].operationId, o.steps[k].invocationId, NotStarted, Absent, Absent, NoError)
    {
      var s := o.steps[n];
      steps := steps + [Step(s.stepId, s.operationId, s.invocationId, NotStarted, Absent, Absent, NoError)];
    }
    i := Inventory(o.runId, o.workflowId, o.workflowDigest, steps);
  }

  method ValidateInventory(i: Inventory) returns (ok: bool)
    ensures ok <==> InventoryValid(i)
  {
    hide ReportValid;
    for n := 0 to |i.steps|
      invariant forall k :: 0 <= k < n ==> i.steps[k].outcome.NotStarted?
    {
      if !i.steps[n].outcome.NotStarted? { return false; }
    }
    ok := Validate(AsIncomplete(i));
  }

  /** ObserveV5. */
  method ObserveReport(i: Inventory, decoded: Option<Report>) returns (o: Observation)
    ensures o == Observe(i, decoded)
  {
    hide InventoryValid, ReportValid, UnknownObservation;
    var ok := ValidateInventory(i);
    if !ok || decoded.None? { o := MakeUnknown(i, Invalid); return; }
    var r := decoded.value;
    ok := Validate(r);
    if !ok { o := MakeUnknown(i, Invalid); return; }
    if r.runId != i.runId || r.workflowId != i.workflowId || r.workflowDigest != i.workflowDigest || |r.steps| != |i.steps| {
      o := MakeUnknown(i, Mismatched);
      return;
    }
    for n := 0 to |r.steps|
      invariant forall k :: 0 <= k < n ==> SameInvocation(r.steps[k], i.steps[k])
    {
      if !SameInvocation(r.steps[n], i.steps[n]) { o := MakeUnknown(i, Mismatched); return; }
    }
    o := Observation(VERSION, i.runId, i.workflowId, i.workflowDigest, Validated, true, r.status, r.startedAt, r.finishedAt, r.errorCode, r.steps);
  }
}
