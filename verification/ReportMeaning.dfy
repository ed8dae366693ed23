/** Which reports are valid and what an observation says, written out in one piece
    (udonreport/v5.go and observation_v5.go). */
module ReportMeaning {
  import opened Common
  import opened ReportV5

  // ---------- Times ----------

  /** A started step does not start before the report or before an earlier step's start or
      finish, does not finish before it starts, and does not lie past the bound. */
  predicate TimelyAfter(start: int, bound: Option<int>, earlier: seq<Step>, s: Step) {
    s.startedAt.At? ==>
      && start <= s.startedAt.time && Within(s.startedAt.time, bound)
      && (s.finishedAt.At? ==> s.startedAt.time <= s.finishedAt.time && Within(s.finishedAt.time, bound))
      && forall i :: 0 <= i < |earlier| && earlier[i].startedAt.At? ==>
           && earlier[i].startedAt.time <= s.startedAt.time
           && (earlier[i].finishedAt.At? ==> earlier[i].finishedAt.time <= s.startedAt.time)
  }

  predicate Timely(start: int, bound: Option<int>, steps: seq<Step>) {
    forall j :: 0 <= j < |steps| ==> TimelyAfter(start, bound, steps[..j], steps[j])
  }

  predicate FinishedWereStarted(steps: seq<Step>) {
    forall i :: 0 <= i < |steps| && steps[i].finishedAt.At? ==> steps[i].startedAt.At?
  }

  /** The last instant is one of them, and the greatest. */
  lemma {:induction false} LastIsGreatest(start: int, steps: seq<Step>)
    requires Chain(Instants(start, steps), None) && FinishedWereStarted(steps)
    ensures start <= Last(start, steps)
    ensures forall i :: 0 <= i < |steps| && steps[i].startedAt.At? ==>
              steps[i].startedAt.time <= Last(start, steps) && (steps[i].finishedAt.At? ==> steps[i].finishedAt.time <= Last(start, steps))
    ensures Last(start, steps) == start
            || (exists i :: 0 <= i < |steps| && steps[i].startedAt.At?
                            && Last(start, steps) == if steps[i].finishedAt.At? then steps[i].finishedAt.time else steps[i].startedAt.time)
  {
    if steps != [] {
      var front, s := steps[..|steps| - 1], steps[|steps| - 1];
      assert front + [s] == steps;
      ChainStarts(start, None, front, s);
      ChainNext(start, None, front, s);
      MoreSteps(start, front, s);
      LastIsGreatest(start, front);
      hide Chain, Instants, Last;
      assert forall i :: 0 <= i < |front| ==> front[i] == steps[i];
    }
  }

  lemma ChainStarts(start: int, bound: Option<int>, front: seq<Step>, s: Step)
    requires Chain(Instants(start, front + [s]), bound)
    ensures Chain(Instants(start, front), bound)
  {
    assert (front + [s])[..|front|] == front;
    InstantsPrefix(start, front + [s], |front|);
  }

  lemma Unbounded(times: seq<int>, bound: Option<int>)
    requires Chain(times, bound)
    ensures Chain(times, None)
  {
  }

  lemma TimelyNext(start: int, bound: Option<int>, front: seq<Step>, s: Step)
    ensures Timely(start, bound, front + [s]) <==> Timely(start, bound, front) && TimelyAfter(start, bound, front, s)
  {
    hide TimelyAfter;
    var steps := front + [s];
    assert steps[..|front|] == front && steps[|front|] == s;
    assert forall j :: 0 <= j < |front| ==> steps[..j] == front[..j] && steps[j] == front[j];
  }

  lemma LastDecides(start: int, bound: Option<int>, front: seq<Step>, s: Step)
    requires Chain(Instants(start, front), None) && FinishedWereStarted(front) && (s.finishedAt.At? ==> s.startedAt.At?)
    ensures TimelyAfter(start, bound, front, s) <==>
              && (s.startedAt.At? ==> Last(start, front) <= s.startedAt.time && Within(s.startedAt.time, bound))
              && (s.finishedAt.At? ==> s.startedAt.time <= s.finishedAt.time && Within(s.finishedAt.time, bound))
  {
    LastIsGreatest(start, front);
    hide Last, Chain, Instants, Within;
  }

  /** The chain of instants says the same. */
  lemma {:induction false} ChainIsTimely(start: int, bound: Option<int>, steps: seq<Step>)
    requires FinishedWereStarted(steps)
    ensures Chain(Instants(start, steps), bound) <==> Timely(start, bound, steps)
  {
    if steps != [] {
      var front, s := steps[..|steps| - 1], steps[|steps| - 1];
      assert front + [s] == steps && forall i :: 0 <= i < |front| ==> front[i] == steps[i];
      hide Chain, Instants, Last, Timely, TimelyAfter, Within;
      ChainIsTimely(start, bound, front);
      TimelyNext(start, bound, front, s);
      if Chain(Instants(start, steps), bound) { ChainStarts(start, bound, front, s); }
      if Chain(Instants(start, front), bound) {
        ChainNext(start, bound, front, s);
        Unbounded(Instants(start, front), bound);
        LastDecides(start, bound, front, s);
      }
    }
  }

  // ---------- Reports ----------

  /** The fields each outcome has. */
  predicate Row(s: Step) {
    && Identifier(s.stepId) && Identifier(s.operationId) && s.invocationId == s.stepId
    && (|| (s.outcome == NotStarted && s.startedAt == Absent && s.finishedAt == Absent && s.errorCode == NoError)
        || (s.outcome == Unknown && s.startedAt.At? && s.finishedAt == Absent && s.errorCode == NoError)
        || (s.outcome == Succeeded && s.startedAt.At? && s.finishedAt.At? && s.errorCode == NoError)
        || (s.outcome == Failed && s.startedAt.At? && s.finishedAt.At? && s.errorCode == OperationFailed))
  }

  /** Successes, then at most one failed or unknown step, then steps not started. */
  predicate Split(steps: seq<Step>, k: int) {
    && 0 <= k <= |steps| && (forall i :: 0 <= i < k ==> steps[i].outcome == Succeeded)
    && (k < |steps| ==> steps[k].outcome != Succeeded) && forall i :: k < i < |steps| ==> steps[i].outcome == NotStarted
  }

  lemma ShapeIsSplit(steps: seq<Step>)
    ensures CausalShape(steps) <==> exists k :: Split(steps, k)
  {
    var k := 0;
    while k < |steps| && steps[k].outcome.Succeeded?
      invariant 0 <= k <= |steps| && forall i :: 0 <= i < k ==> steps[i].outcome.Succeeded?
    {
      k := k + 1;
    }
    if CausalShape(steps) { assert Split(steps, k); }
  }

  /** The terminal fields of each status. */
  predicate Ending(r: Report) {
    || (r.status == Incomplete && r.finishedAt == Absent && r.errorCode == NoError)
    || (r.status == Success && r.finishedAt.At? && r.startedAt.At? && r.startedAt.time <= r.finishedAt.time && r.errorCode == NoError)
    || (r.status == Error && r.finishedAt.At? && r.startedAt.At? && r.startedAt.time <= r.finishedAt.time
        && r.errorCode in {ExecutionFailed, CheckpointFailed, Cancelled})
  }

  /** Exactly these reports are valid; a finish at the zero time is no bound. */
  lemma ReportExactly(r: Report)
    ensures ReportValid(r) <==>
            && r.version == "udon.execution-report.v5" && Identifier(r.runId) && Identifier(r.workflowId) && PrefixedDigest(r.workflowDigest)
            && r.inventoryComplete && 1 <= |r.steps| <= 256 && r.startedAt.At? && Ending(r)
            && (forall i :: 0 <= i < |r.steps| ==> Row(r.steps[i]))
            && (forall i, j :: 0 <= i < j < |r.steps| ==> r.steps[i].stepId != r.steps[j].stepId && r.steps[i].operationId != r.steps[j].operationId)
            && (exists k :: Split(r.steps, k))
            && Timely(r.startedAt.time, if r.finishedAt.At? && r.finishedAt.time != 0 then Some(r.finishedAt.time) else None, r.steps)
            && (r.status == Success ==> forall i :: 0 <= i < |r.steps| ==> r.steps[i].outcome == Succeeded)
  {
    HeaderExactly(r);
    RowsExactly(r.steps);
    ShapeIsSplit(r.steps);
    if forall i :: 0 <= i < |r.steps| ==> Row(r.steps[i]) {
      RowsFinish(r.steps);
      if r.startedAt.At? { ChainIsTimely(r.startedAt.time, Bound(r), r.steps); }
    }
    hide HeaderOk, Identifier, PrefixedDigest, CausalShape, Split, Chain, Timely, Instants, Row, StepFields, Ending;
  }

  lemma HeaderExactly(r: Report)
    ensures HeaderOk(r) <==>
            && r.version == "udon.execution-report.v5" && Identifier(r.runId) && Identifier(r.workflowId) && PrefixedDigest(r.workflowDigest)
            && r.inventoryComplete && 1 <= |r.steps| <= 256 && r.startedAt.At? && Ending(r)
  {
    hide Identifier, PrefixedDigest;
  }

  lemma RowsExactly(steps: seq<Step>)
    ensures forall i :: 0 <= i < |steps| ==> (StepFields(steps[i]) <==> Row(steps[i]))
  {
    hide Identifier;
  }

  lemma RowsFinish(steps: seq<Step>)
    requires forall i :: 0 <= i < |steps| ==> Row(steps[i])
    ensures FinishedWereStarted(steps)
  {
    hide Identifier;
  }

  // ---------- Observations ----------

  predicate SameInvocations(r: Report, i: Inventory) {
    && r.runId == i.runId && r.workflowId == i.workflowId && r.workflowDigest == i.workflowDigest && |r.steps| == |i.steps|
    && forall n :: 0 <= n < |i.steps| ==>
         && r.steps[n].stepId == i.steps[n].stepId && r.steps[n].operationId == i.steps[n].operationId
         && r.steps[n].invocationId == i.steps[n].invocationId
  }

  /** Of a valid inventory, bytes that are no valid report are observed as invalid, a valid report
      of other invocations as mismatched, and only a valid report of these as validated. An
      uncertain observation keeps no field of the report and calls every step unknown. */
  lemma ObservedState(i: Inventory, decoded: Option<Report>)
    requires InventoryValid(i)
    ensures var o := Observe(i, decoded);
            && (o.state == Invalid <==> decoded.None? || !ReportValid(decoded.value))
            && (o.state == Mismatched <==> decoded.Some? && ReportValid(decoded.value) && !SameInvocations(decoded.value, i))
            && (o.state == Validated <==> decoded.Some? && ReportValid(decoded.value) && SameInvocations(decoded.value, i))
            && (o.state != Validated ==>
                  && !o.inventoryComplete && o.reportStatus == NoStatus && o.startedAt == Absent && o.finishedAt == Absent && o.errorCode == NoError
                  && |o.steps| == |i.steps|
                  && forall n :: 0 <= n < |i.steps| ==>
                       && o.steps[n].outcome == Unknown && o.steps[n].startedAt == Absent && o.steps[n].finishedAt == Absent
                       && o.steps[n].stepId == i.steps[n].stepId && o.steps[n].operationId == i.steps[n].operationId)
            && (o.state == Validated ==>
                  && o.inventoryComplete && o.reportStatus == decoded.value.status && o.startedAt == decoded.value.startedAt
                  && o.finishedAt == decoded.value.finishedAt && o.errorCode == decoded.value.errorCode && o.steps == decoded.value.steps)
  {
    hide ReportValid;
    InventoryRows(i);
  }

  lemma InventoryRows(i: Inventory)
    requires InventoryValid(i)
    ensures forall n :: 0 <= n < |i.steps| ==>
              i.steps[n].outcome == NotStarted && i.steps[n].startedAt == Absent && i.steps[n].finishedAt == Absent && i.steps[n].errorCode == NoError
  {
    hide Identifier, PrefixedDigest;
    ReportExactly(AsIncomplete(i));
  }

  /** An inventory is valid exactly when it would be as an incomplete report whose steps have
      not started. */
  lemma InventoryExactly(i: Inventory)
    ensures InventoryValid(i) <==>
            && Identifier(i.runId) && Identifier(i.workflowId) && PrefixedDigest(i.workflowDigest) && 1 <= |i.steps| <= 256
            && (forall n :: 0 <= n < |i.steps| ==> Row(i.steps[n]) && i.steps[n].outcome == NotStarted)
            && forall a, b :: 0 <= a < b < |i.steps| ==> i.steps[a].stepId != i.steps[b].stepId && i.steps[a].operationId != i.steps[b].operationId
  {
    var r := AsIncomplete(i);
    hide Identifier, PrefixedDigest;
    ReportExactly(r);
    if forall n :: 0 <= n < |i.steps| ==> Row(i.steps[n]) && i.steps[n].outcome == NotStarted {
      assert Split(r.steps, 0);
      assert Timely(MILLENNIUM, None, r.steps);
    }
    hide ReportValid, Row, Split, Timely;
  }

  // ---------- Examples ----------

  lemma DigestEdges(n: nat, c: char)
    ensures PrefixedDigest("sha256:" + seq(n, _ => c)) <==> n == 64 && ('0' <= c <= '9' || 'a' <= c <= 'f')
    ensures !PrefixedDigest("sha512:" + seq(n, _ => c))
  {
    var s := "sha256:" + seq(n, _ => c);
    if |s| == 71 {
      assert s[7..] == seq(n, _ => c) && s[7..][0] == c;
      assert s[..7] == "sha256:";
    }
    assert ("sha512:" + seq(n, _ => c))[3] == '5' && "sha256:"[3] == '2';
    assert ("sha512:" + seq(n, _ => c))[..7] == "sha512:";
  }
}
