/** What a trace that the run checker follows must contain, and in which order. */
module RunEvidence {
  import opened Common
  import opened ReportV5
  import opened BrowserContract
  import opened RunChecker
  import opened RunSafety
  import opened RunHistory

  /** The checker follows the whole trace without refusing. */
  predicate Followed(p: Plan, t: seq<Event>) {
    CleanCalls(p.config.calls) && Run(p, t).Some?
  }

  // ---------- Flags along a story ----------

  /** The flag an event of this kind raises. */
  predicate Flag(s: State, kind: EventKind) {
    match kind
    case Launch => s.phase.launchDone
    case Join => s.phase.joinDone
    case SessionRelease => s.phase.released
    case SessionSave => s.phase.saveDone
    case Candidate => s.phase.candidate
    case GenerationRecheck => s.phase.generationCurrent
    case NonDispatch => s.phase.nonDispatch
    case Send => s.anySent
    case _ => false
  }

  predicate Raises(kind: EventKind) {
    || kind.Launch? || kind.Join? || kind.SessionRelease? || kind.SessionSave? || kind.Candidate?
    || kind.GenerationRecheck? || kind.NonDispatch? || kind.Send?
  }

  lemma FlagMoves(s: State, e: Event, r: State, kind: EventKind)
    requires FlagStep(s, e, r) && Raises(kind)
    ensures Flag(r, kind) <==> Flag(s, kind) || e.kind == kind
  {
  }

  lemma FlagTold(p: Plan, t: seq<Event>, ss: seq<State>, kind: EventKind, k: nat)
    requires Story(p, t, ss) && k < |t| && Raises(kind)
    ensures Flag(ss[k + 1], kind) <==> Flag(ss[k], kind) || t[k].kind == kind
  {
    assert Told(p, t, ss, k);
    FlagMoves(ss[k], t[k], ss[k + 1], kind);
  }

  /** A raised flag was raised by an event of its kind. */
  lemma {:induction false} FlagRaised(p: Plan, t: seq<Event>, ss: seq<State>, kind: EventKind, k: nat) returns (i: nat)
    requires Story(p, t, ss) && k <= |t| && Raises(kind) && Flag(ss[k], kind)
    ensures i < k && t[i].kind == kind
    decreases k
  {
    if k == 0 {
      assert false;
    } else {
      FlagTold(p, t, ss, kind, k - 1);
      if t[k - 1].kind == kind {
        i := k - 1;
      } else {
        i := FlagRaised(p, t, ss, kind, k - 1);
      }
    }
  }

  lemma {:induction false} FlagAfter(p: Plan, t: seq<Event>, ss: seq<State>, i: nat, k: nat)
    requires Story(p, t, ss) && i < k <= |t| && Raises(t[i].kind)
    ensures Flag(ss[k], t[i].kind)
    decreases k
  {
    FlagTold(p, t, ss, t[i].kind, k - 1);
    if i < k - 1 { FlagAfter(p, t, ss, i, k - 1); }
  }

  predicate Singular(kind: EventKind) {
    kind.Launch? || kind.Join? || kind.SessionRelease? || kind.SessionSave?
  }

  /** Launch, join, release and save happen at most once. */
  lemma HappensOnce(p: Plan, t: seq<Event>, ss: seq<State>, i: nat, k: nat)
    requires Story(p, t, ss) && i < k < |t| && Singular(t[i].kind)
    ensures t[k].kind != t[i].kind
  {
    FlagAfter(p, t, ss, i, k);
    assert Told(p, t, ss, k);
  }

  // ---------- Launch, join, release ----------

  predicate Finished(s: State) {
    s.pending == "" && s.phase.joinDone && s.phase.released
  }

  /** l launches, j joins, the last event releases; each is the only one of its kind and
      every send lies between launch and join. */
  predicate Milestones(t: seq<Event>, l: int, j: int) {
    && 0 <= l < j < |t| - 1
    && t[l].kind.Launch? && t[j].kind.Join? && t[|t| - 1].kind.SessionRelease?
    && forall k :: 0 <= k < |t| ==> Placed(t, l, j, k)
  }

  predicate Placed(t: seq<Event>, l: int, j: int, k: int)
    requires 0 <= k < |t|
  {
    && (t[k].kind.Launch? ==> k == l) && (t[k].kind.Join? ==> k == j)
    && (t[k].kind.SessionRelease? ==> k == |t| - 1) && (t[k].kind.Send? ==> l < k < j)
  }

  lemma NothingAfterRelease(p: Plan, t: seq<Event>, ss: seq<State>, k: nat)
    requires Story(p, t, ss) && k < |t|
    ensures !ss[k].phase.released
  {
    assert Told(p, t, ss, k) && Phased(ss[k]);
  }

  lemma ReleaseIsLast(p: Plan, t: seq<Event>, ss: seq<State>, r: nat)
    requires Story(p, t, ss) && r < |t| && t[r].kind.SessionRelease?
    ensures r == |t| - 1
  {
    if r + 1 < |t| {
      NothingAfterRelease(p, t, ss, r + 1);
      FlagAfter(p, t, ss, r, r + 1);
    }
  }

  lemma PlacedAt(p: Plan, t: seq<Event>, ss: seq<State>, l: nat, j: nat, k: nat)
    requires Story(p, t, ss) && l < j < |t| - 1 && k < |t|
    requires t[l].kind.Launch? && t[j].kind.Join? && t[|t| - 1].kind.SessionRelease?
    ensures Placed(t, l, j, k)
  {
    if k < l && t[k].kind.Launch? { HappensOnce(p, t, ss, k, l); }
    if l < k && t[k].kind.Launch? { HappensOnce(p, t, ss, l, k); }
    if k < j && t[k].kind.Join? { HappensOnce(p, t, ss, k, j); }
    if j < k && t[k].kind.Join? { HappensOnce(p, t, ss, j, k); }
    if t[k].kind.SessionRelease? { ReleaseIsLast(p, t, ss, k); }
    if t[k].kind.Send? {
      assert Told(p, t, ss, k);
      if j < k { FlagAfter(p, t, ss, j, k); }
      var i := FlagRaised(p, t, ss, Launch, k);
      if l < i { HappensOnce(p, t, ss, l, i); }
      if i < l { HappensOnce(p, t, ss, i, l); }
    }
  }

  lemma MilestoneOrder(p: Plan, t: seq<Event>, ss: seq<State>) returns (l: nat, j: nat)
    requires Story(p, t, ss) && ss[|t|].phase.released
    ensures l < j < |t| - 1 && t[l].kind.Launch? && t[j].kind.Join? && t[|t| - 1].kind.SessionRelease?
  {
    var r := FlagRaised(p, t, ss, SessionRelease, |t|);
    ReleaseIsLast(p, t, ss, r);
    assert Told(p, t, ss, r);
    j := FlagRaised(p, t, ss, Join, r);
    assert Told(p, t, ss, j);
    l := FlagRaised(p, t, ss, Launch, j);
  }

  lemma FinishedRunMilestones(p: Plan, t: seq<Event>) returns (l: nat, j: nat)
    requires Followed(p, t) && Finished(Run(p, t).value)
    ensures Milestones(t, l, j)
  {
    var ss := Tell(p, t);
    l, j := MilestoneOrder(p, t, ss);
    forall k | 0 <= k < |t| ensures Placed(t, l, j, k) {
      PlacedAt(p, t, ss, l, j, k);
    }
  }

  // ---------- Sends and their claims ----------

  /** Each send directly follows the claim of exactly its message. */
  lemma SendFollowsClaim(p: Plan, t: seq<Event>, k: nat)
    requires Followed(p, t) && k < |t| && t[k].kind.Send?
    ensures k > 0 && IsClaim(t[k - 1]) && SameMessage(t[k - 1], t[k])
  {
    var ss := Tell(p, t);
    assert Told(p, t, ss, k);
  }

  function Sends(t: seq<Event>): nat {
    if t == [] then 0 else Sends(t[..|t| - 1]) + (if t[|t| - 1].kind.Send? then 1 else 0)
  }

  lemma {:induction false} OrdinalCounts(p: Plan, t: seq<Event>, ss: seq<State>, k: nat)
    requires Story(p, t, ss) && k <= |t|
    ensures ss[k].ordinal == Sends(t[..k])
    decreases k
  {
    if k > 0 {
      OrdinalCounts(p, t, ss, k - 1);
      assert t[..k][..k - 1] == t[..k - 1];
      assert Told(p, t, ss, k - 1);
    }
  }

  /** The ordinals of the sends are 1, 2, 3, … */
  lemma OrdinalsAreConsecutive(p: Plan, t: seq<Event>, k: nat)
    requires Followed(p, t) && k < |t| && t[k].kind.Send?
    ensures t[k].ordinal == Sends(t[..k]) + 1
  {
    var ss := Tell(p, t);
    OrdinalCounts(p, t, ss, k);
    assert Told(p, t, ss, k);
  }

  // ---------- Leaves ----------

  predicate SucceededAt(calls: seq<Call>, t: seq<Event>, a: int, i: int) {
    0 <= a < |t| && t[a].kind.Response? && t[a].outcome.Answered? && LeafOf(calls, t[a]) == i
  }

  predicate FailedAt(calls: seq<Call>, t: seq<Event>, a: int, i: int) {
    0 <= a < |t| && t[a].kind.Response? && t[a].outcome.DefiniteFailure? && LeafOf(calls, t[a]) == i
  }

  predicate ClosedAt(calls: seq<Call>, t: seq<Event>, a: int, i: int) {
    0 <= a < |t| && t[a].kind.RegistrationContextClose? && LeafOf(calls, t[a]) == i
  }

  predicate SentAt(calls: seq<Call>, t: seq<Event>, a: int, i: int) {
    0 <= a < |t| && t[a].kind.Send? && LeafOf(calls, t[a]) == i
  }

  lemma LeafTold(p: Plan, t: seq<Event>, ss: seq<State>, k: nat, i: nat)
    requires Story(p, t, ss) && k < |t| && i < |p.config.calls|
    ensures LeafStep(p.config.calls, ss[k], t[k], ss[k + 1], i)
  {
    assert Told(p, t, ss, k);
  }

  lemma {:induction false} SuccessSource(p: Plan, t: seq<Event>, ss: seq<State>, k: nat, i: nat) returns (a: nat)
    requires Story(p, t, ss) && k <= |t| && i < |p.config.calls| && ss[k].leaves[i].outcome.Succeeded?
    ensures a < k && SucceededAt(p.config.calls, t, a, i)
    decreases k
  {
    if k == 0 {
      assert false;
    } else {
      LeafTold(p, t, ss, k - 1, i);
      if SucceededAt(p.config.calls, t, k - 1, i) {
        a := k - 1;
      } else {
        a := SuccessSource(p, t, ss, k - 1, i);
      }
    }
  }

  lemma {:induction false} FailureSource(p: Plan, t: seq<Event>, ss: seq<State>, k: nat, i: nat) returns (a: nat)
    requires Story(p, t, ss) && k <= |t| && i < |p.config.calls| && ss[k].leaves[i].outcome.Failed?
    ensures a < k && FailedAt(p.config.calls, t, a, i)
    decreases k
  {
    if k == 0 {
      assert false;
    } else {
      LeafTold(p, t, ss, k - 1, i);
      if FailedAt(p.config.calls, t, k - 1, i) {
        a := k - 1;
      } else {
        a := FailureSource(p, t, ss, k - 1, i);
      }
    }
  }

  /** A response that settles its leaf settles it for the rest of the run. */
  lemma ResponseSettles(p: Plan, t: seq<Event>, a: nat, i: nat)
    requires Followed(p, t) && a < |t| && i < |p.config.calls|
    ensures SucceededAt(p.config.calls, t, a, i) ==> Run(p, t).value.leaves[i].outcome.Succeeded?
    ensures FailedAt(p.config.calls, t, a, i) ==> Run(p, t).value.leaves[i].outcome.Failed?
  {
    var through := t[..a + 1];
    OutcomesAreFinal(p, t, a + 1);
    assert through[..a] == t[..a] && through[a] == t[a];
    var before := Run(p, t[..a]).value;
    assert Run(p, through) == Next(p, before, t[a]);
    hide Next, Run;
    LeafNext(p, before, t[a], i);
  }

  lemma {:induction false} CloseSource(p: Plan, t: seq<Event>, ss: seq<State>, k: nat, i: nat) returns (a: nat)
    requires Story(p, t, ss) && k <= |t| && i < |p.config.calls| && ss[k].leaves[i].closed
    ensures a < k && ClosedAt(p.config.calls, t, a, i) && !ss[a].phase.joinDone
    decreases k
  {
    if k == 0 {
      assert false;
    } else {
      LeafTold(p, t, ss, k - 1, i);
      if ClosedAt(p.config.calls, t, k - 1, i) {
        a := k - 1;
      } else {
        a := CloseSource(p, t, ss, k - 1, i);
      }
    }
  }

  lemma {:induction false} SendSource(p: Plan, t: seq<Event>, ss: seq<State>, k: nat, i: nat) returns (a: nat)
    requires Story(p, t, ss) && k <= |t| && i < |p.config.calls| && ss[k].leaves[i].sent
    ensures a < k && SentAt(p.config.calls, t, a, i)
    decreases k
  {
    if k == 0 {
      assert false;
    } else {
      LeafTold(p, t, ss, k - 1, i);
      if SentAt(p.config.calls, t, k - 1, i) {
        a := k - 1;
      } else {
        a := SendSource(p, t, ss, k - 1, i);
      }
    }
  }

  /** A leaf that was sent stays sent and keeps the request id of its sends. */
  lemma {:induction false} RequestKept(p: Plan, t: seq<Event>, ss: seq<State>, j: nat, k: nat, i: nat)
    requires Story(p, t, ss) && j < k <= |t| && i < |p.config.calls| && SentAt(p.config.calls, t, j, i)
    ensures ss[k].leaves[i].sent && ss[k].leaves[i].request == t[j].requestId
    decreases k
  {
    LeafTold(p, t, ss, k - 1, i);
    if j < k - 1 {
      RequestKept(p, t, ss, j, k - 1, i);
      assert Told(p, t, ss, k - 1);
    }
  }

  /** All sends of one leaf carry one request id. */
  lemma OneRequestPerLeaf(p: Plan, t: seq<Event>, j: nat, k: nat, i: nat)
    requires Followed(p, t) && i < |p.config.calls|
    requires SentAt(p.config.calls, t, j, i) && SentAt(p.config.calls, t, k, i)
    ensures t[j].requestId == t[k].requestId
  {
    var ss := Tell(p, t);
    RequestKept(p, t, ss, j, |t|, i);
    RequestKept(p, t, ss, k, |t|, i);
  }

  /** Before a leaf is sent every earlier leaf has had its successful response. */
  lemma SendsAreInOrder(p: Plan, t: seq<Event>, k: nat, i: nat) returns (a: nat)
    requires Followed(p, t) && k < |t| && t[k].kind.Send? && i < LeafOf(p.config.calls, t[k])
    ensures a < k && SucceededAt(p.config.calls, t, a, i)
  {
    var ss := Tell(p, t);
    assert Told(p, t, ss, k);
    assert Orderly(ss[k]);
    a := SuccessSource(p, t, ss, k, i);
  }

  // ---------- Questions, answers, rechecks ----------

  /** Where a dialogue was opened, answered and rechecked. */
  datatype Trail = Trail(asked: int, answered: int, rechecked: int)

  predicate AskedAt(calls: seq<Call>, t: seq<Event>, d: Dialogue, q: int) {
    && 0 <= q < |t| && t[q].kind.QuestionEvent? && LeafOf(calls, t[q]) == d.leaf
    && d.kind.Some? && t[q].outcome == Asks(d.kind.value) && t[q].question == d.question
    && forall k :: q < k < |t| ==> !t[k].kind.Send?
  }

  predicate AnsweredAt(calls: seq<Call>, t: seq<Event>, leaf: int, a: int) {
    0 <= a < |t| && AffirmativeAnswer(t[a]) && LeafOf(calls, t[a]) == leaf
  }

  predicate RecheckedAt(calls: seq<Call>, t: seq<Event>, leaf: int, r: int) {
    0 <= r < |t| && t[r].kind.AuthorityRecheck? && t[r].outcome.Current? && LeafOf(calls, t[r]) == leaf
  }

  predicate TrailOf(calls: seq<Call>, t: seq<Event>, d: Dialogue, w: Trail) {
    && (d.answered || d.rechecked ==> d.kind.Some?)
    && (d.kind.Some? ==> AskedAt(calls, t, d, w.asked))
    && (d.answered ==> w.asked < w.answered && AnsweredAt(calls, t, d.leaf, w.answered))
    && (d.answered && d.rechecked ==> w.answered < w.rechecked && RecheckedAt(calls, t, d.leaf, w.rechecked))
  }

  /** A rechecked dialogue is answered unless a denial has stopped the run. */
  predicate Settling(s: State) {
    s.dialogue.rechecked ==> s.dialogue.answered || s.stopped
  }

  /** The trail after one more event. */
  function NextTrail(s: State, e: Event, k: int, w: Trail): Trail {
    if e.kind.QuestionEvent? then w.(asked := k)
    else if AffirmativeAnswer(e) && !s.dialogue.answered then w.(answered := k)
    else if e.kind.AuthorityRecheck? && !s.dialogue.rechecked then w.(rechecked := k)
    else w
  }

  lemma TrailNext(calls: seq<Call>, t: seq<Event>, s: State, r: State, w: Trail)
    requires t != [] && TrailOf(calls, t[..|t| - 1], s.dialogue, w) && Settling(s)
    requires DialogueStep(calls, s, t[|t| - 1], r)
    ensures TrailOf(calls, t, r.dialogue, NextTrail(s, t[|t| - 1], |t| - 1, w)) && Settling(r)
  {
    var front, e := t[..|t| - 1], t[|t| - 1];
    assert forall i :: 0 <= i < |front| ==> front[i] == t[i];
    if s.dialogue.kind.Some? && !e.kind.Send? {
      assert AskedAt(calls, t, s.dialogue, w.asked);
    }
  }

  lemma DialogueTold(p: Plan, t: seq<Event>, ss: seq<State>, k: nat)
    requires Story(p, t, ss) && k < |t|
    ensures DialogueStep(p.config.calls, ss[k], t[k], ss[k + 1])
  {
    assert Told(p, t, ss, k);
  }

  lemma {:induction false} DialogueTrail(p: Plan, t: seq<Event>, ss: seq<State>, k: nat) returns (w: Trail)
    requires Story(p, t, ss) && k <= |t|
    ensures TrailOf(p.config.calls, t[..k], ss[k].dialogue, w) && Settling(ss[k])
    decreases k
  {
    if k == 0 {
      w := Trail(0, 0, 0);
    } else {
      w := DialogueTrail(p, t, ss, k - 1);
      var through := t[..k];
      assert through[..k - 1] == t[..k - 1] && through[k - 1] == t[k - 1];
      DialogueTold(p, t, ss, k - 1);
      hide Story, DialogueStep;
      TrailNext(p.config.calls, through, ss[k - 1], ss[k], w);
      w := NextTrail(ss[k - 1], t[k - 1], k - 1, w);
    }
  }

  lemma ReplyClaimed(p: Plan, t: seq<Event>, ss: seq<State>, j: nat, k: nat, leaf: nat)
    requires Story(p, t, ss) && j < k && leaf < |p.config.calls|
    requires SentAt(p.config.calls, t, j, leaf) && SentAt(p.config.calls, t, k, leaf)
    ensures IsClaim(t[k - 1]) && SameMessage(t[k - 1], t[k]) && NextClaimAllowed(p, ss[k], t[k - 1], leaf)
  {
    RequestKept(p, t, ss, j, k, leaf);
    assert Told(p, t, ss, k);
  }

  /** The message that answers a question of each kind. */
  predicate Replies(question: Word, message: string) {
    || (question in {Asks(MfaPush), Asks(MfaNumberMatch)} && message == "challenge_response")
    || (question == Asks(RegistrationInput) && message == "registration_input_response")
    || (question in {Asks(RegistrationCheckpoint), Asks(RegistrationSubmit)} && message == "registration_checkpoint_response")
  }

  /** Send k continues leaf: after the earlier send j come, in this order and all for
      that leaf, the question, a non-deny answer, a current recheck, and directly before
      the send the claim that replies to that very question, with the message of its kind;
      nothing was sent since the question. */
  predicate Continues(calls: seq<Call>, t: seq<Event>, j: int, k: int, leaf: int, w: Trail) {
    && 0 <= j < w.asked < w.answered < w.rechecked < k - 1 < |t| - 1
    && t[w.asked].kind.QuestionEvent? && LeafOf(calls, t[w.asked]) == leaf
    && AnsweredAt(calls, t, leaf, w.answered) && RecheckedAt(calls, t, leaf, w.rechecked)
    && IsClaim(t[k - 1]) && SameMessage(t[k - 1], t[k])
    && t[k - 1].outcome == t[w.asked].outcome && t[k - 1].question == t[w.asked].question
    && Replies(t[w.asked].outcome, t[k].messageKind)
    && forall i :: w.asked < i < k ==> !t[i].kind.Send?
  }

  /** The first send of a leaf carries the message of its call's kind. */
  predicate Opens(kind: CallKind, message: string) {
    || (kind.Authentication? && message == "authenticate")
    || (kind.Registration? && message == "register")
    || (kind.Action? && message == "action")
  }

  /** Before its first send nothing was sent for a leaf. */
  lemma FirstMessage(p: Plan, t: seq<Event>, k: nat, leaf: nat)
    requires Followed(p, t) && leaf < |p.config.calls| && SentAt(p.config.calls, t, k, leaf)
    requires forall j :: 0 <= j < k ==> !SentAt(p.config.calls, t, j, leaf)
    ensures Opens(p.config.calls[leaf].kind, t[k].messageKind)
  {
    var ss := Tell(p, t);
    assert Told(p, t, ss, k);
    if ss[k].leaves[leaf].sent {
      var a := SendSource(p, t, ss, k, leaf);
    }
  }

  lemma ContinuationTrail(p: Plan, t: seq<Event>, ss: seq<State>, j: nat, k: nat, leaf: nat) returns (w: Trail)
    requires Story(p, t, ss) && j < k && leaf < |p.config.calls|
    requires SentAt(p.config.calls, t, j, leaf) && SentAt(p.config.calls, t, k, leaf)
    ensures Continues(p.config.calls, t, j, k, leaf, w)
  {
    ReplyClaimed(p, t, ss, j, k, leaf);
    w := DialogueTrail(p, t, ss, k);
    var d, before := ss[k].dialogue, t[..k];
    assert forall i :: 0 <= i < k ==> before[i] == t[i];
    assert AskedAt(p.config.calls, before, d, w.asked);
    assert before[k - 1].kind.ClaimDispatch? && before[j].kind.Send?;
  }

  lemma ContinuationIsAnswered(p: Plan, t: seq<Event>, j: nat, k: nat, leaf: nat) returns (w: Trail)
    requires Followed(p, t) && j < k && leaf < |p.config.calls|
    requires SentAt(p.config.calls, t, j, leaf) && SentAt(p.config.calls, t, k, leaf)
    ensures Continues(p.config.calls, t, j, k, leaf, w)
  {
    var ss := Tell(p, t);
    w := ContinuationTrail(p, t, ss, j, k, leaf);
  }

  // ---------- Saves ----------

  lemma Gates(p: Plan, t: seq<Event>, ss: seq<State>, k: nat)
    requires Story(p, t, ss) && k < |t|
    ensures Gate(p, ss[k], t[k]) && PhaseStep(ss[k].phase, t[k], ss[k + 1].phase)
  {
    assert Told(p, t, ss, k);
  }

  /** The candidate behind a save is the candidate of the save's own leaf, since at most
      one approved call may save. */
  lemma CandidateBehind(p: Plan, t: seq<Event>, ss: seq<State>, k: nat) returns (c: nat)
    requires Story(p, t, ss) && AtMostOneSave(p.config.calls) && k < |t| && t[k].kind.SessionSave?
    ensures c < k && t[c].kind.Candidate? && LeafOf(p.config.calls, t[c]) == LeafOf(p.config.calls, t[k]) >= 0
    ensures ss[c].leaves[LeafOf(p.config.calls, t[c])].outcome.Succeeded?
  {
    Gates(p, t, ss, k);
    c := FlagRaised(p, t, ss, Candidate, k);
    Gates(p, t, ss, c);
  }

  lemma JoinBehind(p: Plan, t: seq<Event>, ss: seq<State>, c: nat, k: nat) returns (j: nat, g: nat)
    requires Story(p, t, ss) && c < k < |t| && t[c].kind.Candidate? && t[k].kind.SessionSave?
    ensures c < j < g < k && t[j].kind.Join? && t[g].kind.GenerationRecheck?
  {
    Gates(p, t, ss, k);
    Gates(p, t, ss, c);
    g := FlagRaised(p, t, ss, GenerationRecheck, k);
    Gates(p, t, ss, g);
    j := FlagRaised(p, t, ss, Join, g);
    if j < c { FlagAfter(p, t, ss, j, c); }
  }

  /** The host's permission for this save: for one use, of the session's name, binding and
      generation, and for the operation of the leaf, which may save. */
  predicate Permitted(p: Plan, e: Event, leaf: int)
    requires 0 <= leaf < |p.config.calls|
  {
    && p.config.session.Some? && p.host.savePermission.Some? && p.config.calls[leaf].saveAllowed && e.outcome.EncryptedAccepted?
    && var s, w := p.config.session.value, p.host.savePermission.value;
    && w == SavePermission(w.permissionId, s.name, s.bindingSha, s.generation, e.operationId, true, true)
    && Identifier(w.permissionId)
  }

  lemma SavePermitted(p: Plan, t: seq<Event>, ss: seq<State>, k: nat, g: nat)
    requires Story(p, t, ss) && k < |t| && t[k].kind.SessionSave? && g < |t| && t[g].kind.GenerationRecheck?
    ensures 0 <= LeafOf(p.config.calls, t[k]) && Permitted(p, t[k], LeafOf(p.config.calls, t[k]))
    ensures t[g].outcome == CurrentGeneration(p.config.session.value.generation)
  {
    Gates(p, t, ss, k);
    Gates(p, t, ss, g);
    hide Story, Identifier, PhaseStep;
  }

  /** A save is preceded, in order, by the success of its leaf, the staging of that
      leaf's candidate, the join, and a recheck of the session's generation; and the host
      permitted it. */
  lemma SaveIsPrepared(p: Plan, t: seq<Event>, k: nat) returns (a: nat, c: nat, j: nat, g: nat)
    requires Followed(p, t) && AtMostOneSave(p.config.calls) && k < |t| && t[k].kind.SessionSave?
    ensures a < c < j < g < k
    ensures var leaf := LeafOf(p.config.calls, t[k]);
            && 0 <= leaf && SucceededAt(p.config.calls, t, a, leaf)
            && t[c].kind.Candidate? && LeafOf(p.config.calls, t[c]) == leaf && Permitted(p, t[k], leaf)
    ensures t[j].kind.Join? && t[g].kind.GenerationRecheck? && t[g].outcome == CurrentGeneration(p.config.session.value.generation)
  {
    var ss := Tell(p, t);
    c := CandidateBehind(p, t, ss, k);
    a := SuccessSource(p, t, ss, c, LeafOf(p.config.calls, t[c]));
    j, g := JoinBehind(p, t, ss, c, k);
    SavePermitted(p, t, ss, k, g);
  }

  /** No save happens twice. */
  lemma SaveIsUnique(p: Plan, t: seq<Event>, i: nat, k: nat)
    requires Followed(p, t) && i < k < |t| && t[i].kind.SessionSave?
    ensures !t[k].kind.SessionSave?
  {
    var ss := Tell(p, t);
    HappensOnce(p, t, ss, i, k);
  }

  lemma {:induction false} DenialStays(p: Plan, t: seq<Event>, ss: seq<State>, d: nat, k: nat)
    requires Story(p, t, ss) && d < k <= |t| && Denies(t[d])
    ensures ss[k].phase.humanDenied
    decreases k
  {
    assert Told(p, t, ss, k - 1);
    if d < k - 1 { DenialStays(p, t, ss, d, k - 1); }
  }

  /** A run with a denial has no save, before or after it. */
  lemma DenialForbidsSave(p: Plan, t: seq<Event>, d: nat, k: nat)
    requires Followed(p, t) && d < |t| && k < |t| && Denies(t[d])
    ensures !t[k].kind.SessionSave?
  {
    var ss := Tell(p, t);
    assert Told(p, t, ss, k) && Told(p, t, ss, d);
    if t[k].kind.SessionSave? {
      if d < k {
        DenialStays(p, t, ss, d, k);
      } else {
        var j := FlagRaised(p, t, ss, Join, k);
        FlagAfter(p, t, ss, j, d);
      }
    }
  }

  predicate Lost(w: Option<Word>) {
    w == Some(Missing) || w == Some(Expired)
  }

  predicate MaySave(p: Plan) {
    p.host.access.Some? && p.host.access.value.session.saveAllowed
  }

  /** After a missing or expired acquisition the state says so until a fresh one, and
      that one requires a session without save permission. */
  lemma {:induction false} LossStays(p: Plan, t: seq<Event>, ss: seq<State>, m: nat, k: nat)
    requires Story(p, t, ss) && m < k <= |t|
    requires t[m].kind.SessionAcquire? && Lost(Some(t[m].outcome))
    ensures Lost(ss[k].phase.acquired) || !MaySave(p)
    decreases k
  {
    assert Told(p, t, ss, k - 1);
    if m < k - 1 { LossStays(p, t, ss, m, k - 1); }
  }

  lemma StoryOf(p: Plan, t: seq<Event>) returns (ss: seq<State>)
    requires Followed(p, t)
    ensures Story(p, t, ss)
  {
    ss := Tell(p, t);
  }

  lemma SaveNeeds(p: Plan, t: seq<Event>, ss: seq<State>, k: nat)
    requires Story(p, t, ss) && k < |t| && t[k].kind.SessionSave?
    ensures Flag(ss[k], Launch) && MaySave(p)
  {
    assert Phased(ss[k]);
    hide Orderly, Told;
    Gates(p, t, ss, k);
  }

  /** Acquisitions come before the launch, which a lost one prevents. */
  lemma LaunchNeeds(p: Plan, t: seq<Event>, ss: seq<State>, k: nat)
    requires Story(p, t, ss) && k < |t|
    ensures t[k].kind.SessionAcquire? ==> !Flag(ss[k], Launch)
    ensures t[k].kind.Launch? ==> !Lost(ss[k].phase.acquired)
  {
    hide Orderly, Told, Phased;
    Gates(p, t, ss, k);
  }

  /** A run with a missing or expired acquisition has no save. */
  lemma LossForbidsSave(p: Plan, t: seq<Event>, m: nat, k: nat)
    requires Followed(p, t) && m < |t| && k < |t|
    requires t[m].kind.SessionAcquire? && Lost(Some(t[m].outcome))
    ensures !t[k].kind.SessionSave?
  {
    hide Followed, Story, Run, Next, Lost, Flag;
    if t[k].kind.SessionSave? {
      var ss := StoryOf(p, t);
      SaveNeeds(p, t, ss, k);
      LaunchNeeds(p, t, ss, m);
      var l := FlagRaised(p, t, ss, Launch, k);
      LaunchNeeds(p, t, ss, l);
      if m < l {
        LossStays(p, t, ss, m, l);
      } else {
        FlagAfter(p, t, ss, l, m);
      }
    }
  }
}
