/** Every plan of one registration has a run: private input, one question of any kind a
    registration may ask, its answer, a recheck, the reply, success, and the close of the
    registration's context before the join (runevidence/browser.go). */
module RegistrationRun {
  import opened Common
  import opened Text
  import opened ReportV5
  import opened BrowserContract
  import opened RunChecker
  import opened RunSafety
  import opened RunEvidence
  import opened RunWitness

  predicate Registers(p: Plan) {
    |p.config.calls| == 1 && p.config.calls[0].kind.Registration? && p.host.access.None?
  }

  /** A plan of one registration, with its credentials leased if it has any. */
  predicate OneRegistration(p: Plan) {
    && Registers(p)
    && (p.config.revisions == [] || CredentialLeaseMatches(p.config, p.host.credentials))
  }

  /** The lease comes first. */
  function Prelude(p: Plan): seq<Event>
    requires OneRegistration(p)
  {
    if p.config.revisions == [] then [] else [EventOf(p, CredentialLease, WholePlanPrivate, 1, "register", None)]
  }

  predicate Asked(q: QuestionKind) {
    q in {RegistrationInput, RegistrationCheckpoint, RegistrationSubmit}
  }

  /** Private input answers a request for input; the other two are continued. */
  function AnswerOf(p: Plan, q: QuestionKind): Event
    requires Registers(p)
  {
    if q == RegistrationInput then EventOf(p, RegistrationInputEvent, CheckpointPrivate, 1, "register", Some(Prompt()))
    else EventOf(p, Interact, Continue, 1, "register", Some(Prompt()))
  }

  function ReplyOf(q: QuestionKind): string {
    if q == RegistrationInput then "registration_input_response" else "registration_checkpoint_response"
  }

  /** Event k: private input, launched, claimed, sent; asked, answered, rechecked; claimed and
      sent again, succeeded; its context closed, joined, released. */
  function EventAt(p: Plan, q: QuestionKind, k: nat): Event
    requires Registers(p) && Asked(q) && k < 13
  {
    match k
    case 0 => EventOf(p, RegistrationInputEvent, InitialPrivate, 1, "register", None)
    case 1 => EventOf(p, Launch, Contained, 1, "register", None)
    case 2 => EventOf(p, ClaimDispatch, Leaf(Registration), 1, "register", None)
    case 3 => EventOf(p, Send, Leaf(Registration), 1, "register", None)
    case 4 => EventOf(p, QuestionEvent, Asks(q), 1, "register", Some(Prompt()))
    case 5 => AnswerOf(p, q)
    case 6 => EventOf(p, AuthorityRecheck, Current, 1, "register", Some(Prompt()))
    case 7 => EventOf(p, ClaimDispatch, Asks(q), 2, ReplyOf(q), Some(Prompt()))
    case 8 => EventOf(p, Send, Asks(q), 2, ReplyOf(q), Some(Prompt()))
    case 9 => EventOf(p, Response, Answered, 2, ReplyOf(q), None)
    case 10 => EventOf(p, RegistrationContextClose, Proved, 2, ReplyOf(q), None)
    case 11 => EventOf(p, Join, Proved, 2, ReplyOf(q), None)
    case 12 => EventOf(p, SessionRelease, Proved, 2, ReplyOf(q), None)
  }

  function RegistrationTrace(p: Plan, q: QuestionKind): (t: seq<Event>)
    requires Registers(p) && Asked(q)
    ensures |t| == 13 && forall k :: 0 <= k < 13 ==> t[k] == EventAt(p, q, k)
  {
    seq(13, k requires 0 <= k < 13 => EventAt(p, q, k))
  }

  function KeyAt(p: Plan, ordinal: nat, message: string): string
    requires |p.config.calls| == 1
  {
    TraceKey(EventOf(p, Send, Answered, ordinal, message, None))
  }

  function LeafAt(p: Plan, q: QuestionKind, k: nat): LeafState
    requires |p.config.calls| == 1
  {
    if k <= 3 then FRESH_LEAF
    else if k <= 8 then LeafState(Unknown, false, true, "request", KeyAt(p, 1, "register"), false)
    else if k == 9 then LeafState(Unknown, false, true, "request", KeyAt(p, 2, ReplyOf(q)), false)
    else LeafState(Succeeded, true, true, "request", KeyAt(p, 2, ReplyOf(q)), 11 <= k)
  }

  function DialogueAt(q: QuestionKind, k: nat): Dialogue {
    if 5 <= k <= 8 then Dialogue(Some(Prompt()), Some(q), 0, 6 <= k, 7 <= k) else NO_DIALOGUE
  }

  /** The state before event k. */
  function StateAt(p: Plan, q: QuestionKind, k: nat): State
    requires |p.config.calls| == 1
  {
    State([LeafAt(p, q, k)], DialogueAt(q, k),
          Phase(2 <= k, 12 <= k, 13 <= k, false, false, false, false, true, false, None),
          4 <= k, false, if 4 <= k then 0 else -1, if k <= 3 then 0 else if k <= 8 then 1 else 2,
          if k == 3 then KeyAt(p, 1, "register") else if k == 8 then KeyAt(p, 2, ReplyOf(q)) else "", if k == 8 then Some(q) else None)
  }

  predicate Steps(p: Plan, q: QuestionKind, k: nat)
    requires Registers(p) && Asked(q) && k < 13
  {
    Next(p, StateAt(p, q, k), EventAt(p, q, k)) == Some(StateAt(p, q, k + 1))
  }

  lemma Found(p: Plan, q: QuestionKind, k: nat)
    requires Registers(p) && Asked(q) && k < 13
    ensures var e := EventAt(p, q, k);
            LeafOf(p.config.calls, e) == 0 && Addressed(p, e) && e.runId == p.config.runId && e.planSha == p.config.planSha && !e.kind.CredentialLease?
  {
    var e := EventAt(p, q, k);
    EventFound(p, e.kind, e.outcome, e.ordinal, e.messageKind, e.question);
  }

  lemma KeysAt(p: Plan, q: QuestionKind)
    requires Registers(p) && Asked(q)
    ensures TraceKey(EventAt(p, q, 2)) == TraceKey(EventAt(p, q, 3)) == KeyAt(p, 1, "register") != ""
    ensures TraceKey(EventAt(p, q, 7)) == TraceKey(EventAt(p, q, 8)) == TraceKey(EventAt(p, q, 9)) == KeyAt(p, 2, ReplyOf(q)) != ""
    ensures Identifier("request")
  {
    KeyNotEmpty(EventAt(p, q, 3));
    KeyNotEmpty(EventAt(p, q, 8));
    hide JoinNul;
  }

  lemma LaunchStep(p: Plan, q: QuestionKind)
    requires Registers(p) && Asked(q)
    ensures Steps(p, q, 1)
  {
    hide LeafOf, Addressed, TraceKey, OnDialogueEvent, OnDispatchEvent, Identifier, KeyAt;
    Found(p, q, 1);
  }

  lemma PhaseSteps(p: Plan, q: QuestionKind, k: nat)
    requires Registers(p) && Asked(q) && k in {11, 12}
    ensures Steps(p, q, k)
  {
    hide LeafOf, Addressed, TraceKey, OnDialogueEvent, OnDispatchEvent, Identifier, KeyAt;
    Found(p, q, k);
  }

  lemma AskStep(p: Plan, q: QuestionKind)
    requires Registers(p) && Asked(q)
    ensures Steps(p, q, 4)
  {
    hide LeafOf, Addressed, TraceKey, OnDispatchEvent, SessionEventAllowed, KeyAt, OnRegistrationInput, OnInteract, AboutQuestion;
    Found(p, q, 4);
  }

  lemma CheckStep(p: Plan, q: QuestionKind)
    requires Registers(p) && Asked(q)
    ensures Steps(p, q, 6)
  {
    hide LeafOf, Addressed, TraceKey, OnDispatchEvent, SessionEventAllowed, KeyAt, OnRegistrationInput, OnInteract, OnQuestion;
    Found(p, q, 6);
  }

  lemma AnswerSteps(p: Plan, q: QuestionKind, k: nat)
    requires Registers(p) && Asked(q) && k in {0, 5}
    ensures Steps(p, q, k)
  {
    hide LeafOf, Addressed, TraceKey, OnDispatchEvent, SessionEventAllowed, KeyAt, OnQuestion;
    Found(p, q, k);
  }

  lemma FirstClaimStep(p: Plan, q: QuestionKind)
    requires Registers(p) && Asked(q)
    ensures Steps(p, q, 2)
  {
    hide LeafOf, Addressed, TraceKey, OnDialogueEvent, SessionEventAllowed, Identifier, OnSend, OnResponse, OnDriverError, NextClaimAllowed, KeyAt;
    Found(p, q, 2);
    KeysAt(p, q);
  }

  lemma ReplyClaimStep(p: Plan, q: QuestionKind)
    requires Registers(p) && Asked(q)
    ensures Steps(p, q, 7)
  {
    hide LeafOf, Addressed, TraceKey, OnDialogueEvent, SessionEventAllowed, Identifier, OnSend, OnResponse, OnDriverError, FirstClaimAllowed, KeyAt;
    Found(p, q, 7);
    KeysAt(p, q);
  }

  lemma SendSteps(p: Plan, q: QuestionKind, k: nat)
    requires Registers(p) && Asked(q) && k in {3, 8}
    ensures Steps(p, q, k)
  {
    hide LeafOf, Addressed, TraceKey, OnDialogueEvent, SessionEventAllowed, OnClaim, OnResponse, OnDriverError, KeyAt;
    Found(p, q, k);
    KeysAt(p, q);
    assert StateAt(p, q, k).leaves[0 := LeafAt(p, q, k + 1)] == StateAt(p, q, k + 1).leaves;
  }

  lemma ResponseStep(p: Plan, q: QuestionKind)
    requires Registers(p) && Asked(q)
    ensures Steps(p, q, 9)
  {
    hide LeafOf, Addressed, TraceKey, OnDialogueEvent, SessionEventAllowed, OnClaim, OnSend, OnDriverError, KeyAt;
    Found(p, q, 9);
    KeysAt(p, q);
    assert StateAt(p, q, 9).leaves[0 := LeafAt(p, q, 10)] == StateAt(p, q, 10).leaves;
  }

  lemma CloseStep(p: Plan, q: QuestionKind)
    requires Registers(p) && Asked(q)
    ensures Steps(p, q, 10)
  {
    hide LeafOf, Addressed, TraceKey, OnDialogueEvent, SessionEventAllowed, OnClaim, OnSend, OnResponse, OnDriverError, KeyAt;
    Found(p, q, 10);
    assert StateAt(p, q, 10).leaves[0 := LeafAt(p, q, 11)] == StateAt(p, q, 11).leaves;
  }

  lemma StepAt(p: Plan, q: QuestionKind, k: nat)
    requires Registers(p) && Asked(q) && k < 13
    ensures Steps(p, q, k)
  {
    hide Steps, Registers;
    if k == 2 {
      FirstClaimStep(p, q);
    } else if k == 7 {
      ReplyClaimStep(p, q);
    } else if k == 1 {
      LaunchStep(p, q);
    } else if k in {3, 8} {
      SendSteps(p, q, k);
    } else if k == 9 {
      ResponseStep(p, q);
    } else if k == 10 {
      CloseStep(p, q);
    } else if k == 4 {
      AskStep(p, q);
    } else if k == 6 {
      CheckStep(p, q);
    } else if k in {0, 5} {
      AnswerSteps(p, q, k);
    } else {
      PhaseSteps(p, q, k);
    }
  }

  lemma {:induction false} RunsTo(p: Plan, q: QuestionKind, k: nat)
    requires OneRegistration(p) && Asked(q) && k <= 13
    ensures Run(p, Prelude(p) + RegistrationTrace(p, q)[..k]) == Some(StateAt(p, q, k))
  {
    hide CredentialLeaseMatches, RegistrationTrace, EventAt, Asked, Next, StateAt, Prelude, Run;
    if k == 0 {
      StartAt(p, q);
    } else {
      RunsTo(p, q, k - 1);
      StepAt(p, q, k - 1);
      var t := RegistrationTrace(p, q);
      assert Prelude(p) + t[..k] == Prelude(p) + t[..k - 1] + [t[k - 1]];
      RunNext(p, Prelude(p) + t[..k - 1], t[k - 1]);
    }
  }

  lemma StartAt(p: Plan, q: QuestionKind)
    requires OneRegistration(p) && Asked(q)
    ensures Run(p, Prelude(p) + RegistrationTrace(p, q)[..0]) == Some(StateAt(p, q, 0))
  {
    hide RegistrationTrace, EventAt, CredentialLeaseMatches;
    assert Prelude(p) + RegistrationTrace(p, q)[..0] == Prelude(p);
    assert Initial(p).leaves == StateAt(p, q, 0).leaves;
    if p.config.revisions != [] {
      assert Prelude(p)[..0] == [];
      assert Run(p, []) == Some(Initial(p));
      LeaseStep(p, q);
    }
  }

  lemma LeaseStep(p: Plan, q: QuestionKind)
    requires OneRegistration(p) && p.config.revisions != []
    ensures Next(p, Initial(p), Prelude(p)[0]) == Some(StateAt(p, q, 0))
  {
    hide CredentialLeaseMatches, OnLeafEvent;
    assert Initial(p).leaves == StateAt(p, q, 0).leaves;
  }

  /** The registration is sent twice, succeeds, and its context is closed before the join. */
  lemma OneRegistrationRuns(p: Plan, q: QuestionKind)
    requires OneRegistration(p) && Asked(q)
    ensures var t := Prelude(p) + RegistrationTrace(p, q);
            && Run(p, t).Some? && Finished(Run(p, t).value)
            && Run(p, t).value.leaves[0].outcome.Succeeded? && Run(p, t).value.leaves[0].closed
  {
    hide LeafOf, Next, TraceKey, RegistrationTrace, EventAt, CredentialLeaseMatches, Prelude, Run;
    RunsTo(p, q, 13);
    assert RegistrationTrace(p, q)[..13] == RegistrationTrace(p, q);
  }

  /** Of the trace's events, the fourth and the ninth send it. */
  lemma SentTwice(p: Plan, q: QuestionKind)
    requires OneRegistration(p) && Asked(q)
    ensures var t := RegistrationTrace(p, q); SentAt(p.config.calls, t, 3, 0) && SentAt(p.config.calls, t, 8, 0)
  {
    hide LeafOf, Addressed;
    Found(p, q, 3);
    Found(p, q, 8);
  }
}
