/** Acceptance is possible: one configuration, inventory, report and host whose trace asks a
    question and saves a session is accepted (runevidence/browser.go). */
module AcceptedRun {
  import opened Common
  import opened ReportV5
  import opened BrowserContract
  import opened RunChecker
  import opened RunSafety
  import opened RunVerdict
  import RunEvidence
  import opened RunWitness
  import SessionBinding

  function Zeros(n: nat): (r: string)
    ensures |r| == n && forall i :: 0 <= i < n ==> r[i] == '0'
  {
    seq(n, _ => '0')
  }

  function AnyOrigin(): string -> bool {
    s => true
  }

  // ---------- The configuration ----------

  function SignIn(): Call {
    Call("a", "a", "a", Authentication, "p", Zeros(64), "uws.browser-authentication.1.0", Selector("id", "x", "x"), Zeros(64),
         "udon.browser-driver.v2", "", ["o"], ["e"], "", [], "", "s", "", false, true)
  }

  function Granted(): Session {
    Session("s", Zeros(64), 1, At(0), true, At(1), true, false, true)
  }

  function Agent(): Worker {
    Worker("w", Zeros(64), Zeros(64), Zeros(40))
  }

  function Plain(): Config {
    Config(CONFIG_VERSION, "u", "v", "r", [Zeros(64), Zeros(64), Zeros(64), Zeros(64), Zeros(64)], Zeros(64), Zeros(64), Agent(), Zeros(64), "n", "l", At(2), ["o"], [SignIn()], [], Some(Granted()), ["f"])
  }

  lemma SignInIsValid()
    ensures CallValid(AnyOrigin(), SignIn())
  {
    assert ProtocolPairValid(SignIn());
    assert "uws.browser-authentication." <= SignIn().profileVersion;
    assert KindValid(SignIn());
    assert OriginsValid(AnyOrigin(), ["o"]);
  }

  lemma PlainCalls()
    ensures CallsOk(AnyOrigin(), Plain().session, Plain().calls) && AtMostOneSave(Plain().calls)
    ensures CallOrigins(Plain().calls) == {"o"} && SlotNames(Plain().calls) == {}
    ensures !SomeReuse(Plain().calls, "s") && SomeSave(Plain().calls, "s")
  {
    hide CallValid;
    SignInIsValid();
    var calls := Plain().calls;
    assert calls == [SignIn()] && calls[0].origins[0] == "o";
  }

  lemma PlainIsValid()
    ensures ConfigValid(AnyOrigin(), Plain())
  {
    PlainCalls();
    hide CallsOk, AtMostOneSave, CallOrigins, SlotNames, SomeReuse, SomeSave;
    assert OriginsValid(AnyOrigin(), ["o"]);
    assert (set o | o in Plain().origins) == {"o"};
  }

  // ---------- The report ----------

  function Expected(): Inventory {
    Inventory("r", "w", "sha256:" + Zeros(64), [Step("a", "a", "a", NotStarted, Absent, Absent, NoError)])
  }

  function Reported(): Report {
    Report(VERSION, "r", "w", "sha256:" + Zeros(64), true, Success, At(0), At(1), NoError, [Step("a", "a", "a", Succeeded, At(0), At(1), NoError)])
  }

  lemma ReportIsObserved()
    ensures InventoryValid(Expected())
    ensures var o := Observe(Expected(), Some(Reported()));
            o.state.Validated? && o.startedAt == At(0) && o.steps == Reported().steps
  {
    var steps := Expected().steps;
    assert steps[..0] == [] && Reported().steps[..0] == [];
    assert PrefixedDigest("sha256:" + Zeros(64));
    assert Instants(MILLENNIUM, steps) == [MILLENNIUM];
    assert Instants(0, Reported().steps) == [0, 0, 1];
  }

  // ---------- The host ----------

  function Bound(): Binding {
    Binding("u", "v", "s", Zeros(64), Zeros(64), Zeros(64), [], ["o"], 1, At(0), At(1))
  }

  function Attested(trace: seq<Event>): Host {
    Host(None, Some(AccessWitness("k", Fresh, Granted(), Bound())), Some(Bound()), Plain(), Expected(), ["f"],
         LaunchWitness("h", "n", Agent(), Zeros(64), "l", true, true, ["o"]), JoinWitness("h", "l", "k", true, true, true, true),
         trace, None, Some(SavePermission("m", "s", Zeros(64), 1, "a", true, true)), 1)
  }

  lemma BindingIsExpected()
    ensures SessionBinding.ExpectedBinding(Plain(), Some(Bound())) == SessionBinding.Bound(Bound())
  {
    var calls := Plain().calls;
    assert calls == [SignIn()] && calls[0].origins[0] == "o" && calls[..0] == [];
    assert SessionBinding.OriginsOf(calls, "s") == {"o"};
    assert SessionBinding.CredentialsOf(calls, "s") == {} && SessionBinding.Profiles(calls, "s") == {};
    assert SessionBinding.LastAuthentication(calls, "s") == 0;
    assert Distinct(["o"]);
    EnumerationsSort(["o"], {"o"});
    assert SortedSet({"o"}) == ["o"];
    hide SortedSet, SessionBinding.OriginsOf, SessionBinding.CredentialsOf, SessionBinding.Profiles, SessionBinding.LastAuthentication;
  }

  function LoginPlan(trace: seq<Event>): Plan {
    Plan(Plain(), Attested(trace))
  }

  lemma PlanIsLogin(trace: seq<Event>)
    ensures OneLogin(LoginPlan(trace))
  {
  }

  /** The trace does not depend on the trace the host brings. */
  lemma SameTrace(a: seq<Event>, b: seq<Event>)
    ensures OneLogin(LoginPlan(a)) && OneLogin(LoginPlan(b)) && LoginTrace(LoginPlan(a)) == LoginTrace(LoginPlan(b))
  {
    PlanIsLogin(a);
    PlanIsLogin(b);
    forall k: nat | k < 15 ensures LoginEvent(LoginPlan(a), k) == LoginEvent(LoginPlan(b), k) {
    }
  }

  lemma HostIsAdmissible(trace: seq<Event>)
    requires 0 < |trace| <= MAX_TRACE
    ensures Admissible(AnyOrigin(), Plain(), Expected(), Some(Reported()), Attested(trace))
  {
    hide ConfigValid, InventoryValid, Observe, SessionBinding.ExpectedBinding;
    PlainIsValid();
    ReportIsObserved();
    BindingIsExpected();
  }

  lemma SingleProves(p: Plan, o: Observation, s: State)
    requires |p.config.calls| == 1 && !p.config.calls[0].kind.Registration? && p.host.nonDispatch.None?
    requires Sized(p, s) && RunEvidence.Finished(s) && |o.steps| == 1 && o.steps[0].outcome == s.leaves[0].outcome
    ensures Proves(p, o, s)
  {
  }

  lemma PlanParts(t: seq<Event>)
    ensures var p := LoginPlan(t); |p.config.calls| == 1 && p.config.calls[0].kind.Authentication? && p.host.nonDispatch.None?
    ensures CleanCalls(LoginPlan(t).config.calls) && |Reported().steps| == 1 && Reported().steps[0].outcome.Succeeded?
  {
    PlainIsValid();
    ValidCallsAreClean(AnyOrigin(), Plain());
  }

  lemma RunIsProved(t: seq<Event>)
    requires t == LoginTraceOf()
    ensures Run(LoginPlan(t), t).Some? && Proves(LoginPlan(t), Observe(Expected(), Some(Reported())), Run(LoginPlan(t), t).value)
    ensures |t| == 15 && t[13].kind.SessionSave?
  {
    hide Observe, Run, Next, Proves, OneLogin, LoginPlan, Plain, Attested, Reported, Expected, CleanCalls, RunEvidence.Finished, RunEvidence.SentAt;
    SameTrace([], t);
    PlanParts(t);
    OneLoginSaves(LoginPlan(t));
    ReportIsObserved();
    SingleProves(LoginPlan(t), Observe(Expected(), Some(Reported())), Run(LoginPlan(t), t).value);
  }

  function LoginTraceOf(): seq<Event> {
    PlanIsLogin([]);
    LoginTrace(LoginPlan([]))
  }

  /** The sign-in's run is accepted: it succeeded, after a question, and its session was saved. */
  lemma LoginIsAccepted() returns (h: Host)
    ensures IsAccepted(AnyOrigin(), Plain(), Expected(), Some(Reported()), h)
    ensures exists k :: 0 <= k < |h.trace| && h.trace[k].kind.SessionSave?
  {
    hide Admissible, Observe, Run, ConfigValid, Proves, LoginTraceOf, Attested, Plain, Expected, Reported;
    var t := LoginTraceOf();
    RunIsProved(t);
    HostIsAdmissible(t);
    h := Attested(t);
    HostTrace(t);
    assert h.trace[13].kind.SessionSave?;
  }

  lemma HostTrace(t: seq<Event>)
    ensures Attested(t).trace == t
  {
  }
}
