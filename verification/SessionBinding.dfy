/** The binding a host must find behind a configured session: expectedSessionBinding
    in runevidence/browser.go. */
module SessionBinding {
  import opened Common
  import opened ReportV5
  import opened BrowserContract

  /** The source answers only success or failure; the failures are named here by
      the test that causes them. */
  datatype Derivation =
    | Bound(binding: Binding)
    | NoSession
    | DuplicateAuthentication
    | MismatchedAuthentication
    | ConflictingProfiles
    | MissingRevisions
    | NoExpectation
    | Unexpected

  predicate Authenticates(c: Call, session: string) {
    c.sessionName == session && c.kind.Authentication?
  }

  predicate Acts(c: Call, session: string) {
    c.sessionName == session && c.kind.Action?
  }

  /** A second authentication is noticed by the source id of an earlier one, so not when
      that is empty. */
  predicate TwoAuthentications(calls: seq<Call>, session: string) {
    exists i, j :: 0 <= i < j < |calls| && Authenticates(calls[i], session) && Authenticates(calls[j], session) && calls[i].sourceId != ""
  }

  /** Index of the last authentication of the session, or -1. */
  function LastAuthentication(calls: seq<Call>, session: string): (r: int)
    ensures -1 <= r < |calls|
    ensures r >= 0 ==> Authenticates(calls[r], session)
    ensures forall i :: r < i < |calls| ==> !Authenticates(calls[i], session)
  {
    if calls == [] then -1
    else if Authenticates(calls[|calls| - 1], session) then |calls| - 1
    else LastAuthentication(calls[..|calls| - 1], session)
  }

  function AuthenticationId(calls: seq<Call>, session: string): string {
    var i := LastAuthentication(calls, session);
    if i < 0 then "" else calls[i].sourceId
  }

  function AuthenticationSha(calls: seq<Call>, session: string): string {
    var i := LastAuthentication(calls, session);
    if i < 0 then "" else calls[i].sourceSha
  }

  predicate Mismatched(calls: seq<Call>, session: string) {
    exists i :: 0 <= i < |calls| && Acts(calls[i], session)
                && calls[i].authenticationSourceId != AuthenticationId(calls, session)
  }

  function Profiles(calls: seq<Call>, session: string): set<string> {
    set i | 0 <= i < |calls| && Acts(calls[i], session) :: calls[i].sourceSha
  }

  function OriginsOf(calls: seq<Call>, session: string): set<string> {
    set i, j | 0 <= i < |calls| && 0 <= j < |calls[i].origins| && calls[i].sessionName == session :: calls[i].origins[j]
  }

  function CredentialsOf(calls: seq<Call>, session: string): set<string> {
    set i, j | 0 <= i < |calls| && 0 <= j < |calls[i].credentialSlots| && calls[i].sessionName == session :: calls[i].credentialSlots[j].name
  }

  function Names(r: seq<Revision>): set<string> {
    set i | 0 <= i < |r| :: r[i].name
  }

  function KeepRevisions(r: seq<Revision>, names: set<string>): seq<Revision> {
    if r == [] then []
    else
      var front := KeepRevisions(r[..|r| - 1], names);
      if r[|r| - 1].name in names then front + [r[|r| - 1]] else front
  }

  /** When the session's calls contribute no origin, the whole plan's origins and revisions
      stand in for theirs. */
  function BoundOrigins(c: Config, session: string): set<string> {
    if OriginsOf(c.calls, session) == {} then set o | o in c.origins else OriginsOf(c.calls, session)
  }

  function BoundCredentials(c: Config, session: string): set<string> {
    if OriginsOf(c.calls, session) == {} then CredentialsOf(c.calls, session) + Names(c.revisions) else CredentialsOf(c.calls, session)
  }

  ghost function ExpectedBinding(c: Config, independent: Option<Binding>): Derivation {
    if c.session.None? then NoSession else
    var s := c.session.value;
    if TwoAuthentications(c.calls, s.name) then DuplicateAuthentication
    else if Mismatched(c.calls, s.name) then MismatchedAuthentication
    else if |Profiles(c.calls, s.name)| > 1 then ConflictingProfiles
    else
      var revisions := KeepRevisions(c.revisions, BoundCredentials(c, s.name));
      if |revisions| != |BoundCredentials(c, s.name)| then MissingRevisions
      else
        var profile := if Profiles(c.calls, s.name) == {} then "" else var p :| p in Profiles(c.calls, s.name); p;
        var b := Binding(c.ownerId, c.agentId, s.name, s.bindingSha, profile, AuthenticationSha(c.calls, s.name),
                         revisions, SortedSet(BoundOrigins(c, s.name)), s.generation, s.createdAt, s.expiresAt);
        Complete(b, independent)
  }

  function Complete(b: Binding, independent: Option<Binding>): Derivation {
    if (b.profileSha == "" || b.authenticationSha == "") && independent.None? then NoExpectation
    else
      var full := b.(
        profileSha := if b.profileSha == "" then independent.value.profileSha else b.profileSha,
        authenticationSha := if b.authenticationSha == "" then independent.value.authenticationSha else b.authenticationSha);
      if !DigestText(full.profileSha) || !DigestText(full.authenticationSha) || (independent.Some? && independent.value != full)
      then Unexpected else Bound(full)
  }

  /** The first loop of expectedSessionBinding: everything the session's calls contribute. */
  method ScanSession(calls: seq<Call>, session: string)
    returns (ok: bool, authenticationId: string, authenticationSha: string,
             profiles: set<string>, origins: set<string>, credentials: set<string>)
    ensures ok <==> !TwoAuthentications(calls, session)
    ensures ok ==> authenticationId == AuthenticationId(calls, session) && authenticationSha == AuthenticationSha(calls, session)
    ensures ok ==> profiles == Profiles(calls, session) && origins == OriginsOf(calls, session) && credentials == CredentialsOf(calls, session)
  {
    authenticationId, authenticationSha, profiles, credentials, origins := "", "", {}, {}, {};
    for n := 0 to |calls|
      invariant !TwoAuthentications(calls[..n], session)
      invariant authenticationId == AuthenticationId(calls[..n], session)
      invariant authenticationSha == AuthenticationSha(calls[..n], session)
      invariant profiles == Profiles(calls[..n], session)
      invariant origins == OriginsOf(calls[..n], session) && credentials == CredentialsOf(calls[..n], session)
    {
      var call := calls[n];
      NextAuthentication(calls, n, session);
      NextTallies(calls, n, session);
      if call.sessionName == session {
        origins := origins + set j | 0 <= j < |call.origins| :: call.origins[j];
        credentials := credentials + set j | 0 <= j < |call.credentialSlots| :: call.credentialSlots[j].name;
        if call.kind.Authentication? {
          if authenticationId != "" { return false, "", "", {}, {}, {}; }
          authenticationId, authenticationSha := call.sourceId, call.sourceSha;
        }
        if call.kind.Action? { profiles := profiles + {call.sourceSha}; }
      }
    }
    assert calls[..|calls|] == calls;
    ok := true;
  }

  method FilterRevisions(r: seq<Revision>, names: set<string>) returns (kept: seq<Revision>)
    ensures kept == KeepRevisions(r, names)
  {
    kept := [];
    for n := 0 to |r|
      invariant kept == KeepRevisions(r[..n], names)
    {
      assert r[..n + 1][..n] == r[..n];
      if r[n].name in names { kept := kept + [r[n]]; }
    }
    assert r[..|r|] == r;
  }

  /** The keys of the origin map, met in any order, sorted. */
  method SortedOrigins(origins: set<string>) returns (sorted: seq<string>)
    ensures sorted == SortedSet(origins)
  {
    var listed: seq<string>, rest := [], origins;
    while rest != {}
      invariant rest <= origins && Distinct(listed)
      invariant forall o :: o in listed <==> o in origins && o !in rest
      decreases |rest|
    {
      var o :| o in rest;
      assert forall k :: 0 <= k < |listed| ==> listed[k] in listed;
      listed, rest := listed + [o], rest - {o};
    }
    EnumerationsSort(listed, origins);
    return Sort(AtMost, listed);
  }

  method DeriveBinding(c: Config, independent: Option<Binding>) returns (r: Derivation)
    ensures r == ExpectedBinding(c, independent)
  {
    if c.session.None? { return NoSession; }
    var s := c.session.value;
    var ok, authenticationId, authenticationSha, profiles, origins, credentials := ScanSession(c.calls, s.name);
    if !ok { return DuplicateAuthentication; }
    for n := 0 to |c.calls|
      invariant forall i :: 0 <= i < n && Acts(c.calls[i], s.name) ==> c.calls[i].authenticationSourceId == authenticationId
    {
      if Acts(c.calls[n], s.name) && c.calls[n].authenticationSourceId != authenticationId { return MismatchedAuthentication; }
    }
    if |profiles| > 1 { return ConflictingProfiles; }
    var profile := "";
    if profiles != {} {
      OneElement(profiles);
      profile :| profile in profiles;
    }
    if origins == {} {
      origins := set o | o in c.origins;
      credentials := credentials + Names(c.revisions);
    }
    var revisions := FilterRevisions(c.revisions, credentials);
    if |revisions| != |credentials| { return MissingRevisions; }
    var kept := SortedOrigins(origins);
    r := Complete(Binding(c.ownerId, c.agentId, s.name, s.bindingSha, profile, authenticationSha, revisions, kept,
                          s.generation, s.createdAt, s.expiresAt), independent);
  }

  lemma OneElement(s: set<string>)
    requires s != {} && |s| <= 1
    ensures forall p, q :: p in s && q in s ==> p == q
  {
    var p :| p in s;
    assert |s - {p}| == 0;
    assert s == {p};
  }

  lemma NextAuthentication(calls: seq<Call>, n: nat, session: string)
    requires n < |calls| && !TwoAuthentications(calls[..n], session)
    ensures var c, before, through := calls[n], calls[..n], calls[..n + 1];
            && (TwoAuthentications(through, session) <==> Authenticates(c, session) && AuthenticationId(before, session) != "")
            && (TwoAuthentications(through, session) ==> TwoAuthentications(calls, session))
            && AuthenticationId(through, session) == (if Authenticates(c, session) then c.sourceId else AuthenticationId(before, session))
            && AuthenticationSha(through, session) == (if Authenticates(c, session) then c.sourceSha else AuthenticationSha(before, session))
  {
    var c, before, through := calls[n], calls[..n], calls[..n + 1];
    assert through[..n] == before && through[n] == c;
    assert forall i :: 0 <= i < n ==> through[i] == before[i];
    var last := LastAuthentication(before, session);
    assert forall i :: 0 <= i < n && i != last && Authenticates(before[i], session) ==> before[i].sourceId == "";
  }

  lemma NextTallies(calls: seq<Call>, n: nat, session: string)
    requires n < |calls|
    ensures var c, before, through := calls[n], calls[..n], calls[..n + 1];
            && Profiles(through, session) == Profiles(before, session) + (if Acts(c, session) then {c.sourceSha} else {})
            && OriginsOf(through, session) == OriginsOf(before, session)
                 + (if c.sessionName == session then set j | 0 <= j < |c.origins| :: c.origins[j] else {})
            && CredentialsOf(through, session) == CredentialsOf(before, session)
                 + (if c.sessionName == session then set j | 0 <= j < |c.credentialSlots| :: c.credentialSlots[j].name else {})
  {
    NextProfiles(calls, n, session);
    NextOrigins(calls, n, session);
    NextCredentials(calls, n, session);
  }

  lemma NextProfiles(calls: seq<Call>, n: nat, session: string)
    requires n < |calls|
    ensures Profiles(calls[..n + 1], session)
            == Profiles(calls[..n], session) + (if Acts(calls[n], session) then {calls[n].sourceSha} else {})
  {
    var before, through := calls[..n], calls[..n + 1];
    assert through[n] == calls[n];
    assert forall i :: 0 <= i < n ==> through[i] == before[i];
  }

  lemma NextOrigins(calls: seq<Call>, n: nat, session: string)
    requires n < |calls|
    ensures OriginsOf(calls[..n + 1], session)
            == OriginsOf(calls[..n], session)
               + (if calls[n].sessionName == session then set j | 0 <= j < |calls[n].origins| :: calls[n].origins[j] else {})
  {
    var before, through := calls[..n], calls[..n + 1];
    forall o | o in OriginsOf(before, session) ensures o in OriginsOf(through, session) {
      var i, j :| 0 <= i < |before| && 0 <= j < |before[i].origins| && before[i].sessionName == session && before[i].origins[j] == o;
      assert through[i].origins[j] == o;
    }
    if calls[n].sessionName == session {
      forall j | 0 <= j < |calls[n].origins| ensures calls[n].origins[j] in OriginsOf(through, session) {
        assert through[n].origins[j] == calls[n].origins[j];
      }
    }
  }

  lemma NextCredentials(calls: seq<Call>, n: nat, session: string)
    requires n < |calls|
    ensures CredentialsOf(calls[..n + 1], session)
            == CredentialsOf(calls[..n], session)
               + (if calls[n].sessionName == session then set j | 0 <= j < |calls[n].credentialSlots| :: calls[n].credentialSlots[j].name else {})
  {
    var before, through := calls[..n], calls[..n + 1];
    forall o | o in CredentialsOf(before, session) ensures o in CredentialsOf(through, session) {
      var i, j :| 0 <= i < |before| && 0 <= j < |before[i].credentialSlots| && before[i].sessionName == session && before[i].credentialSlots[j].name == o;
      assert through[i].credentialSlots[j].name == o;
    }
    if calls[n].sessionName == session {
      forall j | 0 <= j < |calls[n].credentialSlots| ensures calls[n].credentialSlots[j].name in CredentialsOf(through, session) {
        assert through[n].credentialSlots[j] == calls[n].credentialSlots[j];
      }
    }
  }

  /** The origins of a derived binding are those the session's calls contribute, or the whole
      plan's, strictly increasing. */
  lemma BoundOriginsIncrease(c: Config, independent: Option<Binding>)
    requires ExpectedBinding(c, independent).Bound?
    ensures c.session.Some?
    ensures var o := ExpectedBinding(c, independent).binding.origins;
            && (forall x :: x in o <==> x in BoundOrigins(c, c.session.value.name))
            && (forall i, j :: 0 <= i < j < |o| ==> Less(o[i], o[j]))
  {
    hide TwoAuthentications, Mismatched, Profiles, KeepRevisions, SortedSet, BoundCredentials, BoundOrigins, AuthenticationSha, DigestText, Less;
    SortedSetIs(BoundOrigins(c, c.session.value.name));
  }

  // ---------- When the binding can be derived ----------

  /** What deriving a supplement establishes of its calls: a session is authenticated
      at most once, and every action in it names the source of an earlier authentication. */
  predicate SessionDiscipline(calls: seq<Call>) {
    && (forall i, j :: 0 <= i < j < |calls| && calls[i].kind.Authentication? && calls[j].kind.Authentication? ==>
          calls[i].sessionName != calls[j].sessionName)
    && (forall i :: 0 <= i < |calls| && calls[i].kind.Action? && calls[i].sessionName != "" ==>
          exists j :: 0 <= j < i && Authenticates(calls[j], calls[i].sessionName) && calls[j].sourceId == calls[i].authenticationSourceId)
  }

  lemma WantedCovered(c: Config, session: string)
    requires Names(c.revisions) == SlotNames(c.calls)
    ensures BoundCredentials(c, session) <= Names(c.revisions)
  {
    forall name | name in CredentialsOf(c.calls, session) ensures name in SlotNames(c.calls) {
      var i, j :| 0 <= i < |c.calls| && 0 <= j < |c.calls[i].credentialSlots| && c.calls[i].sessionName == session && c.calls[i].credentialSlots[j].name == name;
      assert c.calls[i].credentialSlots[j].name in SlotNames(c.calls);
    }
  }

  lemma NextName(r: seq<Revision>)
    requires r != []
    ensures Names(r) == Names(r[..|r| - 1]) + {r[|r| - 1].name}
  {
    var front := r[..|r| - 1];
    assert r[|r| - 1].name in Names(r);
    forall i | 0 <= i < |front| ensures front[i].name in Names(r) {
      assert front[i] == r[i];
    }
  }

  lemma {:induction false} KeptCount(r: seq<Revision>, names: set<string>)
    requires forall i, j :: 0 <= i < j < |r| ==> r[i].name != r[j].name
    ensures |KeepRevisions(r, names)| == |names * Names(r)|
  {
    if r == [] {
      assert names * Names(r) == {};
    } else {
      var front, last := r[..|r| - 1], r[|r| - 1];
      KeptCount(front, names);
      NextName(r);
      assert last.name !in Names(front);
      var before := names * Names(front);
      if last.name in names {
        assert names * Names(r) == before + {last.name};
      } else {
        assert names * Names(r) == before;
      }
    }
  }

  /** For a valid configuration the credential revisions are never short, whatever its calls. */
  lemma RevisionsNeverMissing(canonical: string -> bool, c: Config, independent: Option<Binding>)
    requires ConfigValid(canonical, c)
    ensures !ExpectedBinding(c, independent).MissingRevisions?
  {
    RevisionNames(canonical, c);
    NamesCover(c, independent);
  }

  /** Every credential wanted has its revision. */
  lemma KeptAll(c: Config, session: string)
    requires Names(c.revisions) == SlotNames(c.calls)
    requires forall i, j :: 0 <= i < j < |c.revisions| ==> c.revisions[i].name != c.revisions[j].name
    ensures |KeepRevisions(c.revisions, BoundCredentials(c, session))| == |BoundCredentials(c, session)|
  {
    var wanted := BoundCredentials(c, session);
    WantedCovered(c, session);
    KeptCount(c.revisions, wanted);
    assert wanted * Names(c.revisions) == wanted;
  }

  lemma NamesCover(c: Config, independent: Option<Binding>)
    requires Names(c.revisions) == SlotNames(c.calls)
    requires forall i, j :: 0 <= i < j < |c.revisions| ==> c.revisions[i].name != c.revisions[j].name
    ensures !ExpectedBinding(c, independent).MissingRevisions?
  {
    if c.session.Some? {
      KeptAll(c, c.session.value.name);
      hide *;
      RevisionsSuffice(c, independent);
    } else {
      assert ExpectedBinding(c, independent).NoSession?;
    }
  }

  lemma RevisionsSuffice(c: Config, independent: Option<Binding>)
    requires c.session.Some?
    requires |KeepRevisions(c.revisions, BoundCredentials(c, c.session.value.name))| == |BoundCredentials(c, c.session.value.name)|
    ensures !ExpectedBinding(c, independent).MissingRevisions?
  {
    hide TwoAuthentications, Mismatched, Profiles, KeepRevisions, SortedSet, BoundCredentials, BoundOrigins, AuthenticationSha, DigestText;
  }

  /** Over calls that keep the session discipline the derivation cannot fail for a
      duplicate or a mismatched authentication. */
  lemma DisciplineAuthenticates(calls: seq<Call>, session: string)
    requires SessionDiscipline(calls) && session != ""
    ensures !TwoAuthentications(calls, session) && !Mismatched(calls, session)
  {
    forall i | 0 <= i < |calls| && Acts(calls[i], session)
      ensures calls[i].authenticationSourceId == AuthenticationId(calls, session)
    {
      var j :| 0 <= j < i && Authenticates(calls[j], session) && calls[j].sourceId == calls[i].authenticationSourceId;
      var last := LastAuthentication(calls, session);
      assert last == j;
    }
  }

  lemma AuthenticatedDerivation(c: Config, independent: Option<Binding>)
    requires c.session.Some? ==> !TwoAuthentications(c.calls, c.session.value.name) && !Mismatched(c.calls, c.session.value.name)
    ensures var r := ExpectedBinding(c, independent); !r.DuplicateAuthentication? && !r.MismatchedAuthentication?
  {
    hide TwoAuthentications, Mismatched, Profiles, KeepRevisions, SortedSet, BoundCredentials, BoundOrigins, AuthenticationSha, DigestText;
  }

  lemma BindingNeverLacksAuthentication(canonical: string -> bool, c: Config, independent: Option<Binding>)
    requires ConfigValid(canonical, c) && SessionDiscipline(c.calls)
    ensures var r := ExpectedBinding(c, independent);
            !r.DuplicateAuthentication? && !r.MismatchedAuthentication? && !r.MissingRevisions?
  {
    if c.session.Some? {
      assert Identifier(c.session.value.name);
      hide ConfigValid, SessionDiscipline, TwoAuthentications, Mismatched, ExpectedBinding;
      DisciplineAuthenticates(c.calls, c.session.value.name);
    }
    hide ConfigValid, SessionDiscipline, TwoAuthentications, Mismatched, ExpectedBinding;
    RevisionsNeverMissing(canonical, c, independent);
    AuthenticatedDerivation(c, independent);
  }
}
