/** What an expected session binding is, for a valid configuration: which call each of its
    parts comes from (expectedSessionBinding in runevidence/browser.go). */
module BindingMeaning {
  import opened Common
  import opened BrowserContract
  import opened SessionBinding

  // ---------- Lists in strictly increasing order ----------

  ghost predicate Increasing<T>(key: T -> string, s: seq<T>) {
    forall i, j :: 0 <= i < j < |s| ==> Less(key(s[i]), key(s[j]))
  }

  lemma SameHead<T>(key: T -> string, a: seq<T>, b: seq<T>)
    requires a != [] && b != [] && Increasing(key, a) && Increasing(key, b) && forall x :: x in a <==> x in b
    ensures a[0] == b[0]
  {
    hide Less;
    assert a[0] in b && b[0] in a;
    var i :| 0 <= i < |a| && a[i] == b[0];
    var j :| 0 <= j < |b| && b[j] == a[0];
    if i > 0 && j > 0 {
      LessTransitive(key(a[0]), key(b[0]), key(a[0]));
      NeverLess(key(a[0]));
    }
  }

  lemma {:induction false} NeverLess(s: string)
    ensures !Less(s, s)
  {
    if s != [] { NeverLess(s[1..]); }
  }

  lemma HasMember<T>(s: seq<T>)
    requires s != []
    ensures exists x :: x in s
  {
    assert s[0] in s;
  }

  /** A strictly increasing list is determined by what it contains. */
  lemma {:induction false} IncreasingUnique<T>(key: T -> string, a: seq<T>, b: seq<T>)
    requires Increasing(key, a) && Increasing(key, b) && forall x :: x in a <==> x in b
    ensures a == b
  {
    hide Less;
    if a != [] { HasMember(a); }
    if b != [] { HasMember(b); }
    if a != [] {
      SameHead(key, a, b);
      NeverLess(key(a[0]));
      TailMembers(key, a);
      TailMembers(key, b);
      IncreasingUnique(key, a[1..], b[1..]);
    }
  }

  lemma TailMembers<T>(key: T -> string, a: seq<T>)
    requires a != [] && Increasing(key, a) && !Less(key(a[0]), key(a[0]))
    ensures Increasing(key, a[1..]) && forall x :: x in a[1..] <==> x in a && x != a[0]
  {
    hide Less;
    forall x ensures x in a[1..] <==> x in a && x != a[0] {
      if x in a && x != a[0] {
        var i :| 0 <= i < |a| && a[i] == x;
        assert a[1..][i - 1] == x;
      }
    }
  }

  function RevisionName(r: Revision): string {
    r.name
  }

  function Itself(s: string): string {
    s
  }

  lemma {:induction false} Kept(r: seq<Revision>, names: set<string>)
    requires Increasing(RevisionName, r)
    ensures Increasing(RevisionName, KeepRevisions(r, names))
    ensures forall x :: x in KeepRevisions(r, names) <==> x in r && x.name in names
  {
    hide Less;
    if r != [] {
      var front, last := r[..|r| - 1], r[|r| - 1];
      assert r == front + [last];
      Kept(front, names);
      forall i | 0 <= i < |front| ensures Less(front[i].name, last.name) { assert front[i] == r[i]; }
    }
  }

  // ---------- The session's calls ----------

  predicate SignsIn(c: Call, session: string) {
    c.kind == Authentication && c.sessionName == session
  }

  predicate ActsIn(c: Call, session: string) {
    c.kind == Action && c.sessionName == session
  }

  /** One sign-in at most, which every action of the session names as its own. */
  ghost predicate OneSignIn(calls: seq<Call>, session: string) {
    && (forall i, j :: 0 <= i < j < |calls| && SignsIn(calls[i], session) ==> !SignsIn(calls[j], session))
    && (forall i :: 0 <= i < |calls| && ActsIn(calls[i], session) ==>
          exists k :: 0 <= k < |calls| && SignsIn(calls[k], session) && calls[k].sourceId == calls[i].authenticationSourceId)
  }

  ghost predicate OneProfile(calls: seq<Call>, session: string) {
    forall i, j :: 0 <= i < |calls| && 0 <= j < |calls| && ActsIn(calls[i], session) && ActsIn(calls[j], session) ==>
      calls[i].sourceSha == calls[j].sourceSha
  }

  ghost predicate HasOrigin(calls: seq<Call>, session: string, o: string) {
    exists i :: 0 <= i < |calls| && calls[i].sessionName == session && o in calls[i].origins
  }

  ghost predicate UsesSlot(calls: seq<Call>, session: string, name: string) {
    exists i, j :: 0 <= i < |calls| && 0 <= j < |calls[i].credentialSlots| && calls[i].sessionName == session && calls[i].credentialSlots[j].name == name
  }

  ghost predicate AnyOrigin(calls: seq<Call>, session: string) {
    exists o :: HasOrigin(calls, session, o)
  }

  ghost predicate SomeAction(calls: seq<Call>, session: string) {
    exists i :: 0 <= i < |calls| && ActsIn(calls[i], session)
  }

  /** The sources the digests are of: the actions' and the sign-in's. */
  ghost predicate SourcesOf(calls: seq<Call>, session: string, b: Binding) {
    forall i :: 0 <= i < |calls| ==>
      && (ActsIn(calls[i], session) ==> b.profileSha == calls[i].sourceSha)
      && (SignsIn(calls[i], session) ==> b.authenticationSha == calls[i].sourceSha)
  }

  /** Origins and revisions of the session's calls; of the whole plan when they have none. */
  ghost predicate ReachOf(c: Config, session: string, b: Binding) {
    && Increasing(Itself, b.origins) && Increasing(RevisionName, b.revisions)
    && (forall o :: o in b.origins <==> if AnyOrigin(c.calls, session) then HasOrigin(c.calls, session, o) else o in c.origins)
    && (forall r :: r in b.revisions <==> r in c.revisions && (UsesSlot(c.calls, session, r.name) || !AnyOrigin(c.calls, session)))
  }

  /** b is the binding the plan determines, with an independent expectation that agrees with it
      and that is needed where the session's calls leave a digest open. */
  ghost predicate BindingOf(c: Config, independent: Option<Binding>, b: Binding) {
    && c.session.Some?
    && var s := c.session.value;
    && OneSignIn(c.calls, s.name) && OneProfile(c.calls, s.name)
    && b == Binding(c.ownerId, c.agentId, s.name, s.bindingSha, b.profileSha, b.authenticationSha,
                    b.revisions, b.origins, s.generation, s.createdAt, s.expiresAt)
    && SourcesOf(c.calls, s.name, b) && ReachOf(c, s.name, b)
    && DigestText(b.profileSha) && DigestText(b.authenticationSha)
    && (independent.Some? || SomeAction(c.calls, s.name))
    && (independent.Some? ==> independent.value == b)
  }

  // ---------- The derivation ----------

  /** What validity gives the session's calls: a source, its digest, and for an action the
      source of a sign-in. */
  predicate Sourced(calls: seq<Call>, session: string) {
    forall i :: 0 <= i < |calls| ==>
      && calls[i].sourceId != "" && calls[i].sourceSha != ""
      && (ActsIn(calls[i], session) ==> calls[i].authenticationSourceId != "")
  }

  lemma ValidIsSourced(canonical: string -> bool, c: Config)
    requires ConfigValid(canonical, c) && c.session.Some?
    ensures Sourced(c.calls, c.session.value.name)
  {
    NamedSession(canonical, c);
    forall i | 0 <= i < |c.calls|
      ensures c.calls[i].sourceId != "" && c.calls[i].sourceSha != ""
      ensures ActsIn(c.calls[i], c.session.value.name) ==> c.calls[i].authenticationSourceId != ""
    {
      assert CallValid(canonical, c.calls[i]);
      hide ConfigValid;
      SourcedCall(canonical, c.calls[i]);
    }
  }

  lemma NamedSession(canonical: string -> bool, c: Config)
    requires ConfigValid(canonical, c) && c.session.Some?
    ensures c.session.value.name != ""
  {
    assert Identifier(c.session.value.name);
  }

  lemma SourcedCall(canonical: string -> bool, c: Call)
    requires CallValid(canonical, c)
    ensures c.sourceId != "" && c.sourceSha != ""
    ensures c.kind.Action? && c.sessionName != "" ==> c.authenticationSourceId != ""
  {
    hide SelectorValid, ProtocolPairValid, SlotsValid, OriginsValid, AllValid, Distinct;
    assert Identifier(c.sourceId) && DigestText(c.sourceSha) && KindValid(c);
  }

  lemma OneSignInIs(calls: seq<Call>, session: string)
    requires Sourced(calls, session)
    ensures OneSignIn(calls, session) <==> !TwoAuthentications(calls, session) && !Mismatched(calls, session)
  {
    var last := LastAuthentication(calls, session);
    if OneSignIn(calls, session) {
      forall i | 0 <= i < |calls| && Acts(calls[i], session)
        ensures calls[i].authenticationSourceId == AuthenticationId(calls, session)
      {
        assert ActsIn(calls[i], session);
        var k :| 0 <= k < |calls| && SignsIn(calls[k], session) && calls[k].sourceId == calls[i].authenticationSourceId;
        assert Authenticates(calls[k], session);
      }
    }
    if !TwoAuthentications(calls, session) && !Mismatched(calls, session) {
      forall i | 0 <= i < |calls| && ActsIn(calls[i], session)
        ensures exists k :: 0 <= k < |calls| && SignsIn(calls[k], session) && calls[k].sourceId == calls[i].authenticationSourceId
      {
        assert Acts(calls[i], session);
        assert SignsIn(calls[last], session);
      }
    }
  }

  lemma SignInSha(calls: seq<Call>, session: string)
    requires OneSignIn(calls, session)
    ensures forall i :: 0 <= i < |calls| && SignsIn(calls[i], session) ==> AuthenticationSha(calls, session) == calls[i].sourceSha
    ensures (forall i :: 0 <= i < |calls| ==> !SignsIn(calls[i], session)) ==> AuthenticationSha(calls, session) == ""
  {
    forall i | 0 <= i < |calls| && SignsIn(calls[i], session) ensures i == LastAuthentication(calls, session) {
      assert Authenticates(calls[i], session);
    }
  }

  lemma ProfileSha(calls: seq<Call>, session: string)
    ensures OneProfile(calls, session) <==> |Profiles(calls, session)| <= 1
    ensures SomeAction(calls, session) <==> Profiles(calls, session) != {}
    ensures forall i :: 0 <= i < |calls| && ActsIn(calls[i], session) ==> calls[i].sourceSha in Profiles(calls, session)
  {
    var all := Profiles(calls, session);
    forall i | 0 <= i < |calls| && ActsIn(calls[i], session) ensures calls[i].sourceSha in all {
      assert Acts(calls[i], session);
    }
    forall x | x in all ensures exists i :: 0 <= i < |calls| && ActsIn(calls[i], session) && calls[i].sourceSha == x {
      var i :| 0 <= i < |calls| && Acts(calls[i], session) && calls[i].sourceSha == x;
      assert ActsIn(calls[i], session);
    }
    if OneProfile(calls, session) && all != {} {
      var x :| x in all;
      forall y | y in all ensures y == x {}
      assert all == {x};
    }
    if |all| <= 1 {
      forall x, y | x in all && y in all ensures x == y { AtMostOne(all, x, y); }
    }
  }

  lemma AtMostOne(s: set<string>, x: string, y: string)
    requires |s| <= 1 && x in s && y in s
    ensures x == y
  {
    if x != y {
      assert {x, y} <= s;
      SubsetSize({x, y}, s);
    }
  }

  lemma OriginsMember(calls: seq<Call>, session: string)
    ensures forall o :: o in OriginsOf(calls, session) <==> HasOrigin(calls, session, o)
    ensures AnyOrigin(calls, session) <==> OriginsOf(calls, session) != {}
  {
    forall o ensures o in OriginsOf(calls, session) <==> HasOrigin(calls, session, o) {
      if HasOrigin(calls, session, o) {
        var i :| 0 <= i < |calls| && calls[i].sessionName == session && o in calls[i].origins;
        var j :| 0 <= j < |calls[i].origins| && calls[i].origins[j] == o;
      }
    }
    if OriginsOf(calls, session) != {} {
      var o :| o in OriginsOf(calls, session);
    }
  }

  lemma CredentialsMember(calls: seq<Call>, session: string)
    ensures forall x :: x in CredentialsOf(calls, session) <==> UsesSlot(calls, session, x)
  {
  }

  lemma RevisionNamed(r: seq<Revision>)
    ensures forall x :: x in r ==> x.name in Names(r)
  {
  }

  /** The origins and revisions the derivation collects are the ones described, and there are no
      others. */
  lemma ReachIs(c: Config, session: string, b: Binding)
    requires Increasing(RevisionName, c.revisions)
    ensures ReachOf(c, session, b) <==>
            b.origins == SortedSet(BoundOrigins(c, session)) && b.revisions == KeepRevisions(c.revisions, BoundCredentials(c, session))
  {
    var origins, revisions := SortedSet(BoundOrigins(c, session)), KeepRevisions(c.revisions, BoundCredentials(c, session));
    SortedSetIs(BoundOrigins(c, session));
    Kept(c.revisions, BoundCredentials(c, session));
    OriginsMember(c.calls, session);
    CredentialsMember(c.calls, session);
    RevisionNamed(c.revisions);
    hide SortedSet, KeepRevisions, OriginsOf, CredentialsOf, HasOrigin, UsesSlot, AnyOrigin, Names, Less;
    assert Increasing(Itself, origins);
    var mine := b.(origins := origins, revisions := revisions);
    assert ReachOf(c, session, mine);
    if ReachOf(c, session, b) {
      hide BoundOrigins, BoundCredentials, Increasing;
      IncreasingUnique(Itself, b.origins, origins);
      IncreasingUnique(RevisionName, b.revisions, revisions);
    }
  }

  lemma ValidRevisions(canonical: string -> bool, c: Config)
    requires ConfigValid(canonical, c)
    ensures Increasing(RevisionName, c.revisions)
    ensures forall session :: |KeepRevisions(c.revisions, BoundCredentials(c, session))| == |BoundCredentials(c, session)|
  {
    RevisionNames(canonical, c);
    IncreasingNames(c.revisions);
    hide ConfigValid;
    forall session ensures |KeepRevisions(c.revisions, BoundCredentials(c, session))| == |BoundCredentials(c, session)| {
      KeptAll(c, session);
    }
  }

  /** The digests the calls give, or none. */
  lemma OpenDigests(calls: seq<Call>, session: string, profile: string, b: Binding)
    requires Sourced(calls, session) && OneSignIn(calls, session) && OneProfile(calls, session)
    requires if Profiles(calls, session) == {} then profile == "" else profile in Profiles(calls, session)
    ensures profile == "" <==> !SomeAction(calls, session)
    ensures SomeAction(calls, session) ==> AuthenticationSha(calls, session) != ""
    ensures SourcesOf(calls, session, b) <==>
            && (profile == "" || b.profileSha == profile)
            && (AuthenticationSha(calls, session) == "" || b.authenticationSha == AuthenticationSha(calls, session))
  {
    hide AuthenticationSha;
    ProfileSha(calls, session);
    SignInSha(calls, session);
    if profile != "" {
      var i :| 0 <= i < |calls| && Acts(calls[i], session) && calls[i].sourceSha == profile;
      assert ActsIn(calls[i], session);
      assert SourcesOf(calls, session, b) ==> b.profileSha == calls[i].sourceSha;
    }
    if AuthenticationSha(calls, session) != "" {
      var i :| 0 <= i < |calls| && SignsIn(calls[i], session);
      assert SourcesOf(calls, session, b) ==> b.authenticationSha == calls[i].sourceSha;
    }
  }

  /** The binding before it is completed. */
  ghost function RawBinding(c: Config, profile: string): Binding
    requires c.session.Some?
  {
    var s := c.session.value;
    Binding(c.ownerId, c.agentId, s.name, s.bindingSha, profile, AuthenticationSha(c.calls, s.name),
            KeepRevisions(c.revisions, BoundCredentials(c, s.name)), SortedSet(BoundOrigins(c, s.name)), s.generation, s.createdAt, s.expiresAt)
  }

  /** The derivation when its tests pass. */
  lemma Derived(c: Config, independent: Option<Binding>, profile: string)
    requires c.session.Some?
    requires var s := c.session.value.name;
             && !TwoAuthentications(c.calls, s) && !Mismatched(c.calls, s) && |Profiles(c.calls, s)| <= 1
             && |KeepRevisions(c.revisions, BoundCredentials(c, s))| == |BoundCredentials(c, s)|
             && (if Profiles(c.calls, s) == {} then profile == "" else profile in Profiles(c.calls, s))
    ensures ExpectedBinding(c, independent) == Complete(RawBinding(c, profile), independent)
  {
    hide TwoAuthentications, Mismatched, Profiles, KeepRevisions, SortedSet, BoundCredentials, BoundOrigins, AuthenticationSha, Complete;
    var all := Profiles(c.calls, c.session.value.name);
    forall x | x in all ensures x == profile { AtMostOne(all, x, profile); }
  }

  /** Completing a binding fills its open digests from the independent expectation, which must
      agree with everything else. */
  lemma CompleteIs(raw: Binding, independent: Option<Binding>, b: Binding)
    ensures Complete(raw, independent) == Bound(b) <==>
            && b == raw.(profileSha := b.profileSha, authenticationSha := b.authenticationSha)
            && (raw.profileSha == "" || b.profileSha == raw.profileSha)
            && (raw.authenticationSha == "" || b.authenticationSha == raw.authenticationSha)
            && DigestText(b.profileSha) && DigestText(b.authenticationSha)
            && (independent.Some? || (raw.profileSha != "" && raw.authenticationSha != ""))
            && (independent.Some? ==> independent.value == b)
  {
    hide DigestText;
  }

  lemma NotBound(c: Config, independent: Option<Binding>)
    requires c.session.Some? ==>
               var s := c.session.value.name; TwoAuthentications(c.calls, s) || Mismatched(c.calls, s) || |Profiles(c.calls, s)| > 1
    ensures !ExpectedBinding(c, independent).Bound?
  {
    hide TwoAuthentications, Mismatched, Profiles, KeepRevisions, SortedSet, BoundCredentials, BoundOrigins, AuthenticationSha, Complete;
  }

  /** For a valid configuration the derivation succeeds with exactly the binding described. */
  lemma BindingExactly(canonical: string -> bool, c: Config, independent: Option<Binding>, b: Binding)
    requires ConfigValid(canonical, c)
    ensures ExpectedBinding(c, independent) == Bound(b) <==> BindingOf(c, independent, b)
  {
    hide TwoAuthentications, Mismatched, Profiles, KeepRevisions, SortedSet, BoundCredentials, BoundOrigins, AuthenticationSha, Complete;
    hide ExpectedBinding, OneSignIn, OneProfile, SourcesOf, ReachOf, SomeAction, DigestText, Sourced, Increasing, ConfigValid;
    if c.session.Some? {
      var s := c.session.value.name;
      ValidIsSourced(canonical, c);
      ValidRevisions(canonical, c);
      OneSignInIs(c.calls, s);
      ProfileSha(c.calls, s);
      if OneSignIn(c.calls, s) && OneProfile(c.calls, s) {
        var all := Profiles(c.calls, s);
        var profile := if all == {} then "" else var p :| p in all; p;
        Derived(c, independent, profile);
        OpenDigests(c.calls, s, profile, b);
        ReachIs(c, s, b);
        CompleteIs(RawBinding(c, profile), independent, b);
      } else {
        NotBound(c, independent);
      }
    } else {
      NotBound(c, independent);
    }
  }
}
