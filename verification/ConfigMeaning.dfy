/** What a valid browser call and configuration are, kind by kind and name by name
    (browsercontract/validate.go and protocol.go). */
module ConfigMeaning {
  import opened Common
  import opened ReportV5
  import opened BrowserContract

  // ---------- Protocols ----------

  /** The profile versions of each kind of call, with the drivers that carry them. */
  predicate Carried(kind: CallKind, profile: string, outer: string, inner: string) {
    match kind
    case Authentication =>
      || (profile == "uws.browser-authentication.1.0" && outer == "udon.browser-driver.v2" && inner == "")
      || (profile == "uws.browser-authentication.1.1" && inner == ""
          && (outer == "udon.browser-driver.v3" || outer == "udon.browser-driver.v10" || outer == "udon.browser-driver.v11"))
    case Registration =>
      || (profile == "uws.browser-registration.1.0" && outer == "udon.browser-driver.v4" && inner == "")
      || (profile == "uws.browser-registration.1.1" && outer == "udon.browser-driver.v5" && inner == "")
      || (profile == "uws.browser-registration.1.2" && outer == "udon.browser-driver.v6" && inner == "")
    case Action =>
      || ((profile == "uws.browser.1.5" || profile == "uws.browser.1.6" || profile == "uws.browser.1.7")
          && (outer == "udon.browser-driver.v3" || outer == "udon.browser-driver.v10") && inner == "udon.browser-driver.v2")
      || ((profile == "uws.browser.1.8" || profile == "uws.browser.1.9") && outer == "udon.browser-driver.v10" && inner == "udon.browser-driver.v3")
      || (profile == "uws.browser.1.10" && outer == "udon.browser-driver.v11" && inner == "udon.browser-driver.v4")
  }

  predicate FamilyOf(kind: CallKind, profile: string) {
    match kind
    case Action => HasPrefix(profile, "uws.browser.1.")
    case Authentication => HasPrefix(profile, "uws.browser-authentication.")
    case Registration => HasPrefix(profile, "uws.browser-registration.")
  }

  lemma Families(kind: CallKind)
    ensures FamilyOf(kind, "uws.browser-authentication.1.0") <==> kind.Authentication?
    ensures FamilyOf(kind, "uws.browser-authentication.1.1") <==> kind.Authentication?
    ensures FamilyOf(kind, "uws.browser-registration.1.0") <==> kind.Registration?
    ensures FamilyOf(kind, "uws.browser-registration.1.1") <==> kind.Registration?
    ensures FamilyOf(kind, "uws.browser-registration.1.2") <==> kind.Registration?
  {
    assert "uws.browser-authentication.1.0"[12] == 'a' && "uws.browser-authentication.1.1"[12] == 'a';
    assert "uws.browser.1."[11] == '.' && "uws.browser-registration."[12] == 'r';
  }

  lemma ActionFamilies(kind: CallKind)
    ensures FamilyOf(kind, "uws.browser.1.5") <==> kind.Action?
    ensures FamilyOf(kind, "uws.browser.1.6") <==> kind.Action?
    ensures FamilyOf(kind, "uws.browser.1.7") <==> kind.Action?
    ensures FamilyOf(kind, "uws.browser.1.8") <==> kind.Action?
    ensures FamilyOf(kind, "uws.browser.1.9") <==> kind.Action?
    ensures FamilyOf(kind, "uws.browser.1.10") <==> kind.Action?
  {
  }

  lemma CarriedExactly(c: Call)
    ensures ProtocolPairValid(c) && FamilyOf(c.kind, c.profileVersion) <==> Carried(c.kind, c.profileVersion, c.outerProtocol, c.innerProtocol)
  {
    Families(c.kind);
    ActionFamilies(c.kind);
    hide FamilyOf;
  }

  // ---------- Calls ----------

  /** What else a kind of call must and must not say. */
  predicate Fits(c: Call) {
    && (c.kind == Action ==>
          && |c.credentialSlots| == 0 && !c.saveAllowed && c.registrationInput == ""
          && (if c.sessionName == "" then c.authenticationSourceId == "" && !c.reuseAllowed
              else Identifier(c.sessionName) && Identifier(c.authenticationSourceId)))
    && (c.kind == Authentication ==>
          && Symbol(c.selector.key) && Identifier(c.sessionName)
          && c.authenticationSourceId == "" && c.registrationInput == "" && c.confirmationSha == "")
    && (c.kind == Registration ==>
          && Symbol(c.selector.key) && c.sessionName == "" && c.authenticationSourceId == "" && !c.reuseAllowed && !c.saveAllowed
          && (c.registrationInput == "" || Identifier(c.registrationInput)))
  }

  predicate Named(c: Call) {
    && Identifier(c.stepId) && Identifier(c.operationId) && Identifier(c.sourceId) && c.stepId == c.invocationId
    && c.selector == Selector("id", c.selector.key, c.selector.key) && ActionKey(c.selector.key)
    && DigestText(c.sourceSha) && DigestText(c.selectedSha) && (c.confirmationSha == "" || DigestText(c.confirmationSha))
  }

  predicate EffectsGood(effects: seq<string>) {
    && 1 <= |effects| <= 64 && (forall i :: 0 <= i < |effects| ==> EffectName(effects[i]))
    && forall i, j :: 0 <= i < j < |effects| ==> effects[i] != effects[j]
  }

  predicate OriginsGood(canonical: string -> bool, origins: seq<string>) {
    && 1 <= |origins| <= 64 && (forall i :: 0 <= i < |origins| ==> canonical(origins[i]) && ByteLength(origins[i]) <= 2048)
    && forall i, j :: 0 <= i < j < |origins| ==> Less(origins[i], origins[j])
  }

  predicate SlotsGood(slots: seq<CredentialSlot>) {
    && |slots| <= 128 && (forall i :: 0 <= i < |slots| ==> Symbol(slots[i].slot) && Identifier(slots[i].name))
    && forall i, j :: 0 <= i < j < |slots| ==> Less(slots[i].slot, slots[j].slot)
  }

  /** Neighbours in order are all in order. */
  lemma {:induction false} AllInOrder(s: seq<string>)
    requires forall i :: 1 <= i < |s| ==> Less(s[i - 1], s[i])
    ensures forall i, j :: 0 <= i < j < |s| ==> Less(s[i], s[j])
  {
    hide Less;
    if s != [] {
      var front := s[..|s| - 1];
      AllInOrder(front);
      forall i, j | 0 <= i < j < |s| ensures Less(s[i], s[j]) {
        if j < |s| - 1 {
          assert Less(front[i], front[j]);
        } else if i < j - 1 {
          assert Less(front[i], front[j - 1]);
          LessTransitive(s[i], s[j - 1], s[j]);
        }
      }
    }
  }

  lemma OriginsExactly(canonical: string -> bool, origins: seq<string>)
    ensures OriginsValid(canonical, origins) <==> OriginsGood(canonical, origins)
  {
    hide Less, ByteLength;
    if StrictlyIncreasing(origins) { AllInOrder(origins); }
  }

  lemma SlotsExactly(slots: seq<CredentialSlot>)
    ensures SlotsValid(slots) && |slots| <= 128 <==> SlotsGood(slots)
  {
    hide Less, Symbol, Identifier;
    if SlotsValid(slots) {
      var names := seq(|slots|, i requires 0 <= i < |slots| => slots[i].slot);
      AllInOrder(names);
      forall i, j | 0 <= i < j < |slots| ensures Less(slots[i].slot, slots[j].slot) { assert Less(names[i], names[j]); }
    }
  }

  predicate CallGood(canonical: string -> bool, c: Call) {
    && Named(c) && Carried(c.kind, c.profileVersion, c.outerProtocol, c.innerProtocol) && Fits(c)
    && OriginsGood(canonical, c.origins) && EffectsGood(c.effects) && SlotsGood(c.credentialSlots)
  }

  lemma FitsExactly(c: Call)
    ensures KindValid(c) <==> Fits(c) && FamilyOf(c.kind, c.profileVersion)
  {
    hide HasPrefix, Symbol, Identifier;
  }

  lemma CallExactly(canonical: string -> bool, c: Call)
    ensures CallValid(canonical, c) <==> CallGood(canonical, c)
  {
    hide ProtocolPairValid, KindValid, Carried, FamilyOf, Fits, OriginsValid, OriginsGood, SlotsValid, SlotsGood, Identifier, DigestText, ActionKey, EffectName;
    CarriedExactly(c);
    FitsExactly(c);
    OriginsExactly(canonical, c.origins);
    SlotsExactly(c.credentialSlots);
  }

  // ---------- Configurations ----------

  ghost predicate Uses(c: Config, name: string) {
    exists i, j :: 0 <= i < |c.calls| && 0 <= j < |c.calls[i].credentialSlots| && c.calls[i].credentialSlots[j].name == name
  }

  ghost predicate Visits(c: Config, origin: string) {
    exists i, j :: 0 <= i < |c.calls| && 0 <= j < |c.calls[i].origins| && c.calls[i].origins[j] == origin
  }

  /** A right over the session: the session's own, and some call's of that session. */
  ghost predicate Rights(c: Config) {
    && (forall i :: 0 <= i < |c.calls| && (c.calls[i].reuseAllowed || c.calls[i].saveAllowed) ==>
          c.session.Some? && c.calls[i].sessionName == c.session.value.name)
    && (c.session.Some? ==>
          var s := c.session.value;
          && (s.reuseAllowed <==> exists i :: 0 <= i < |c.calls| && c.calls[i].sessionName == s.name && c.calls[i].reuseAllowed)
          && (s.saveAllowed <==> exists i :: 0 <= i < |c.calls| && c.calls[i].sessionName == s.name && c.calls[i].saveAllowed))
    && forall i, j :: 0 <= i < j < |c.calls| && c.calls[i].saveAllowed ==> !c.calls[j].saveAllowed
  }

  /** The session's life: at most thirty days, begun before the deadline. */
  predicate Lives(s: Session, deadline: Stamp) {
    && Identifier(s.name) && DigestText(s.bindingSha) && 1 <= s.generation <= 9007199254740991
    && s.createdUtc && s.expiresUtc && s.createdAt.At? && s.expiresAt.At? && deadline.At?
    && s.createdAt.time < s.expiresAt.time <= s.createdAt.time + 2592000000000000
    && s.createdAt.time < deadline.time
  }

  /** The revisions are those of the credentials the calls use, one each, in order. */
  ghost predicate RevisionsGood(c: Config) {
    && (forall i :: 0 <= i < |c.revisions| ==> Identifier(c.revisions[i].name) && Identifier(c.revisions[i].revision))
    && (forall i, j :: 0 <= i < j < |c.revisions| ==> Less(c.revisions[i].name, c.revisions[j].name))
    && forall name :: Uses(c, name) <==> exists i :: 0 <= i < |c.revisions| && c.revisions[i].name == name
  }

  predicate HeadGood(canonical: string -> bool, c: Config) {
    && c.version == "openudon.browser-config.v1"
    && Identifier(c.ownerId) && Identifier(c.agentId) && Identifier(c.runId) && Identifier(c.launchNonce) && Identifier(c.containmentLeaseId)
    && Identifier(c.worker.profile) && DigestText(c.worker.binarySha) && DigestText(c.worker.closureSha) && CommitText(c.worker.runtimeRevision)
    && DigestText(c.planSha) && DigestText(c.workflowSha) && DigestText(c.driverClosureSha)
    && (forall i :: 0 <= i < |c.digests| ==> DigestText(c.digests[i]))
    && OriginsGood(canonical, c.origins) && c.admittedDeadline.At?
    && 1 <= |c.calls| <= 100 && |c.revisions| <= 128 && 1 <= |c.factRefs| <= 128
    && (forall i :: 0 <= i < |c.factRefs| ==> Identifier(c.factRefs[i]))
    && forall i, j :: 0 <= i < j < |c.factRefs| ==> c.factRefs[i] != c.factRefs[j]
  }

  ghost predicate ConfigGood(canonical: string -> bool, c: Config) {
    && HeadGood(canonical, c)
    && (forall i :: 0 <= i < |c.calls| ==> CallGood(canonical, c.calls[i]))
    && (forall i, j :: 0 <= i < j < |c.calls| ==> c.calls[i].stepId != c.calls[j].stepId && c.calls[i].operationId != c.calls[j].operationId)
    && (forall o :: Visits(c, o) <==> o in c.origins)
    && Rights(c) && RevisionsGood(c) && (c.session.Some? ==> Lives(c.session.value, c.admittedDeadline))
  }

  lemma HeadExactly(canonical: string -> bool, c: Config)
    ensures HeadOk(canonical, c) && AllValid(DigestText, c.digests) && AllValid(Identifier, c.factRefs) && Distinct(c.factRefs) <==> HeadGood(canonical, c)
  {
    hide Identifier, DigestText, CommitText, OriginsValid, OriginsGood;
    OriginsExactly(canonical, c.origins);
  }

  lemma RevisionsExactly(c: Config)
    ensures RevisionsOk(c) <==> RevisionsGood(c)
  {
    hide Less, Identifier;
    if RevisionsOk(c) {
      IncreasingNames(c.revisions);
      RevisionsCover(c);
    }
    if RevisionsGood(c) {
      forall i, j | 0 <= i < j < |c.revisions| ensures c.revisions[i].name != c.revisions[j].name {
        LessTotal(c.revisions[i].name, c.revisions[j].name);
      }
      DistinctCount(c.revisions);
      var names := set i | 0 <= i < |c.revisions| :: c.revisions[i].name;
      forall name ensures name in names <==> name in SlotNames(c.calls) { UsesIs(c, name); }
      assert names == SlotNames(c.calls);
    }
  }

  lemma UsesIs(c: Config, name: string)
    ensures Uses(c, name) <==> name in SlotNames(c.calls)
  {
  }

  lemma RevisionsCover(c: Config)
    requires RevisionsOk(c) && forall i, j :: 0 <= i < j < |c.revisions| ==> c.revisions[i].name != c.revisions[j].name
    ensures forall name :: Uses(c, name) <==> exists i :: 0 <= i < |c.revisions| && c.revisions[i].name == name
  {
    hide Less, Identifier;
    var names := set i | 0 <= i < |c.revisions| :: c.revisions[i].name;
    DistinctCount(c.revisions);
    SubsetOfSameSize(names, SlotNames(c.calls));
    forall name ensures Uses(c, name) <==> name in names { UsesIs(c, name); }
  }

  lemma SessionExactly(c: Config)
    ensures SessionOk(c) && (forall i :: 0 <= i < |c.calls| ==> Permitted(c.session, c.calls[i])) && AtMostOneSave(c.calls) <==>
            Rights(c) && (c.session.Some? ==> Lives(c.session.value, c.admittedDeadline))
  {
    hide Identifier, DigestText;
  }

  lemma OriginsCover(c: Config)
    ensures CallOrigins(c.calls) == (set o | o in c.origins) <==> forall o :: Visits(c, o) <==> o in c.origins
  {
    forall o ensures Visits(c, o) <==> o in CallOrigins(c.calls) {}
    if forall o :: Visits(c, o) <==> o in c.origins {
      assert CallOrigins(c.calls) == (set o | o in c.origins);
    }
  }

  lemma ConfigExactly(canonical: string -> bool, c: Config)
    ensures ConfigValid(canonical, c) <==> ConfigGood(canonical, c)
  {
    hide HeadOk, HeadGood, AllValid, Distinct, CallValid, CallGood, CallOrigins, Visits, RevisionsOk, RevisionsGood, SessionOk, Rights, Lives, Permitted, AtMostOneSave;
    HeadExactly(canonical, c);
    forall i | 0 <= i < |c.calls| ensures CallValid(canonical, c.calls[i]) <==> CallGood(canonical, c.calls[i]) { CallExactly(canonical, c.calls[i]); }
    OriginsCover(c);
    RevisionsExactly(c);
    SessionExactly(c);
  }
}
