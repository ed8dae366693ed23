/** Validating handoffs and assessments, and assessing a package (packagev3/records.go and
    Assess in packagev3/build.go). The checks that walk the workflow enter as the sequence
    of findings they add. */
module PackageAssessment {
  import opened Common
  import opened Digests
  import opened PackageRecords
  import opened PackageFiles
  import SupplementAgreement
  import BrowserSupplement

  // ---------- Handoff.Validate ----------

  /** One artifact of a handoff, by itself. */
  predicate ListedOk(g: Grammar, h: Handoff, f: Artifact) {
    && ArtifactValid(g, f) && f.path !in ["", HANDOFF_PATH]
    && (f.path == MANIFEST_PATH ==> f.sha == h.manifest) && (f.path == ASSESSMENT_PATH ==> f.sha == h.assessment)
  }

  const REQUIRED_PATHS := {WORKFLOW_PATH, DATA_PATH, SHAPES_PATH, MANIFEST_PATH, ASSESSMENT_PATH}

  predicate PathsIncrease(files: seq<Artifact>) {
    forall k, l :: 0 <= k < l < |files| ==> Less(files[k].path, files[l].path)
  }

  lemma ListedWhen(g: Grammar, h: Handoff)
    ensures ArtifactsListed(g, h) <==>
            PathsIncrease(h.artifacts) && (forall k :: 0 <= k < |h.artifacts| ==> ListedOk(g, h, h.artifacts[k])) && REQUIRED_PATHS <= PathsOf(h.artifacts)
  {
    hide ArtifactValid, Less;
    forall path ensures Lists(h.artifacts, path) <==> path in PathsOf(h.artifacts) {
    }
  }

  lemma IncreaseNext(files: seq<Artifact>, i: nat, previous: string)
    requires i < |files| && PathsIncrease(files[..i]) && previous == if i == 0 then "" else files[i - 1].path
    ensures PathsIncrease(files) && files[i].path != "" ==> Less(previous, files[i].path) && files[i].path !in PathsOf(files[..i])
    ensures Less(previous, files[i].path) ==> PathsIncrease(files[..i + 1])
    ensures PathsOf(files[..i + 1]) == PathsOf(files[..i]) + {files[i].path}
  {
    var head := files[..i + 1];
    assert forall k :: 0 <= k < i ==> head[k] == files[..i][k];
    assert head[i] == files[i];
    if Less(previous, files[i].path) {
      forall k | 0 <= k < i ensures Less(head[k].path, head[i].path) {
        if k < i - 1 {
          assert Less(files[..i][k].path, files[..i][i - 1].path);
          LessTransitive(head[k].path, previous, files[i].path);
        }
      }
    }
    if PathsIncrease(files) {
      forall k | 0 <= k < i ensures files[..i][k].path != files[i].path {
        LessTotal(files[k].path, files[i].path);
      }
    }
  }

  /** The artifact loop of Handoff.Validate. */
  method CheckArtifacts(g: Grammar, h: Handoff) returns (ok: bool)
    ensures ok <==> ArtifactsListed(g, h)
  {
    var files := h.artifacts;
    var paths: set<string>, previous := {}, "";
    ListedWhen(g, h);
    assert files[..0] == [] && PathsIncrease(files[..0]) && PathsOf(files[..0]) == {};
    NonEmptyPaths(g, h);
    hide ListedOk, PathsOf, PathsIncrease, Less, ArtifactsListed;
    for i := 0 to |files|
      invariant previous == if i == 0 then "" else files[i - 1].path
      invariant PathsIncrease(files[..i]) && paths == PathsOf(files[..i])
      invariant forall k :: 0 <= k < i ==> ListedOk(g, h, files[k])
    {
      var f := files[i];
      IncreaseNext(files, i, previous);
      if !ListedOk(g, h, f) || f.path in paths || !Less(previous, f.path) { return false; }
      paths, previous := paths + {f.path}, f.path;
    }
    assert files[..|files|] == files;
    return REQUIRED_PATHS <= paths;
  }

  lemma NonEmptyPaths(g: Grammar, h: Handoff)
    ensures forall k :: 0 <= k < |h.artifacts| && ListedOk(g, h, h.artifacts[k]) ==> h.artifacts[k].path != ""
  {
    hide ArtifactValid;
  }

  method CheckCredentials(names: seq<string>) returns (ok: bool)
    ensures ok <==> CredentialsListed(names)
  {
    var seen: set<string> := {};
    for i := 0 to |names|
      invariant forall k, l :: 0 <= k < l < i ==> names[k] != names[l]
      invariant forall k :: 0 <= k < i ==> AuthorityId(names[k])
      invariant forall name :: name in seen <==> exists k :: 0 <= k < i && names[k] == name
    {
      if !AuthorityId(names[i]) || names[i] in seen { return false; }
      seen := seen + {names[i]};
    }
    return true;
  }

  method ValidateHandoff(g: Grammar, h: Handoff) returns (ok: bool)
    ensures ok <==> HandoffValid(g, h)
  {
    hide ArtifactsListed, CredentialsListed, DigestText;
    if h.version != HANDOFF_VERSION || !g.scope(h.scope) || !DigestText(h.inputs) || !DigestText(h.manifest) || !DigestText(h.assessment)
       || h.reviewState != "review_required" || |h.artifacts| < 5 || |h.artifacts| > MAX_FILES || |h.credentials| > 64 {
      return false;
    }
    ok := CheckArtifacts(g, h);
    if !ok { return; }
    ok := CheckCredentials(h.credentials);
  }

  method ValidateAssessment(g: Grammar, a: Assessment) returns (ok: bool)
    ensures ok <==> AssessmentValid(g, a)
  {
    hide FindingValid, DigestText;
    if a.version != ASSESSMENT_VERSION || !g.scope(a.scope) || !DigestText(a.inputs) || !DigestText(a.manifest) || |a.findings| > 128 { return false; }
    for i := 0 to |a.findings|
      invariant forall k :: 0 <= k < i ==> FindingValid(g, a.findings[k])
    {
      if !FindingValid(g, a.findings[i]) { return false; }
    }
    return true;
  }

  // ---------- Joining outcomes ----------

  /** One call of the add closure. */
  datatype Remark = Remark(code: string, outcome: Outcome)

  function Rank(o: Outcome): nat {
    match o
    case Compatible => 0
    case IndeterminateOutcome => 1
    case Incompatible => 2
  }

  /** The worst outcome remarked. */
  function Worst(remarks: seq<Remark>): (r: Outcome)
    ensures forall i :: 0 <= i < |remarks| ==> Rank(remarks[i].outcome) <= Rank(r)
    ensures r.Compatible? || exists i :: 0 <= i < |remarks| && remarks[i].outcome == r
  {
    if remarks == [] then Compatible
    else
      var front, last := remarks[..|remarks| - 1], remarks[|remarks| - 1].outcome;
      assert forall i :: 0 <= i < |front| ==> remarks[i] == front[i];
      if Rank(Worst(front)) < Rank(last) then assert remarks[|remarks| - 1].outcome == last; last else Worst(front)
  }

  function Kept(remarks: seq<Remark>): (r: seq<Finding>)
    ensures |r| == if |remarks| < 128 then |remarks| else 128
    ensures forall i :: 0 <= i < |r| ==> r[i] == Finding(remarks[i].code, WORKFLOW_PATH, remarks[i].outcome)
  {
    seq(if |remarks| < 128 then |remarks| else 128, i requires 0 <= i < |remarks| => Finding(remarks[i].code, WORKFLOW_PATH, remarks[i].outcome))
  }

  /** An assessment after its remarks: the first 128 are kept, none is forgotten in the
      outcome. */
  function Judged(base: Assessment, remarks: seq<Remark>): Assessment {
    base.(outcome := Worst(remarks), findings := Kept(remarks), truncated := |remarks| > 128)
  }

  /** The add closure. */
  method Add(a: Assessment, code: string, outcome: Outcome, ghost base: Assessment, ghost remarks: seq<Remark>) returns (r: Assessment)
    requires a == Judged(base, remarks)
    ensures r == Judged(base, remarks + [Remark(code, outcome)])
  {
    ghost var more := remarks + [Remark(code, outcome)];
    assert more[..|more| - 1] == remarks;
    r := a;
    if |r.findings| < 128 {
      r := r.(findings := r.findings + [Finding(code, WORKFLOW_PATH, outcome)]);
    } else {
      r := r.(truncated := true);
    }
    assert r.findings == Kept(more);
    if outcome == Incompatible || (outcome == IndeterminateOutcome && r.outcome == Compatible) {
      r := r.(outcome := outcome);
    }
  }

  method AddAll(base: Assessment, remarks: seq<Remark>) returns (a: Assessment)
    requires base.outcome == Compatible && base.findings == [] && !base.truncated
    ensures a == Judged(base, remarks)
  {
    a := base;
    assert base == Judged(base, remarks[..0]);
    for i := 0 to |remarks|
      invariant a == Judged(base, remarks[..i])
    {
      assert remarks[..i + 1] == remarks[..i] + [remarks[i]];
      a := Add(a, remarks[i].code, remarks[i].outcome, base, remarks[..i]);
    }
    assert remarks[..|remarks|] == remarks;
  }

  predicate Occurs(o: Outcome, remarks: seq<Remark>) {
    exists i :: 0 <= i < |remarks| && remarks[i].outcome == o
  }

  /** The outcome does not depend on the order of the remarks. */
  lemma WorstIgnoresOrder(a: seq<Remark>, b: seq<Remark>)
    requires forall o :: Occurs(o, a) <==> Occurs(o, b)
    ensures Worst(a) == Worst(b)
  {
    assert Occurs(Worst(a), a) || Worst(a) == Compatible;
    assert Occurs(Worst(b), b) || Worst(b) == Compatible;
  }

  // ---------- Assess ----------

  /** A record's strict decoding and its encoding. */
  datatype Codec<!T> = Codec(encode: T -> Bytes, decode: Bytes -> Option<T>)

  /** Everything Build and inspection need from outside: screening, digests, codecs, what
      the workflow and shape files mean, and the findings of the workflow checks. */
  datatype Host = Host(
    screen: Screen, sealing: Sealing,
    manifests: Codec<Manifest>, handoffs: Codec<Handoff>, assessments: Codec<Assessment>, supplements: SupplementAgreement.Codec,
    dataObject: Bytes -> bool, document: Bytes -> Option<BrowserSupplement.Document>, world: Bytes -> BrowserSupplement.World,
    shapes: (seq<Source>, Files, map<string, Bytes>) -> Option<Bytes>, shapesVerify: (seq<Source>, Files) -> bool,
    remarks: (Manifest, Files) -> Option<seq<Remark>>, credentials: (Manifest, Files) -> Option<seq<string>>)

  function FileAt(files: Files, path: string): Bytes {
    if path in files then files[path] else []
  }

  /** A manifest source, as the browser supplement sees it. */
  function BrowserSource(s: Source): BrowserSupplement.Source {
    BrowserSupplement.Source(s.id,
      if s.kind == BROWSER_KIND then BrowserSupplement.BrowserProfile else if s.kind == RUNTIME_KIND then BrowserSupplement.RuntimeSource else BrowserSupplement.ApiSource,
      s.artifact.path, s.artifact.sha)
  }

  function BrowserSources(sources: seq<Source>): (r: seq<BrowserSupplement.Source>)
    ensures |r| == |sources| && forall i :: 0 <= i < |r| ==> r[i] == BrowserSource(sources[i])
  {
    seq(|sources|, i requires 0 <= i < |sources| => BrowserSource(sources[i]))
  }

  predicate InputOk(h: Host, files: Files, a: Artifact) {
    && a.path in files && 1 <= |files[a.path]| <= MAX_FILE_BYTES && h.screen.hash(files[a.path]) == a.sha && !h.screen.secret(files[a.path])
  }

  function InputSize(files: Files): Artifact -> nat {
    (a: Artifact) => |FileAt(files, a.path)|
  }

  predicate InputsOk(h: Host, files: Files, inputs: seq<Artifact>) {
    Total(InputSize(files), inputs) <= MAX_TOTAL_BYTES && forall i :: 0 <= i < |inputs| ==> InputOk(h, files, inputs[i])
  }

  method CheckInputs(h: Host, files: Files, inputs: seq<Artifact>) returns (ok: bool)
    ensures ok <==> InputsOk(h, files, inputs)
  {
    hide Total, InputOk;
    var total := 0;
    assert inputs[..0] == [];
    NoInputs(files);
    for i := 0 to |inputs|
      invariant total == Total(InputSize(files), inputs[..i]) <= MAX_TOTAL_BYTES
      invariant forall k :: 0 <= k < i ==> InputOk(h, files, inputs[k])
    {
      TotalNext(InputSize(files), inputs, i);
      var data := FileAt(files, inputs[i].path);
      if !InputOk(h, files, inputs[i]) || |data| > MAX_TOTAL_BYTES - total { return false; }
      total := total + |data|;
    }
    assert inputs[..|inputs|] == inputs;
    return true;
  }

  lemma NoInputs(files: Files)
    ensures Total(InputSize(files), []) == 0
  {
  }

  predicate BrowserVerified(h: Host, m: Manifest, files: Files) {
    m.browser.None? ||
    SupplementAgreement.Accepts(h.world(FileAt(files, SHAPES_PATH)), h.document(FileAt(files, WORKFLOW_PATH)), m.workflow.sha,
                                BrowserSources(m.sources), h.supplements, m.reviews, FileAt(files, BROWSER_PATH))
  }

  /** What Assess answers. */
  function Assessed(h: Host, m: Manifest, files: Files): Option<Assessment> {
    var digest, remarks := InputDigest(h.sealing, m), h.remarks(m, files);
    if ManifestValid(h.screen.grammar, m) && InputsOk(h, files, Inputs(m)) && h.dataObject(FileAt(files, DATA_PATH))
       && h.shapesVerify(m.sources, files) && BrowserVerified(h, m, files) && digest.Some? && remarks.Some?
    then
      Some(Judged(Assessment(ASSESSMENT_VERSION, m.scope, digest.value, h.screen.hash(h.manifests.encode(m)), Compatible, [], false), remarks.value))
    else None
  }

  method Assess(h: Host, m: Manifest, files: Files) returns (r: Option<Assessment>)
    ensures r == Assessed(h, m, files)
  {
    hide ManifestValid, InputsOk, Sort, Digest, Judged;
    var inputs := InputArtifacts(h.screen.grammar, m);
    if inputs.None? { return None; }
    var ok := CheckInputs(h, files, inputs.value);
    if !ok || !h.dataObject(FileAt(files, DATA_PATH)) || !h.shapesVerify(m.sources, files) { return None; }
    if m.browser.Some? {
      var supplement := SupplementAgreement.VerifyBrowserSupplement(
        h.world(FileAt(files, SHAPES_PATH)), h.document(FileAt(files, WORKFLOW_PATH)), m.workflow.sha,
        BrowserSources(m.sources), h.supplements, m.reviews, FileAt(files, BROWSER_PATH));
      if supplement.None? { return None; }
    }
    var digest := DigestFiles(h.sealing, m.scope, DIGEST_VERSION, inputs.value);
    if digest.None? { return None; }
    var remarks := h.remarks(m, files);
    if remarks.None? { return None; }
    var a := AddAll(Assessment(ASSESSMENT_VERSION, m.scope, digest.value, h.screen.hash(h.manifests.encode(m)), Compatible, [], false), remarks.value);
    return Some(a);
  }
}
