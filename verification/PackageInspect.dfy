/** inspectSnapshot (packagev3/snapshot.go) and what its acceptance means. */
module PackageInspect {
  import opened Common
  import opened Digests
  import opened PackageRecords
  import opened PackageFiles
  import opened PackageAssessment

  datatype Snapshot = Snapshot(files: Files, manifest: Manifest, assessment: Assessment, handoff: Handoff, sha: string)

  // ---------- What is accepted ----------

  predicate ManifestRead(h: Host, scope: string, files: Files) {
    var bytes := FileAt(files, MANIFEST_PATH);
    var m := h.manifests.decode(bytes);
    m.Some? && ManifestValid(h.screen.grammar, m.value) && m.value.scope == scope && h.manifests.encode(m.value) == bytes
  }

  function ManifestIn(h: Host, scope: string, files: Files): Manifest
    requires ManifestRead(h, scope, files)
  {
    h.manifests.decode(FileAt(files, MANIFEST_PATH)).value
  }

  predicate HandoffRead(h: Host, scope: string, files: Files) {
    var bytes := FileAt(files, HANDOFF_PATH);
    var review := h.handoffs.decode(bytes);
    review.Some? && HandoffValid(h.screen.grammar, review.value) && review.value.scope == scope && h.handoffs.encode(review.value) == bytes
  }

  function HandoffIn(h: Host, scope: string, files: Files): Handoff
    requires HandoffRead(h, scope, files)
  {
    h.handoffs.decode(FileAt(files, HANDOFF_PATH)).value
  }

  predicate AssessmentRead(h: Host, files: Files) {
    var bytes := FileAt(files, ASSESSMENT_PATH);
    var a := h.assessments.decode(bytes);
    a.Some? && AssessmentValid(h.screen.grammar, a.value) && h.assessments.encode(a.value) == bytes
  }

  function AssessmentIn(h: Host, files: Files): Assessment
    requires AssessmentRead(h, files)
  {
    h.assessments.decode(FileAt(files, ASSESSMENT_PATH)).value
  }

  /** The files are as many as the inputs and the three records, each is one of them, and
      every input has its recorded hash. */
  predicate InputsMatch(h: Host, files: Files, inputs: seq<Artifact>) {
    && |files| == |inputs| + 3
    && (forall i :: 0 <= i < |inputs| ==> h.screen.hash(FileAt(files, inputs[i].path)) == inputs[i].sha)
    && (forall path :: path in files ==> path in RECORD_PATHS + PathsOf(inputs))
  }

  predicate Bound(h: Host, files: Files, a: Artifact) {
    a.path in files && h.screen.hash(files[a.path]) == a.sha
  }

  predicate ArtifactsMatch(h: Host, files: Files, artifacts: seq<Artifact>) {
    |artifacts| == |files| - 1 && forall i :: 0 <= i < |artifacts| ==> Bound(h, files, artifacts[i])
  }

  predicate RecordsAgree(h: Host, scope: string, files: Files, m: Manifest, review: Handoff, a: Assessment) {
    var digest := InputDigest(h.sealing, m);
    && digest.Some? && review.inputs == digest.value && a.inputs == digest.value && a.scope == scope
    && review.manifest == h.screen.hash(FileAt(files, MANIFEST_PATH)) && review.assessment == h.screen.hash(FileAt(files, ASSESSMENT_PATH))
    && a.manifest == review.manifest
  }

  ghost predicate DigestIs(h: Host, scope: string, files: Files, expected: string) {
    exists entries :: Enumerates(h.screen, entries, files) && Digest(h.sealing, scope, DIGEST_VERSION, entries) == Some(expected)
  }

  ghost predicate Accepted(h: Host, scope: string, expected: string, files: Files) {
    && h.screen.grammar.scope(scope) && DigestText(expected) && 6 <= |files| <= MAX_FILES && Stored(h.screen, files)
    && ManifestRead(h, scope, files) && InputsMatch(h, files, Inputs(ManifestIn(h, scope, files)))
    && HandoffRead(h, scope, files) && ArtifactsMatch(h, files, HandoffIn(h, scope, files).artifacts)
    && AssessmentRead(h, files)
    && RecordsAgree(h, scope, files, ManifestIn(h, scope, files), HandoffIn(h, scope, files), AssessmentIn(h, files))
    && DigestIs(h, scope, files, expected)
  }

  // ---------- The loops ----------

  /** The first loop: every file screened and copied, in whatever order the map gives. */
  method CopyFiles(s: Screen, given: Files) returns (ok: bool, files: Files)
    ensures ok <==> Stored(s, given)
    ensures ok ==> files == given
  {
    files := map[];
    var total, left := 0, given.Keys;
    hide FileOk, TotalBytes;
    NoBytes();
    while left != {}
      invariant left <= given.Keys && files.Keys == given.Keys - left
      invariant forall path :: path in files ==> files[path] == given[path] && FileOk(s, path, files[path])
      invariant total == TotalBytes(files) <= MAX_TOTAL_BYTES
      decreases |left|
    {
      var path :| path in left;
      var data := given[path];
      TotalAdded(files, path, data);
      if !FileOk(s, path, data) { return false, files; }
      if |data| > MAX_TOTAL_BYTES - total {
        TotalOfPart(files[path := data], given);
        return false, files;
      }
      files, total, left := files[path := data], total + |data|, left - {path};
    }
    assert files == given;
    return true, files;
  }

  lemma NoBytes()
    ensures TotalBytes(map[]) == 0
  {
  }

  lemma {:induction false} TotalOfPart(part: Files, files: Files)
    requires part.Keys <= files.Keys && forall path :: path in part ==> part[path] == files[path]
    ensures TotalBytes(part) <= TotalBytes(files)
    decreases |files|
  {
    if path :| path in files && path !in part {
      TotalWithout(files, path);
      TotalOfPart(part, files - {path});
    } else {
      assert part == files;
    }
  }

  method MatchInputs(h: Host, files: Files, inputs: seq<Artifact>) returns (ok: bool)
    ensures ok <==> InputsMatch(h, files, inputs)
  {
    if |files| != |inputs| + 3 { return false; }
    var expected := RECORD_PATHS;
    assert PathsOf(inputs[..0]) == {};
    for i := 0 to |inputs|
      invariant expected == RECORD_PATHS + PathsOf(inputs[..i])
      invariant forall k :: 0 <= k < i ==> h.screen.hash(FileAt(files, inputs[k].path)) == inputs[k].sha
    {
      PathsNext(inputs, i);
      expected := expected + {inputs[i].path};
      if h.screen.hash(FileAt(files, inputs[i].path)) != inputs[i].sha { return false; }
    }
    assert inputs[..|inputs|] == inputs;
    return forall path :: path in files ==> path in expected;
  }

  lemma PathsNext(files: seq<Artifact>, i: nat)
    requires i < |files|
    ensures PathsOf(files[..i + 1]) == PathsOf(files[..i]) + {files[i].path}
  {
    var head := files[..i + 1];
    assert forall k :: 0 <= k < i ==> head[k] == files[..i][k];
    assert head[i] == files[i];
  }

  method MatchArtifacts(h: Host, files: Files, artifacts: seq<Artifact>) returns (ok: bool)
    ensures ok <==> ArtifactsMatch(h, files, artifacts)
  {
    if |artifacts| != |files| - 1 { return false; }
    for i := 0 to |artifacts|
      invariant forall k :: 0 <= k < i ==> Bound(h, files, artifacts[k])
    {
      if !Bound(h, files, artifacts[i]) { return false; }
    }
    return true;
  }

  lemma DigestOf(h: Host, scope: string, files: Files, entries: seq<Artifact>, expected: string)
    requires JoinsApart(h.sealing) && Enumerates(h.screen, entries, files)
    ensures DigestIs(h, scope, files, expected) <==> Digest(h.sealing, scope, DIGEST_VERSION, entries) == Some(expected)
  {
    hide Digest, Enumerates;
    if DigestIs(h, scope, files, expected) {
      var other :| Enumerates(h.screen, other, files) && Digest(h.sealing, scope, DIGEST_VERSION, other) == Some(expected);
      EnumerationsAgree(h.screen, entries, other, files);
      DigestIgnoresOrder(h.sealing, scope, DIGEST_VERSION, entries, other);
    }
  }

  /** inspectSnapshot. */
  method InspectSnapshot(h: Host, scope: string, expected: string, given: Files) returns (r: Option<Snapshot>)
    requires JoinsApart(h.sealing)
    ensures r.Some? <==> Accepted(h, scope, expected, given)
    ensures r.Some? ==> r.value == Snapshot(given, ManifestIn(h, scope, given), AssessmentIn(h, given), HandoffIn(h, scope, given), expected)
  {
    hide Stored, ManifestValid, HandoffValid, AssessmentValid, InputsMatch, ArtifactsMatch, Sort, Digest, DigestIs, DigestText, Enumerates;
    if !h.screen.grammar.scope(scope) || !DigestText(expected) || |given| < 6 || |given| > MAX_FILES { return None; }
    var ok, files := CopyFiles(h.screen, given);
    if !ok { return None; }
    var manifest := h.manifests.decode(FileAt(files, MANIFEST_PATH));
    if manifest.None? { return None; }
    var inputs := InputArtifacts(h.screen.grammar, manifest.value);
    if inputs.None? || manifest.value.scope != scope || h.manifests.encode(manifest.value) != FileAt(files, MANIFEST_PATH) { return None; }
    ok := MatchInputs(h, files, inputs.value);
    if !ok { return None; }
    var review := h.handoffs.decode(FileAt(files, HANDOFF_PATH));
    if review.None? { return None; }
    ok := ValidateHandoff(h.screen.grammar, review.value);
    if !ok || review.value.scope != scope || h.handoffs.encode(review.value) != FileAt(files, HANDOFF_PATH) { return None; }
    ok := MatchArtifacts(h, files, review.value.artifacts);
    if !ok { return None; }
    var assessment := h.assessments.decode(FileAt(files, ASSESSMENT_PATH));
    if assessment.None? { return None; }
    ok := ValidateAssessment(h.screen.grammar, assessment.value);
    if !ok || h.assessments.encode(assessment.value) != FileAt(files, ASSESSMENT_PATH) { return None; }
    var digest := DigestFiles(h.sealing, manifest.value.scope, DIGEST_VERSION, inputs.value);
    if digest.None? || !RecordsAgree(h, scope, files, manifest.value, review.value, assessment.value) { return None; }
    var entries := Enumerate(h.screen, files);
    var sum := DigestFiles(h.sealing, scope, DIGEST_VERSION, entries);
    DigestOf(h, scope, files, entries, expected);
    if sum != Some(expected) { return None; }
    return Some(Snapshot(files, manifest.value, assessment.value, review.value, sum.value));
  }

  // ---------- What acceptance means ----------

  lemma {:induction false} PathsCount(files: seq<Artifact>)
    requires forall i, j :: 0 <= i < j < |files| ==> files[i].path != files[j].path
    ensures |PathsOf(files)| == |files|
  {
    if files != [] {
      var front, last := files[..|files| - 1], files[|files| - 1];
      assert forall i :: 0 <= i < |front| ==> front[i] == files[i];
      PathsCount(front);
      assert last.path !in PathsOf(front);
      PathsNext(files, |files| - 1);
      assert files[..|files|] == files;
      hide PathsOf;
      assert |PathsOf(front) + {last.path}| == |PathsOf(front)| + 1;
    }
  }

  lemma RecordPathsCount()
    ensures |RECORD_PATHS| == 3
  {
    assert |MANIFEST_PATH| == 21 && |ASSESSMENT_PATH| == 24 && |HANDOFF_PATH| == 28;
    assert RECORD_PATHS == {MANIFEST_PATH} + {ASSESSMENT_PATH} + {HANDOFF_PATH};
  }

  lemma SamePaths(x: seq<Artifact>, y: seq<Artifact>)
    requires forall a :: a in x ==> a in y
    ensures PathsOf(x) <= PathsOf(y)
  {
    forall path | path in PathsOf(x) ensures path in PathsOf(y) {
      var i :| 0 <= i < |x| && x[i].path == path;
      assert x[i] in x;
      var j :| 0 <= j < |y| && y[j] == x[i];
    }
  }

  lemma SortedInputs(m: Manifest)
    ensures forall a :: a in Inputs(m) <==> a in Named(m)
    ensures |Inputs(m)| == |Named(m)| && PathsOf(Inputs(m)) == PathsOf(Named(m))
  {
    hide Sort, Named;
    var x, y := Inputs(m), Named(m);
    forall a ensures a in x <==> a in y {
      assert a in x <==> a in multiset(x);
    }
    SamePaths(x, y);
    SamePaths(y, x);
  }

  lemma ExactKeys(files: Files, paths: set<string>, records: set<string>)
    requires files.Keys <= records + paths && paths !! records && |files| == |paths| + |records|
    ensures files.Keys == paths + records
  {
    assert |records + paths| == |records| + |paths|;
    assert |files.Keys| == |files|;
    SubsetOfSameSize(files.Keys, records + paths);
  }

  /** Counting alone makes the file set exact and binds every input. */
  lemma MatchedFiles(h: Host, files: Files, m: Manifest)
    requires InputsMatch(h, files, Inputs(m)) && Apart(Named(m))
    ensures files.Keys == PathsOf(Named(m)) + RECORD_PATHS && PathsOf(Named(m)) !! RECORD_PATHS
    ensures forall a :: a in Named(m) ==> Bound(h, files, a)
  {
    SortedInputs(m);
    hide Named, Inputs;
    PathsCount(Named(m));
    RecordPathsCount();
    Outside(Named(m));
    ExactKeys(files, PathsOf(Named(m)), RECORD_PATHS);
    forall a | a in Named(m) ensures Bound(h, files, a) {
      var i :| 0 <= i < |Inputs(m)| && Inputs(m)[i] == a;
      assert a.path in PathsOf(Inputs(m));
    }
  }

  lemma Outside(files: seq<Artifact>)
    requires Apart(files)
    ensures PathsOf(files) !! RECORD_PATHS
  {
  }

  /** The file set is exactly the manifest's inputs plus three records. */
  lemma AcceptedFiles(h: Host, scope: string, expected: string, files: Files)
    requires Accepted(h, scope, expected, files)
    ensures var m := ManifestIn(h, scope, files);
            && files.Keys == PathsOf(Named(m)) + RECORD_PATHS && PathsOf(Named(m)) !! RECORD_PATHS
            && forall a :: a in Named(m) ==> Bound(h, files, a)
  {
    hide Stored, DigestText, HandoffRead, AssessmentRead, DigestIs, HeadValid, SourcesValid, BrowserValid, InputsMatch, Apart, Bound, PathsOf;
    MatchedFiles(h, files, ManifestIn(h, scope, files));
  }

  lemma HandoffOrdered(h: Host, scope: string, files: Files)
    requires HandoffRead(h, scope, files)
    ensures var artifacts := HandoffIn(h, scope, files).artifacts;
            && HANDOFF_PATH !in PathsOf(artifacts)
            && forall i, j :: 0 <= i < j < |artifacts| ==> artifacts[i].path != artifacts[j].path
  {
    hide DigestText, ArtifactValid, Lists, Less, CredentialsListed;
    var artifacts := HandoffIn(h, scope, files).artifacts;
    forall i, j | 0 <= i < j < |artifacts| ensures artifacts[i].path != artifacts[j].path {
      LessTotal(artifacts[i].path, artifacts[j].path);
    }
  }

  /** Counting makes the artifacts of the handoff exactly the other files. */
  lemma ArtifactsBind(h: Host, files: Files, artifacts: seq<Artifact>)
    requires ArtifactsMatch(h, files, artifacts) && HANDOFF_PATH in files && HANDOFF_PATH !in PathsOf(artifacts)
    requires forall i, j :: 0 <= i < j < |artifacts| ==> artifacts[i].path != artifacts[j].path
    ensures PathsOf(artifacts) == files.Keys - {HANDOFF_PATH}
    ensures forall i :: 0 <= i < |artifacts| ==> Bound(h, files, artifacts[i])
  {
    PathsCount(artifacts);
    SubsetOfSameSize(PathsOf(artifacts), files.Keys - {HANDOFF_PATH});
  }

  lemma HasHandoff(h: Host, scope: string, expected: string, files: Files)
    requires Accepted(h, scope, expected, files)
    ensures HANDOFF_PATH in files
  {
    hide Stored, DigestText, ManifestRead, HandoffRead, AssessmentRead, DigestIs, InputsMatch, ArtifactsMatch, RecordsAgree, PathsOf, Named;
    AcceptedFiles(h, scope, expected, files);
  }

  /** Every file but the handoff itself is bound by its hash in the handoff. */
  lemma AcceptedBinding(h: Host, scope: string, expected: string, files: Files)
    requires Accepted(h, scope, expected, files)
    ensures var review := HandoffIn(h, scope, files);
            && PathsOf(review.artifacts) == files.Keys - {HANDOFF_PATH}
            && forall i :: 0 <= i < |review.artifacts| ==> Bound(h, files, review.artifacts[i])
  {
    hide Stored, DigestText, ManifestRead, HandoffRead, AssessmentRead, DigestIs, InputsMatch, ArtifactsMatch, RecordsAgree, PathsOf, Bound, HandoffIn;
    HasHandoff(h, scope, expected, files);
    HandoffOrdered(h, scope, files);
    ArtifactsBind(h, files, HandoffIn(h, scope, files).artifacts);
  }
}
