/** The records of a package (packagev3/records.go): manifest, handoff and assessment, what
    makes them valid, and the inputs a manifest names. Path and scope grammars are
    parameters; a record's fixed texts are constants. */
module PackageRecords {
  import opened Common
  import opened Digests

  const PACKAGE_VERSION := "openudon.package.v3"
  const HANDOFF_VERSION := "openudon.review-handoff.v3"
  const ASSESSMENT_VERSION := "openudon.assessment.v3"
  const SHAPE_VERSION := "uws.shape-table.v1"
  const DIGEST_VERSION := "openudon.handoff-package-digest.v1"
  const WORKFLOW_PATH := "workflows/workflow.uws.yaml"
  const DATA_PATH := "expected/data.json"
  const SHAPES_PATH := "expected/operation-shapes.json"
  const BROWSER_PATH := "expected/browser.json"
  const REVIEW_PREFIX := "expected/browser-review/"
  const MANIFEST_PATH := "expected/package.json"
  const ASSESSMENT_PATH := "expected/assessment.json"
  const HANDOFF_PATH := "expected/review-handoff.json"
  const BROWSER_KIND := "browser-profile"
  const RUNTIME_KIND := "runtime-function"
  const RUNTIME_ID := "udon-runtime-functions"
  const MAX_FILES: nat := 512
  const MAX_SOURCES: nat := 33
  const MAX_API_SOURCES: nat := 32

  datatype Source = Source(id: string, kind: string, artifact: Artifact)

  datatype Manifest = Manifest(
    version: string, scope: string, workflow: Artifact, data: Artifact, shapes: Artifact, shapeVersion: string,
    sources: seq<Source>, browser: Option<Artifact>, reviews: seq<Artifact>)

  datatype Handoff = Handoff(
    version: string, scope: string, inputs: string, manifest: string, assessment: string,
    artifacts: seq<Artifact>, reviewState: string, credentials: seq<string>)

  datatype Outcome = Compatible | IndeterminateOutcome | Incompatible

  datatype Finding = Finding(code: string, path: string, outcome: Outcome)

  datatype Assessment = Assessment(
    version: string, scope: string, inputs: string, manifest: string, outcome: Outcome, findings: seq<Finding>, truncated: bool)

  /** Public relative paths, clean scopes. */
  datatype Grammar = Grammar(publicPath: string -> bool, scope: string -> bool)

  predicate KindValid(kind: string) {
    kind in ["openapi", "google-discovery", "aws-smithy", "asyncapi", "graphql", "openrpc", "grpc-protobuf", "odata", RUNTIME_KIND, BROWSER_KIND]
  }

  predicate ArtifactValid(g: Grammar, a: Artifact) {
    g.publicPath(a.path) && DigestText(a.sha)
  }

  predicate SourceValid(g: Grammar, s: Source) {
    && AuthorityId(s.id) && KindValid(s.kind) && ArtifactValid(g, s.artifact)
    && "sources/" + s.kind + "/" <= s.artifact.path && (s.kind == RUNTIME_KIND ==> s.id == RUNTIME_ID)
  }

  predicate RecordPath(path: string) {
    path == MANIFEST_PATH || path == ASSESSMENT_PATH || path == HANDOFF_PATH
  }

  function SourceArtifacts(sources: seq<Source>): (r: seq<Artifact>)
    ensures |r| == |sources| && forall i :: 0 <= i < |r| ==> r[i] == sources[i].artifact
  {
    seq(|sources|, i requires 0 <= i < |sources| => sources[i].artifact)
  }

  /** Every input of the package, in the order the manifest names them. */
  function Named(m: Manifest): seq<Artifact> {
    [m.workflow, m.data, m.shapes] + SourceArtifacts(m.sources) + if m.browser.Some? then [m.browser.value] + m.reviews else []
  }

  /** The inputs take different paths, none of a record. */
  predicate Apart(files: seq<Artifact>) {
    && (forall i, j :: 0 <= i < j < |files| ==> files[i].path != files[j].path)
    && (forall i :: 0 <= i < |files| ==> !RecordPath(files[i].path))
  }

  function CountKind(sources: seq<Source>, runtime: bool): nat {
    if sources == [] then 0
    else CountKind(sources[..|sources| - 1], runtime) + if (sources[|sources| - 1].kind == RUNTIME_KIND) == runtime then 1 else 0
  }

  predicate SourcesValid(g: Grammar, sources: seq<Source>) {
    && (forall i :: 0 <= i < |sources| ==> SourceValid(g, sources[i]))
    && (forall i, j :: 0 <= i < j < |sources| ==> sources[i].id != sources[j].id)
    && CountKind(sources, true) <= 1 && CountKind(sources, false) <= MAX_API_SOURCES
  }

  predicate ReviewsValid(g: Grammar, reviews: seq<Artifact>) {
    && |reviews| <= 128
    && (forall i :: 0 <= i < |reviews| ==> ArtifactValid(g, reviews[i]) && REVIEW_PREFIX <= reviews[i].path)
    && (forall i, j :: 0 <= i < j < |reviews| ==> Less(reviews[i].path, reviews[j].path))
  }

  predicate HeadValid(g: Grammar, m: Manifest) {
    && m.version == PACKAGE_VERSION && g.scope(m.scope) && m.shapeVersion == SHAPE_VERSION && |m.sources| <= MAX_SOURCES
    && m.workflow.path == WORKFLOW_PATH && m.data.path == DATA_PATH && m.shapes.path == SHAPES_PATH
    && ArtifactValid(g, m.workflow) && ArtifactValid(g, m.data) && ArtifactValid(g, m.shapes)
  }

  predicate BrowserValid(g: Grammar, m: Manifest) {
    && ((exists i :: 0 <= i < |m.sources| && m.sources[i].kind == BROWSER_KIND) <==> m.browser.Some?)
    && (if m.browser.Some? then m.browser.value.path == BROWSER_PATH && ArtifactValid(g, m.browser.value) && ReviewsValid(g, m.reviews)
        else m.reviews == [])
  }

  predicate ManifestValid(g: Grammar, m: Manifest) {
    HeadValid(g, m) && SourcesValid(g, m.sources) && BrowserValid(g, m) && Apart(Named(m))
  }

  function Inputs(m: Manifest): seq<Artifact> {
    Sort(ByPath, Named(m))
  }

  function InputDigest(s: Sealing, m: Manifest): Option<string> {
    Digest(s, m.scope, DIGEST_VERSION, Inputs(m))
  }

  predicate HandoffValid(g: Grammar, h: Handoff) {
    && h.version == HANDOFF_VERSION && g.scope(h.scope) && DigestText(h.inputs) && DigestText(h.manifest) && DigestText(h.assessment)
    && h.reviewState == "review_required" && 5 <= |h.artifacts| <= MAX_FILES && |h.credentials| <= 64
    && ArtifactsListed(g, h) && CredentialsListed(h.credentials)
  }

  /** Artifacts in path order, with the package's own and without the handoff. */
  predicate ArtifactsListed(g: Grammar, h: Handoff) {
    && (forall i :: 0 <= i < |h.artifacts| ==> ArtifactValid(g, h.artifacts[i]) && h.artifacts[i].path !in ["", HANDOFF_PATH])
    && (forall i, j :: 0 <= i < j < |h.artifacts| ==> Less(h.artifacts[i].path, h.artifacts[j].path))
    && (forall path :: path in [WORKFLOW_PATH, DATA_PATH, SHAPES_PATH, MANIFEST_PATH, ASSESSMENT_PATH] ==> Lists(h.artifacts, path))
    && (forall i :: 0 <= i < |h.artifacts| ==>
          && (h.artifacts[i].path == MANIFEST_PATH ==> h.artifacts[i].sha == h.manifest)
          && (h.artifacts[i].path == ASSESSMENT_PATH ==> h.artifacts[i].sha == h.assessment))
  }

  predicate Lists(files: seq<Artifact>, path: string) {
    exists i :: 0 <= i < |files| && files[i].path == path
  }

  predicate CredentialsListed(names: seq<string>) {
    (forall i :: 0 <= i < |names| ==> AuthorityId(names[i])) && Distinct(names)
  }

  predicate FindingValid(g: Grammar, f: Finding) {
    && 1 <= |f.code| <= 64 && (f.path == "" || g.publicPath(f.path))
    && forall i :: 0 <= i < |f.code| ==> 'a' <= f.code[i] <= 'z' || '0' <= f.code[i] <= '9' || f.code[i] in "._-"
  }

  predicate AssessmentValid(g: Grammar, a: Assessment) {
    && a.version == ASSESSMENT_VERSION && g.scope(a.scope) && DigestText(a.inputs) && DigestText(a.manifest)
    && |a.findings| <= 128 && forall i :: 0 <= i < |a.findings| ==> FindingValid(g, a.findings[i])
  }

  // ---------- Manifest.Validate ----------

  function PathsOf(files: seq<Artifact>): set<string> {
    set i | 0 <= i < |files| :: files[i].path
  }

  const RECORD_PATHS := {MANIFEST_PATH, ASSESSMENT_PATH, HANDOFF_PATH}

  /** The paths map has the records and these inputs. */
  predicate Taken(paths: set<string>, files: seq<Artifact>) {
    paths == RECORD_PATHS + PathsOf(files)
  }

  lemma TakenNext(paths: set<string>, files: seq<Artifact>, a: Artifact)
    requires Taken(paths, files) && Apart(files)
    ensures Taken(paths + {a.path}, files + [a])
    ensures Apart(files + [a]) <==> a.path !in paths
  {
    var more := files + [a];
    assert more[|files|] == a;
    assert forall i :: 0 <= i < |files| ==> more[i] == files[i];
    assert PathsOf(more) == PathsOf(files) + {a.path};
  }

  lemma ApartStart(files: seq<Artifact>, more: seq<Artifact>)
    requires files <= more && Apart(more)
    ensures Apart(files)
  {
    assert forall i :: 0 <= i < |files| ==> files[i] == more[i];
  }

  lemma FixedApart(m: Manifest)
    requires m.workflow.path == WORKFLOW_PATH && m.data.path == DATA_PATH && m.shapes.path == SHAPES_PATH
    ensures Apart([m.workflow, m.data, m.shapes])
    ensures Taken(RECORD_PATHS + {WORKFLOW_PATH, DATA_PATH, SHAPES_PATH}, [m.workflow, m.data, m.shapes])
  {
    var fixed := [m.workflow, m.data, m.shapes];
    assert |WORKFLOW_PATH| == 27 && |DATA_PATH| == 18 && |SHAPES_PATH| == 30;
    assert |MANIFEST_PATH| == 21 && |ASSESSMENT_PATH| == 24 && |HANDOFF_PATH| == 28;
    assert fixed[0].path == WORKFLOW_PATH && fixed[1].path == DATA_PATH && fixed[2].path == SHAPES_PATH;
    assert PathsOf(fixed) == {WORKFLOW_PATH, DATA_PATH, SHAPES_PATH};
  }

  lemma SourcesStart(g: Grammar, sources: seq<Source>, i: nat)
    requires i <= |sources| && SourcesValid(g, sources)
    ensures SourcesValid(g, sources[..i])
  {
    CountStart(sources, i, true);
    CountStart(sources, i, false);
  }

  lemma {:induction false} CountStart(sources: seq<Source>, i: nat, runtime: bool)
    requires i <= |sources|
    ensures CountKind(sources[..i], runtime) <= CountKind(sources, runtime)
    decreases |sources|
  {
    if i < |sources| {
      assert sources[..|sources| - 1][..i] == sources[..i];
      CountStart(sources[..|sources| - 1], i, runtime);
    } else {
      assert sources[..i] == sources;
    }
  }

  lemma SourceNext(g: Grammar, sources: seq<Source>, i: nat, ids: set<string>)
    requires i < |sources| && SourcesValid(g, sources[..i])
    requires forall id :: id in ids <==> exists k :: 0 <= k < i && sources[k].id == id
    ensures SourcesValid(g, sources[..i + 1]) <==>
            && SourceValid(g, sources[i]) && sources[i].id !in ids
            && CountKind(sources[..i + 1], true) <= 1 && CountKind(sources[..i + 1], false) <= MAX_API_SOURCES
    ensures CountKind(sources[..i + 1], true) == CountKind(sources[..i], true) + if sources[i].kind == RUNTIME_KIND then 1 else 0
    ensures CountKind(sources[..i + 1], false) == CountKind(sources[..i], false) + if sources[i].kind == RUNTIME_KIND then 0 else 1
  {
    hide SourceValid;
    var head := sources[..i + 1];
    assert head[..i] == sources[..i] && head[i] == sources[i];
    assert forall k :: 0 <= k < i ==> head[k] == sources[..i][k] == sources[k];
  }

  /** What the source loop knows of the first i sources. */
  ghost predicate Sourced(g: Grammar, sources: seq<Source>, i: nat, first: seq<Artifact>, ids: set<string>, paths: set<string>,
                          runtimes: nat, apis: nat, browser: bool)
  {
    && i <= |sources| && SourcesValid(g, sources[..i])
    && Apart(first + SourceArtifacts(sources)[..i]) && Taken(paths, first + SourceArtifacts(sources)[..i])
    && (forall id :: id in ids <==> exists k :: 0 <= k < i && sources[k].id == id)
    && runtimes == CountKind(sources[..i], true) && apis == CountKind(sources[..i], false)
    && (browser <==> exists k :: 0 <= k < i && sources[k].kind == BROWSER_KIND)
  }

  lemma SourcedNone(g: Grammar, sources: seq<Source>, first: seq<Artifact>, paths: set<string>)
    requires Taken(paths, first) && Apart(first)
    ensures Sourced(g, sources, 0, first, {}, paths, 0, 0, false)
  {
    hide Taken, Apart;
    assert first + SourceArtifacts(sources)[..0] == first;
  }

  lemma SourcedNext(g: Grammar, sources: seq<Source>, i: nat, first: seq<Artifact>, ids: set<string>, paths: set<string>,
                    runtimes: nat, apis: nat, browser: bool)
    requires i < |sources| && Sourced(g, sources, i, first, ids, paths, runtimes, apis, browser)
    ensures var s, runtime := sources[i], sources[i].kind == RUNTIME_KIND;
            var runtimes', apis' := if runtime then runtimes + 1 else runtimes, if runtime then apis else apis + 1;
            if SourceValid(g, s) && s.id !in ids && s.artifact.path !in paths && runtimes' <= 1 && apis' <= MAX_API_SOURCES
            then Sourced(g, sources, i + 1, first, ids + {s.id}, paths + {s.artifact.path}, runtimes', apis', browser || s.kind == BROWSER_KIND)
            else !(SourcesValid(g, sources) && Apart(first + SourceArtifacts(sources)))
  {
    hide SourcesValid, CountKind, Taken, Apart, SourceValid;
    var done := first + SourceArtifacts(sources)[..i];
    SourceNext(g, sources, i, ids);
    TakenNext(paths, done, sources[i].artifact);
    assert first + SourceArtifacts(sources)[..i + 1] == done + [sources[i].artifact];
    Refused(g, sources, first, i + 1);
  }

  lemma SourcedAll(g: Grammar, sources: seq<Source>, first: seq<Artifact>, ids: set<string>, paths: set<string>,
                   runtimes: nat, apis: nat, browser: bool)
    requires Sourced(g, sources, |sources|, first, ids, paths, runtimes, apis, browser)
    ensures SourcesValid(g, sources) && Apart(first + SourceArtifacts(sources)) && Taken(paths, first + SourceArtifacts(sources))
    ensures browser <==> exists i :: 0 <= i < |sources| && sources[i].kind == BROWSER_KIND
  {
    hide SourcesValid, CountKind, Taken, Apart;
    assert sources[..|sources|] == sources && SourceArtifacts(sources)[..|sources|] == SourceArtifacts(sources);
  }

  /** The source loop of Manifest.Validate: identities, paths and counters. */
  method CheckSources(g: Grammar, sources: seq<Source>, fixed: set<string>, ghost first: seq<Artifact>)
    returns (ok: bool, paths: set<string>, browser: bool)
    requires Taken(fixed, first) && Apart(first)
    ensures ok <==> SourcesValid(g, sources) && Apart(first + SourceArtifacts(sources))
    ensures ok ==> Taken(paths, first + SourceArtifacts(sources))
    ensures ok ==> (browser <==> exists i :: 0 <= i < |sources| && sources[i].kind == BROWSER_KIND)
  {
    var apis: nat, runtimes: nat := 0, 0;
    var ids: set<string> := {};
    paths, browser := fixed, false;
    SourcedNone(g, sources, first, fixed);
    KindsApart();
    hide *;
    for i := 0 to |sources|
      invariant Sourced(g, sources, i, first, ids, paths, runtimes, apis, browser)
    {
      var s := sources[i];
      SourcedNext(g, sources, i, first, ids, paths, runtimes, apis, browser);
      if !SourceValid(g, s) || s.id in ids || s.artifact.path in paths { return false, paths, browser; }
      if s.kind == RUNTIME_KIND {
        runtimes := runtimes + 1;
      } else {
        if s.kind == BROWSER_KIND { browser := true; }
        apis := apis + 1;
      }
      if apis > MAX_API_SOURCES || runtimes > 1 { return false, paths, browser; }
      ids, paths := ids + {s.id}, paths + {s.artifact.path};
    }
    SourcedAll(g, sources, first, ids, paths, runtimes, apis, browser);
    return true, paths, browser;
  }

  lemma KindsApart()
    ensures BROWSER_KIND != RUNTIME_KIND
  {
    assert |BROWSER_KIND| == 15 && |RUNTIME_KIND| == 16;
  }

  lemma Refused(g: Grammar, sources: seq<Source>, first: seq<Artifact>, i: nat)
    requires i <= |sources|
    ensures !SourcesValid(g, sources[..i]) || !Apart(first + SourceArtifacts(sources)[..i]) ==>
              !(SourcesValid(g, sources) && Apart(first + SourceArtifacts(sources)))
  {
    hide SourcesValid, Apart;
    if SourcesValid(g, sources) { SourcesStart(g, sources, i); }
    if Apart(first + SourceArtifacts(sources)) {
      ApartStart(first + SourceArtifacts(sources)[..i], first + SourceArtifacts(sources));
    }
  }

  lemma ReviewNext(g: Grammar, reviews: seq<Artifact>, i: nat, previous: string)
    requires i < |reviews| <= 128 && ReviewsValid(g, reviews[..i])
    requires previous == if i == 0 then "" else reviews[i - 1].path
    ensures ReviewsValid(g, reviews[..i + 1]) <==>
            ArtifactValid(g, reviews[i]) && REVIEW_PREFIX <= reviews[i].path && Less(previous, reviews[i].path)
  {
    hide ArtifactValid;
    var head := reviews[..i + 1];
    assert forall k :: 0 <= k < i ==> head[k] == reviews[..i][k];
    assert head[i] == reviews[i];
    if i > 0 && Less(previous, reviews[i].path) {
      forall k | 0 <= k < i ensures Less(head[k].path, head[i].path) {
        if k < i - 1 {
          assert Less(reviews[..i][k].path, reviews[..i][i - 1].path);
          LessTransitive(head[k].path, head[i - 1].path, head[i].path);
        }
      }
    }
    if i > 0 && ReviewsValid(g, head) { assert Less(head[i - 1].path, head[i].path); }
  }

  /** The review loop of Manifest.Validate. */
  method CheckReviews(g: Grammar, reviews: seq<Artifact>, taken: set<string>, ghost first: seq<Artifact>) returns (ok: bool)
    requires Taken(taken, first) && Apart(first) && |reviews| <= 128
    ensures ok <==> ReviewsValid(g, reviews) && Apart(first + reviews)
  {
    var paths, previous := taken, "";
    assert first + reviews[..0] == first && ReviewsValid(g, reviews[..0]);
    hide Taken, Apart, ReviewsValid, ArtifactValid;
    for i := 0 to |reviews|
      invariant ReviewsValid(g, reviews[..i]) && Apart(first + reviews[..i]) && Taken(paths, first + reviews[..i])
      invariant previous == if i == 0 then "" else reviews[i - 1].path
    {
      var a := reviews[i];
      ReviewNext(g, reviews, i, previous);
      TakenNext(paths, first + reviews[..i], a);
      assert first + reviews[..i] + [a] == first + reviews[..i + 1];
      LessTotal(previous, a.path);
      if !ArtifactValid(g, a) || a.path in paths || !Less(previous, a.path) || !(REVIEW_PREFIX <= a.path) {
        ReviewsRefused(g, reviews, first, i + 1);
        return false;
      }
      paths, previous := paths + {a.path}, a.path;
    }
    assert reviews[..|reviews|] == reviews;
    return true;
  }

  lemma ReviewsRefused(g: Grammar, reviews: seq<Artifact>, first: seq<Artifact>, i: nat)
    requires i <= |reviews| <= 128
    requires !ReviewsValid(g, reviews[..i]) || !Apart(first + reviews[..i])
    ensures !(ReviewsValid(g, reviews) && Apart(first + reviews))
  {
    if Apart(first + reviews) { ApartStart(first + reviews[..i], first + reviews); }
  }

  /** The browser half of Manifest.Validate. */
  method CheckBrowser(g: Grammar, m: Manifest, browser: bool, paths: set<string>, ghost first: seq<Artifact>) returns (ok: bool)
    requires Taken(paths, first) && Apart(first)
    requires browser <==> exists i :: 0 <= i < |m.sources| && m.sources[i].kind == BROWSER_KIND
    ensures ok <==> BrowserValid(g, m) && Apart(first + if m.browser.Some? then [m.browser.value] + m.reviews else [])
  {
    hide ReviewsValid, Taken, Apart, ArtifactValid;
    if browser != m.browser.Some? || (m.browser.None? && m.reviews != []) { return false; }
    if m.browser.None? {
      assert first + [] == first;
      return true;
    }
    var file := m.browser.value;
    ghost var listed := first + [file];
    assert first + ([file] + m.reviews) == listed + m.reviews;
    TakenNext(paths, first, file);
    ReviewsBounded(g, m.reviews);
    if file.path in paths {
      if Apart(listed + m.reviews) { ApartStart(listed, listed + m.reviews); }
      return false;
    }
    if file.path != BROWSER_PATH || !ArtifactValid(g, file) || |m.reviews| > 128 { return false; }
    ok := CheckReviews(g, m.reviews, paths + {file.path}, listed);
  }

  /** Manifest.Validate. */
  method ValidateManifest(g: Grammar, m: Manifest) returns (ok: bool)
    ensures ok <==> ManifestValid(g, m)
  {
    if !HeadValid(g, m) { return false; }
    ghost var first := [m.workflow, m.data, m.shapes];
    FixedApart(m);
    hide HeadValid, SourcesValid, BrowserValid, Taken, Apart;
    var paths, browser;
    ok, paths, browser := CheckSources(g, m.sources, RECORD_PATHS + {WORKFLOW_PATH, DATA_PATH, SHAPES_PATH}, first);
    ghost var sourced := first + SourceArtifacts(m.sources);
    if !ok {
      if Apart(Named(m)) { ApartStart(sourced, Named(m)); }
      return false;
    }
    ok := CheckBrowser(g, m, browser, paths, sourced);
  }

  lemma ReviewsBounded(g: Grammar, reviews: seq<Artifact>)
    ensures ReviewsValid(g, reviews) ==> |reviews| <= 128
  {
  }

  /** InputArtifacts. */
  method InputArtifacts(g: Grammar, m: Manifest) returns (r: Option<seq<Artifact>>)
    ensures r == if ManifestValid(g, m) then Some(Inputs(m)) else None
  {
    hide ManifestValid, Sort;
    var ok := ValidateManifest(g, m);
    if !ok { return None; }
    var files := [m.workflow, m.data, m.shapes];
    for i := 0 to |m.sources|
      invariant files == [m.workflow, m.data, m.shapes] + SourceArtifacts(m.sources)[..i]
    {
      assert SourceArtifacts(m.sources)[..i + 1] == SourceArtifacts(m.sources)[..i] + [m.sources[i].artifact];
      files := files + [m.sources[i].artifact];
    }
    assert SourceArtifacts(m.sources)[..|m.sources|] == SourceArtifacts(m.sources);
    if m.browser.Some? { files := files + [m.browser.value] + m.reviews; }
    assert files == Named(m);
    return Some(Sort(ByPath, files));
  }
}
