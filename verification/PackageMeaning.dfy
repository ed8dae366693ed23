/** What the records of a package and an accepted package are, path by path and limit by
    limit (packagev3/records.go and snapshot.go). */
module PackageMeaning {
  import opened Common
  import opened Digests
  import opened PackageRecords
  import opened PackageFiles
  import opened PackageAssessment
  import opened PackageInspect
  import Grammars

  // ---------- Files ----------

  predicate Holdable(s: Screen, path: string, data: Bytes) {
    s.grammar.publicPath(path) && 1 <= |data| <= 8388608 && !s.secret(data) && !s.private(data)
  }

  ghost predicate AllHoldable(s: Screen, files: Files) {
    (forall path :: path in files ==> Holdable(s, path, files[path])) && TotalBytes(files) <= 33554432
  }

  lemma StoredExactly(s: Screen, files: Files)
    ensures Stored(s, files) <==> AllHoldable(s, files)
    ensures TotalBytes(map[]) == 0
  {
  }

  /** after is before with one more file, within every limit. */
  ghost predicate Adds(s: Screen, before: Files, path: string, data: Bytes, after: Files) {
    && path !in before && after == before[path := data] && Holdable(s, path, data) && |after| <= 512 && TotalBytes(after) <= 33554432
  }

  lemma PutExactly(s: Screen, before: Files, path: string, data: Bytes, after: Files)
    ensures Put(s, Some(before), path, data) == Some(after) <==> Adds(s, before, path, data, after)
    ensures Fits(s, before, path, data) <==> Adds(s, before, path, data, before[path := data])
  {
    hide TotalBytes;
    if path !in before {
      TotalAdded(before, path, data);
      assert before[path := data].Keys == before.Keys + {path};
      KeyCount(before);
      KeyCount(before[path := data]);
    }
  }

  lemma KeyCount(files: Files)
    ensures |files| == |files.Keys|
  {
  }

  // ---------- Manifests ----------

  predicate Recorded(g: Grammar, a: Artifact) {
    g.publicPath(a.path) && DigestText(a.sha)
  }

  predicate KnownKind(kind: string) {
    || kind == "openapi" || kind == "google-discovery" || kind == "aws-smithy" || kind == "asyncapi" || kind == "graphql"
    || kind == "openrpc" || kind == "grpc-protobuf" || kind == "odata" || kind == "runtime-function" || kind == "browser-profile"
  }

  ghost predicate SourceGood(g: Grammar, s: Source) {
    && AuthorityId(s.id) && KnownKind(s.kind) && Recorded(g, s.artifact)
    && (exists rest :: s.artifact.path == "sources/" + s.kind + "/" + rest)
    && (s.kind == "runtime-function" ==> s.id == "udon-runtime-functions")
  }

  lemma StartsWith(prefix: string, s: string)
    ensures prefix <= s <==> exists rest :: s == prefix + rest
  {
    if prefix <= s { assert s == prefix + s[|prefix|..]; }
  }

  lemma SourceExactly(g: Grammar, s: Source)
    ensures SourceValid(g, s) <==> SourceGood(g, s)
  {
    hide AuthorityId, DigestText;
    StartsWith("sources/" + s.kind + "/", s.artifact.path);
  }

  /** Sources of distinct ids and paths: one runtime source at most, and 32 others at most. */
  ghost predicate SourcesGood(g: Grammar, sources: seq<Source>) {
    && |sources| <= 33 && (forall i :: 0 <= i < |sources| ==> SourceGood(g, sources[i]))
    && (forall i, j :: 0 <= i < j < |sources| ==>
          && sources[i].id != sources[j].id && sources[i].artifact.path != sources[j].artifact.path
          && !(sources[i].kind == "runtime-function" && sources[j].kind == "runtime-function"))
    && |Others(sources)| <= 32
  }

  function Others(sources: seq<Source>): set<nat> {
    set i: nat | i < |sources| && sources[i].kind != "runtime-function"
  }

  function Runtimes(sources: seq<Source>): set<nat> {
    set i: nat | i < |sources| && sources[i].kind == "runtime-function"
  }

  lemma OthersNext(sources: seq<Source>, s: Source)
    ensures Others(sources + [s]) == Others(sources) + if s.kind == "runtime-function" then {} else {|sources|}
    ensures Runtimes(sources + [s]) == Runtimes(sources) + if s.kind == "runtime-function" then {|sources|} else {}
    ensures |sources| !in Others(sources) && |sources| !in Runtimes(sources)
  {
  }

  lemma {:induction false} KindCounts(sources: seq<Source>)
    ensures CountKind(sources, false) == |Others(sources)| && CountKind(sources, true) == |Runtimes(sources)|
  {
    if sources != [] {
      var front, last := sources[..|sources| - 1], sources[|sources| - 1];
      KindCounts(front);
      OthersNext(front, last);
      assert sources == front + [last];
      hide Others, Runtimes;
    } else {
      assert Others(sources) == {} && Runtimes(sources) == {};
    }
  }

  lemma OneRuntime(sources: seq<Source>)
    ensures |Runtimes(sources)| <= 1 <==>
            forall i, j :: 0 <= i < j < |sources| ==> !(sources[i].kind == "runtime-function" && sources[j].kind == "runtime-function")
  {
    var all := Runtimes(sources);
    if |all| > 1 {
      var a :| a in all;
      assert |all - {a}| == |all| - 1;
      var b :| b in all - {a};
      assert a in all && b in all && a != b;
    }
    if i, j :| 0 <= i < j < |sources| && sources[i].kind == "runtime-function" && sources[j].kind == "runtime-function" {
      SubsetSize({i, j}, all);
    }
  }

  lemma SourcesExactly(g: Grammar, sources: seq<Source>)
    ensures |sources| <= 33 && SourcesValid(g, sources) && (forall i, j :: 0 <= i < j < |sources| ==> sources[i].artifact.path != sources[j].artifact.path)
            <==> SourcesGood(g, sources)
  {
    forall i | 0 <= i < |sources| ensures SourceValid(g, sources[i]) <==> SourceGood(g, sources[i]) { SourceExactly(g, sources[i]); }
    KindCounts(sources);
    OneRuntime(sources);
    hide SourceValid, SourceGood, CountKind, Others, Runtimes;
  }

  ghost predicate ReviewGood(g: Grammar, a: Artifact) {
    Recorded(g, a) && exists rest :: a.path == "expected/browser-review/" + rest
  }

  ghost predicate ReviewsGood(g: Grammar, reviews: seq<Artifact>) {
    && |reviews| <= 128 && (forall i :: 0 <= i < |reviews| ==> ReviewGood(g, reviews[i]))
    && forall i, j :: 0 <= i < j < |reviews| ==> Less(reviews[i].path, reviews[j].path)
  }

  predicate FixedAt(g: Grammar, a: Artifact, path: string) {
    a.path == path && Recorded(g, a)
  }

  /** A browser file and its reviews are there exactly when a source is a browser profile. */
  ghost predicate BrowserGood(g: Grammar, m: Manifest) {
    && (m.browser.Some? <==> exists i :: 0 <= i < |m.sources| && m.sources[i].kind == "browser-profile")
    && (m.browser.None? ==> m.reviews == [])
    && (m.browser.Some? ==> FixedAt(g, m.browser.value, "expected/browser.json") && ReviewsGood(g, m.reviews))
  }

  ghost predicate ManifestGood(g: Grammar, m: Manifest) {
    && m.version == "openudon.package.v3" && g.scope(m.scope) && m.shapeVersion == "uws.shape-table.v1"
    && FixedAt(g, m.workflow, "workflows/workflow.uws.yaml") && FixedAt(g, m.data, "expected/data.json")
    && FixedAt(g, m.shapes, "expected/operation-shapes.json")
    && SourcesGood(g, m.sources) && BrowserGood(g, m)
  }

  lemma HeadExactly(g: Grammar, m: Manifest)
    ensures HeadValid(g, m) <==>
            && m.version == "openudon.package.v3" && g.scope(m.scope) && m.shapeVersion == "uws.shape-table.v1" && |m.sources| <= 33
            && FixedAt(g, m.workflow, "workflows/workflow.uws.yaml") && FixedAt(g, m.data, "expected/data.json")
            && FixedAt(g, m.shapes, "expected/operation-shapes.json")
  {
    hide DigestText;
  }

  lemma ReviewExactly(g: Grammar, a: Artifact)
    ensures ArtifactValid(g, a) && REVIEW_PREFIX <= a.path <==> ReviewGood(g, a)
  {
    hide DigestText;
    StartsWith("expected/browser-review/", a.path);
  }

  lemma ReviewsExactly(g: Grammar, reviews: seq<Artifact>)
    ensures ReviewsValid(g, reviews) <==> ReviewsGood(g, reviews)
  {
    hide Less, ArtifactValid, ReviewGood;
    forall i | 0 <= i < |reviews| ensures ArtifactValid(g, reviews[i]) && REVIEW_PREFIX <= reviews[i].path <==> ReviewGood(g, reviews[i]) {
      ReviewExactly(g, reviews[i]);
    }
  }

  lemma BrowserExactly(g: Grammar, m: Manifest)
    ensures BrowserValid(g, m) <==> BrowserGood(g, m)
  {
    hide DigestText, ReviewsValid, ReviewsGood;
    ReviewsExactly(g, m.reviews);
  }

  // ---------- The inputs lie apart ----------

  /** The seven places a file of a package can lie in. */
  predicate LiesIn(path: string, place: int) {
    match place
    case 0 => path == "workflows/workflow.uws.yaml"
    case 1 => path == "expected/data.json"
    case 2 => path == "expected/operation-shapes.json"
    case 3 => path != "" && path[0] == 's'
    case 4 => path == "expected/browser.json"
    case 5 => "expected/browser-review/" <= path
    case 6 => path == "expected/package.json" || path == "expected/assessment.json" || path == "expected/review-handoff.json"
    case _ => false
  }

  lemma OnePlace(path: string, a: int, b: int)
    requires LiesIn(path, a) && LiesIn(path, b)
    ensures a == b
  {
    Places();
    if "expected/browser-review/" <= path { assert path[16] == '-' && path[9] == 'b'; }
  }

  /** Letters that tell the fixed paths apart. */
  lemma Places()
    ensures |"workflows/workflow.uws.yaml"| == 27 && "workflows/workflow.uws.yaml"[0] == 'w'
    ensures |"expected/data.json"| == 18 && "expected/data.json"[0] == 'e' && "expected/data.json"[9] == 'd'
    ensures |"expected/operation-shapes.json"| == 30 && "expected/operation-shapes.json"[0] == 'e' && "expected/operation-shapes.json"[9] == 'o'
    ensures |"expected/browser.json"| == 21 && "expected/browser.json"[0] == 'e' && "expected/browser.json"[9] == 'b' && "expected/browser.json"[16] == '.'
    ensures |"expected/browser-review/"| == 24 && "expected/browser-review/"[0] == 'e' && "expected/browser-review/"[9] == 'b' && "expected/browser-review/"[16] == '-'
    ensures |"expected/package.json"| == 21 && "expected/package.json"[0] == 'e' && "expected/package.json"[9] == 'p'
    ensures |"expected/assessment.json"| == 24 && "expected/assessment.json"[0] == 'e' && "expected/assessment.json"[9] == 'a'
    ensures |"expected/review-handoff.json"| == 28 && "expected/review-handoff.json"[0] == 'e' && "expected/review-handoff.json"[9] == 'r'
  {
  }

  /** Where input i of the manifest lies. */
  function PlaceOf(m: Manifest, i: nat): int {
    if i < 3 then i else if i < 3 + |m.sources| then 3 else if i == 3 + |m.sources| then 4 else 5
  }

  lemma NamedAt(m: Manifest, i: nat)
    requires i < |Named(m)|
    ensures Named(m)[i] ==
            if i == 0 then m.workflow else if i == 1 then m.data else if i == 2 then m.shapes
            else if i < 3 + |m.sources| then m.sources[i - 3].artifact
            else if i == 3 + |m.sources| then (if m.browser.Some? then m.browser.value else m.workflow)
            else if i - 4 - |m.sources| < |m.reviews| then m.reviews[i - 4 - |m.sources|] else m.workflow
    ensures i >= 3 + |m.sources| ==> m.browser.Some? && i < 4 + |m.sources| + |m.reviews|
  {
  }

  lemma SourceLies(g: Grammar, s: Source)
    requires SourceGood(g, s)
    ensures LiesIn(s.artifact.path, 3)
  {
    assert "sources/"[0] == 's' && ("sources/" + s.kind + "/")[0] == 's';
  }

  lemma InputLies(g: Grammar, m: Manifest, i: nat)
    requires ManifestGood(g, m) && i < |Named(m)|
    ensures LiesIn(Named(m)[i].path, PlaceOf(m, i))
  {
    hide Named, Recorded, AuthorityId, KnownKind;
    NamedAt(m, i);
    if 3 <= i < 3 + |m.sources| {
      SourceLies(g, m.sources[i - 3]);
    } else if i > 3 + |m.sources| {
      var a := m.reviews[i - 4 - |m.sources|];
      assert ReviewGood(g, a);
      StartsWith("expected/browser-review/", a.path);
    }
  }

  lemma InputsApart(g: Grammar, m: Manifest)
    requires ManifestGood(g, m)
    ensures Apart(Named(m))
  {
    hide ManifestGood, Named, LiesIn;
    forall i: nat, j: nat | i < j < |Named(m)| ensures Named(m)[i].path != Named(m)[j].path {
      TwoInputs(g, m, i, j);
    }
    forall i: nat | i < |Named(m)| ensures !RecordPath(Named(m)[i].path) {
      InputLies(g, m, i);
      if RecordPath(Named(m)[i].path) { RecordLies(Named(m)[i].path); OnePlace(Named(m)[i].path, 6, PlaceOf(m, i)); }
    }
  }

  lemma RecordLies(path: string)
    requires RecordPath(path)
    ensures LiesIn(path, 6)
  {
  }

  lemma TwoInputs(g: Grammar, m: Manifest, i: nat, j: nat)
    requires ManifestGood(g, m) && i < j < |Named(m)|
    ensures Named(m)[i].path != Named(m)[j].path
  {
    hide Named, LiesIn, Less;
    InputLies(g, m, i);
    InputLies(g, m, j);
    if Named(m)[i].path == Named(m)[j].path {
      OnePlace(Named(m)[i].path, PlaceOf(m, i), PlaceOf(m, j));
      NamedAt(m, i);
      NamedAt(m, j);
      if 3 + |m.sources| < i {
        LessTotal(m.reviews[i - 4 - |m.sources|].path, m.reviews[j - 4 - |m.sources|].path);
      }
    }
  }

  /** A manifest is valid exactly so; that all its inputs lie apart follows. */
  lemma ManifestExactly(g: Grammar, m: Manifest)
    ensures ManifestValid(g, m) <==> ManifestGood(g, m)
  {
    hide HeadValid, SourcesValid, SourcesGood, BrowserValid, BrowserGood, FixedAt, Named;
    HeadExactly(g, m);
    SourcesExactly(g, m.sources);
    BrowserExactly(g, m);
    if ManifestGood(g, m) { InputsApart(g, m); DistinctSources(g, m.sources); }
    if Apart(Named(m)) { SourcePaths(m); }
    BoundedSources(g, m.sources);
  }

  lemma BoundedSources(g: Grammar, sources: seq<Source>)
    ensures SourcesGood(g, sources) ==> |sources| <= 33
  {
  }

  lemma DistinctSources(g: Grammar, sources: seq<Source>)
    requires SourcesGood(g, sources)
    ensures forall i, j :: 0 <= i < j < |sources| ==> sources[i].artifact.path != sources[j].artifact.path
  {
  }

  lemma SourcePaths(m: Manifest)
    requires Apart(Named(m))
    ensures forall i, j :: 0 <= i < j < |m.sources| ==> m.sources[i].artifact.path != m.sources[j].artifact.path
  {
    forall i, j | 0 <= i < j < |m.sources| ensures m.sources[i].artifact.path != m.sources[j].artifact.path {
      assert Named(m)[3 + i] == m.sources[i].artifact && Named(m)[3 + j] == m.sources[j].artifact;
    }
  }

  // ---------- Handoffs and assessments ----------

  ghost predicate ListsPath(files: seq<Artifact>, path: string) {
    exists i :: 0 <= i < |files| && files[i].path == path
  }

  ghost predicate HandoffGood(g: Grammar, h: Handoff) {
    && h.version == "openudon.review-handoff.v3" && h.reviewState == "review_required" && g.scope(h.scope)
    && DigestText(h.inputs) && DigestText(h.manifest) && DigestText(h.assessment)
    && 5 <= |h.artifacts| <= 512 && |h.credentials| <= 64
    && (forall i :: 0 <= i < |h.credentials| ==> AuthorityId(h.credentials[i]))
    && (forall i, j :: 0 <= i < j < |h.credentials| ==> h.credentials[i] != h.credentials[j])
    && (forall i :: 0 <= i < |h.artifacts| ==> Recorded(g, h.artifacts[i]) && h.artifacts[i].path != "")
    && (forall i, j :: 0 <= i < j < |h.artifacts| ==> Less(h.artifacts[i].path, h.artifacts[j].path))
    && ListsPath(h.artifacts, "workflows/workflow.uws.yaml") && ListsPath(h.artifacts, "expected/data.json")
    && ListsPath(h.artifacts, "expected/operation-shapes.json") && !ListsPath(h.artifacts, "expected/review-handoff.json")
    && Artifact("expected/package.json", h.manifest) in h.artifacts && Artifact("expected/assessment.json", h.assessment) in h.artifacts
  }

  lemma OnePerPath(files: seq<Artifact>, path: string, sha: string)
    requires forall i, j :: 0 <= i < j < |files| ==> Less(files[i].path, files[j].path)
    ensures Artifact(path, sha) in files <==>
            ListsPath(files, path) && forall i :: 0 <= i < |files| && files[i].path == path ==> files[i].sha == sha
  {
    hide Less;
    forall i, j | 0 <= i < j < |files| ensures files[i].path != files[j].path { LessTotal(files[i].path, files[j].path); }
    if Artifact(path, sha) in files {
      var k :| 0 <= k < |files| && files[k] == Artifact(path, sha);
    }
    if ListsPath(files, path) {
      var k :| 0 <= k < |files| && files[k].path == path;
      assert files[k] == Artifact(path, files[k].sha);
    }
  }

  lemma HandoffExactly(g: Grammar, h: Handoff)
    ensures HandoffValid(g, h) <==> HandoffGood(g, h)
  {
    hide DigestText, AuthorityId, ArtifactValid, Less, Recorded, Lists, ListsPath;
    forall a ensures ArtifactValid(g, a) <==> Recorded(g, a) { RecordedExactly(g, a); }
    forall path ensures Lists(h.artifacts, path) <==> ListsPath(h.artifacts, path) { ListsExactly(h.artifacts, path); }
    NotListed(h.artifacts, "expected/review-handoff.json");
    if forall i, j :: 0 <= i < j < |h.artifacts| ==> Less(h.artifacts[i].path, h.artifacts[j].path) {
      OnePerPath(h.artifacts, "expected/package.json", h.manifest);
      OnePerPath(h.artifacts, "expected/assessment.json", h.assessment);
    }
  }

  lemma RecordedExactly(g: Grammar, a: Artifact)
    ensures ArtifactValid(g, a) <==> Recorded(g, a)
  {
  }

  lemma ListsExactly(files: seq<Artifact>, path: string)
    ensures Lists(files, path) <==> ListsPath(files, path)
  {
  }

  lemma NotListed(files: seq<Artifact>, path: string)
    ensures !ListsPath(files, path) <==> forall i :: 0 <= i < |files| ==> files[i].path != path
  {
  }

  predicate CodeGood(code: string) {
    1 <= |code| <= 64 && forall i :: 0 <= i < |code| ==> CodeRune(code[i])
  }

  predicate CodeRune(c: char) {
    c in "abcdefghijklmnopqrstuvwxyz" || c in "0123456789" || c == '.' || c == '_' || c == '-'
  }

  predicate AssessmentGood(g: Grammar, a: Assessment) {
    && a.version == "openudon.assessment.v3" && g.scope(a.scope) && DigestText(a.inputs) && DigestText(a.manifest) && |a.findings| <= 128
    && forall i :: 0 <= i < |a.findings| ==> CodeGood(a.findings[i].code) && (a.findings[i].path != "" ==> g.publicPath(a.findings[i].path))
  }

  lemma CodeRunes(c: char)
    ensures CodeRune(c) <==> 'a' <= c <= 'z' || '0' <= c <= '9' || c in "._-"
  {
    Grammars.Lower(c);
    Grammars.Digit(c);
    assert "._-"[0] == '.' && "._-"[1] == '_' && "._-"[2] == '-';
  }

  lemma FindingExactly(g: Grammar, f: Finding)
    ensures FindingValid(g, f) <==> CodeGood(f.code) && (f.path != "" ==> g.publicPath(f.path))
  {
    hide CodeRune;
    forall i | 0 <= i < |f.code| ensures CodeRune(f.code[i]) <==> 'a' <= f.code[i] <= 'z' || '0' <= f.code[i] <= '9' || f.code[i] in "._-" {
      CodeRunes(f.code[i]);
    }
  }

  lemma AssessmentExactly(g: Grammar, a: Assessment)
    ensures AssessmentValid(g, a) <==> AssessmentGood(g, a)
  {
    hide DigestText, FindingValid, CodeGood;
    forall i | 0 <= i < |a.findings|
      ensures FindingValid(g, a.findings[i]) <==> CodeGood(a.findings[i].code) && (a.findings[i].path != "" ==> g.publicPath(a.findings[i].path))
    {
      FindingExactly(g, a.findings[i]);
    }
  }

  // ---------- The digest ----------

  /** The listing a digest seals: every file once under its clean path below the scope, by path. */
  ghost predicate Sealed(s: Sealing, scope: string, files: seq<Artifact>, listing: seq<Artifact>) {
    && |listing| == |files| && (forall i, j :: 0 <= i < j < |listing| ==> AtMost(listing[i].path, listing[j].path))
    && exists clean: seq<Artifact> :: multiset(clean) == multiset(listing) && Cleaned(s, scope, files, clean)
  }

  ghost predicate Cleaned(s: Sealing, scope: string, files: seq<Artifact>, clean: seq<Artifact>) {
    && |clean| == |files|
    && forall i :: 0 <= i < |files| ==>
         && s.clean(files[i].path).Some? && clean[i].sha == files[i].sha
         && clean[i].path == if scope == "" then s.clean(files[i].path).value else s.join(scope, s.clean(files[i].path).value)
  }

  predicate Digestible(s: Sealing, scope: string, version: string, files: seq<Artifact>) {
    && |files| <= 1024 && ByteLength(scope) <= 2048 && ByteLength(version) <= 128
    && (forall i :: 0 <= i < |files| ==> s.clean(files[i].path).Some? && DigestText(files[i].sha))
    && forall i, j :: 0 <= i < j < |files| ==> s.clean(files[i].path) != s.clean(files[j].path)
  }

  /** What DigestFiles answers: nothing for an inventory it cannot list, otherwise the seal of
      the version, or of the default one, the scope and the listing. */
  lemma DigestExactly(s: Sealing, scope: string, version: string, files: seq<Artifact>)
    ensures Digest(s, scope, version, files).Some? <==> Digestible(s, scope, version, files)
    ensures Digestible(s, scope, version, files) ==>
              var v := s.version(version);
              exists listing ::
                && Sealed(s, s.scope(scope), files, listing)
                && Digest(s, scope, version, files) ==
                     Some(s.seal(if v != "" then v else "openudon.review-handoff-digest.v1", s.scope(scope), listing))
  {
    hide ByteLength, Sort, DigestText;
    if Digestible(s, scope, version, files) {
      var clean := AllReported(s, s.scope(scope), files);
      SealedSort(s, s.scope(scope), files, clean);
    }
  }

  lemma SealedSort(s: Sealing, scope: string, files: seq<Artifact>, clean: seq<Artifact>)
    requires Cleaned(s, scope, files, clean)
    ensures Sealed(s, scope, files, Sort(ByPath, clean))
  {
    hide Sort, Less, Cleaned;
    ByPathOrders();
    SortSorted(ByPath, clean);
    assert |clean| == |files| by { CleanedSize(s, scope, files, clean); }
    var r := Sort(ByPath, clean);
    assert |multiset(r)| == |r| && |multiset(clean)| == |clean|;
    forall i, j | 0 <= i < j < |r| ensures AtMost(r[i].path, r[j].path) { assert ByPath(r[i], r[j]); }
  }

  lemma CleanedSize(s: Sealing, scope: string, files: seq<Artifact>, clean: seq<Artifact>)
    requires Cleaned(s, scope, files, clean)
    ensures |clean| == |files|
  {
  }

  // ---------- An accepted package ----------

  /** a is one of the inputs the manifest names. */
  ghost predicate Mentions(m: Manifest, a: Artifact) {
    || a == m.workflow || a == m.data || a == m.shapes || (exists i :: 0 <= i < |m.sources| && m.sources[i].artifact == a)
    || (m.browser.Some? && (a == m.browser.value || a in m.reviews))
  }

  ghost predicate MentionsPath(m: Manifest, path: string) {
    exists a :: Mentions(m, a) && a.path == path
  }

  /** The text at a path is the canonical text of the record it decodes to. */
  predicate Reads<T(==)>(codec: Codec<T>, files: Files, path: string, record: T) {
    path in files && codec.decode(files[path]) == Some(record) && codec.encode(record) == files[path]
  }

  /** Every input is there with its hash, and besides them only the three records. */
  ghost predicate HoldsInputs(h: Host, files: Files, m: Manifest) {
    && (forall a :: Mentions(m, a) ==> a.path in files && h.screen.hash(files[a.path]) == a.sha)
    && (forall path :: path in files <==> MentionsPath(m, path) || LiesIn(path, 6))
  }

  /** The handoff lists every other file with its hash. */
  ghost predicate HandsOver(h: Host, files: Files, review: Handoff) {
    forall path, sha :: Artifact(path, sha) in review.artifacts <==>
      path in files && path != "expected/review-handoff.json" && h.screen.hash(files[path]) == sha
  }

  /** The digest over the whole inventory. */
  ghost predicate WholeDigest(h: Host, scope: string, files: Files, sum: string) {
    exists entries ::
      && Enumerates(h.screen, entries, files) && Digest(h.sealing, scope, "openudon.handoff-package-digest.v1", entries) == Some(sum)
  }

  ghost predicate InputsDigest(h: Host, m: Manifest, sum: string) {
    Digest(h.sealing, m.scope, "openudon.handoff-package-digest.v1", Inputs(m)) == Some(sum)
  }

  ghost predicate Whole(h: Host, scope: string, expected: string, files: Files, m: Manifest, review: Handoff, a: Assessment) {
    && h.screen.grammar.scope(scope) && DigestText(expected) && |files| <= 512 && AllHoldable(h.screen, files)
    && Reads(h.manifests, files, "expected/package.json", m) && Reads(h.handoffs, files, "expected/review-handoff.json", review)
    && Reads(h.assessments, files, "expected/assessment.json", a)
    && ManifestGood(h.screen.grammar, m) && HandoffGood(h.screen.grammar, review) && AssessmentGood(h.screen.grammar, a)
    && m.scope == scope && review.scope == scope && a.scope == scope
    && HoldsInputs(h, files, m) && HandsOver(h, files, review)
    && review.manifest == a.manifest && InputsDigest(h, m, review.inputs) && a.inputs == review.inputs
    && WholeDigest(h, scope, files, expected)
  }

  lemma MentionsIs(m: Manifest)
    ensures forall a :: Mentions(m, a) <==> a in Named(m)
    ensures forall path :: MentionsPath(m, path) <==> path in PathsOf(Named(m))
  {
    forall a ensures Mentions(m, a) <==> a in Named(m) {
      if i :| 0 <= i < |m.sources| && m.sources[i].artifact == a { assert Named(m)[3 + i] == a; }
      if m.browser.Some? && a in m.reviews { assert a in [m.browser.value] + m.reviews; }
    }
    hide Mentions, Named;
    forall path ensures MentionsPath(m, path) <==> path in PathsOf(Named(m)) {
      if MentionsPath(m, path) {
        var a :| Mentions(m, a) && a.path == path;
        var i :| 0 <= i < |Named(m)| && Named(m)[i] == a;
      }
      if path in PathsOf(Named(m)) {
        var i :| 0 <= i < |Named(m)| && Named(m)[i].path == path;
        assert Mentions(m, Named(m)[i]);
      }
    }
  }

  lemma RecordPathsAre(path: string)
    ensures path in RECORD_PATHS <==> LiesIn(path, 6)
  {
  }

  /** The three records as read, and the manifest's inputs and the handoff matched by counting. */
  ghost predicate Matched(h: Host, scope: string, files: Files, m: Manifest, review: Handoff, a: Assessment) {
    && Reads(h.manifests, files, MANIFEST_PATH, m) && Reads(h.handoffs, files, HANDOFF_PATH, review) && Reads(h.assessments, files, ASSESSMENT_PATH, a)
    && ManifestValid(h.screen.grammar, m) && HandoffValid(h.screen.grammar, review) && AssessmentValid(h.screen.grammar, a)
    && m.scope == scope && review.scope == scope
    && InputsMatch(h, files, Inputs(m)) && ArtifactsMatch(h, files, review.artifacts) && RecordsAgree(h, scope, files, m, review, a)
  }

  ghost predicate Around(h: Host, scope: string, expected: string, files: Files) {
    && h.screen.grammar.scope(scope) && DigestText(expected) && 6 <= |files| <= MAX_FILES && Stored(h.screen, files) && DigestIs(h, scope, files, expected)
  }

  lemma MatchedHolds(h: Host, files: Files, m: Manifest)
    requires Apart(Named(m)) && InputsMatch(h, files, Inputs(m))
    ensures HoldsInputs(h, files, m)
  {
    hide Mentions, MentionsPath, LiesIn, Named, Inputs, PathsOf, InputsMatch, Apart;
    MentionsIs(m);
    MatchedFiles(h, files, m);
    forall path ensures path in RECORD_PATHS <==> LiesIn(path, 6) { RecordPathsAre(path); }
    forall a | Mentions(m, a) ensures a.path in files && h.screen.hash(files[a.path]) == a.sha { assert Bound(h, files, a); }
  }

  lemma HoldsMatched(h: Host, files: Files, m: Manifest)
    requires Apart(Named(m)) && HoldsInputs(h, files, m)
    ensures InputsMatch(h, files, Inputs(m))
  {
    hide Mentions, MentionsPath, LiesIn, Named, Inputs, PathsOf, Apart;
    MentionsIs(m);
    SortedInputs(m);
    HeldInputs(h, files, m);
    DistinctInputs(m);
    PathsCount(Named(m));
    RecordPathsCount();
    Outside(Named(m));
    forall path ensures path in files <==> path in RECORD_PATHS + PathsOf(Named(m)) { RecordPathsAre(path); }
    SetSizes(files, RECORD_PATHS, PathsOf(Named(m)));
  }

  lemma DistinctInputs(m: Manifest)
    requires Apart(Named(m))
    ensures forall i, j :: 0 <= i < j < |Named(m)| ==> Named(m)[i].path != Named(m)[j].path
  {
  }

  lemma SetSizes(files: Files, a: set<string>, b: set<string>)
    requires a !! b && forall path :: path in files <==> path in a + b
    ensures |files| == |a| + |b|
  {
    assert files.Keys == a + b;
    assert |files.Keys| == |files|;
  }

  lemma InputsHeld(h: Host, files: Files, m: Manifest)
    requires Apart(Named(m))
    ensures InputsMatch(h, files, Inputs(m)) <==> HoldsInputs(h, files, m)
  {
    hide InputsMatch, HoldsInputs, Apart;
    if InputsMatch(h, files, Inputs(m)) { MatchedHolds(h, files, m); }
    if HoldsInputs(h, files, m) { HoldsMatched(h, files, m); }
  }

  lemma HeldInputs(h: Host, files: Files, m: Manifest)
    requires HoldsInputs(h, files, m) && forall a :: Mentions(m, a) <==> a in Inputs(m)
    ensures forall i :: 0 <= i < |Inputs(m)| ==> h.screen.hash(FileAt(files, Inputs(m)[i].path)) == Inputs(m)[i].sha
  {
    hide Inputs, Mentions, MentionsPath, LiesIn;
    forall i | 0 <= i < |Inputs(m)| ensures h.screen.hash(FileAt(files, Inputs(m)[i].path)) == Inputs(m)[i].sha {
      assert Mentions(m, Inputs(m)[i]);
    }
  }

  lemma MatchedHandsOver(h: Host, files: Files, review: Handoff)
    requires HANDOFF_PATH in files && HANDOFF_PATH !in PathsOf(review.artifacts) && ArtifactsMatch(h, files, review.artifacts)
    requires forall i, j :: 0 <= i < j < |review.artifacts| ==> review.artifacts[i].path != review.artifacts[j].path
    ensures HandsOver(h, files, review)
  {
    var artifacts := review.artifacts;
    ArtifactsBind(h, files, artifacts);
    hide ArtifactsMatch;
    forall path, sha | path in files && path != HANDOFF_PATH && h.screen.hash(files[path]) == sha ensures Artifact(path, sha) in artifacts {
      assert path in PathsOf(artifacts);
      var i :| 0 <= i < |artifacts| && artifacts[i].path == path;
      assert Bound(h, files, artifacts[i]) && artifacts[i] == Artifact(path, sha);
    }
    forall a | a in artifacts ensures a.path in files && a.path != HANDOFF_PATH && h.screen.hash(files[a.path]) == a.sha {
      var i :| 0 <= i < |artifacts| && artifacts[i] == a;
      assert Bound(h, files, artifacts[i]);
    }
  }

  lemma HandsOverMatched(h: Host, files: Files, review: Handoff)
    requires HANDOFF_PATH in files && HandsOver(h, files, review)
    requires forall i, j :: 0 <= i < j < |review.artifacts| ==> review.artifacts[i].path != review.artifacts[j].path
    ensures ArtifactsMatch(h, files, review.artifacts)
  {
    var artifacts := review.artifacts;
    forall i | 0 <= i < |artifacts| ensures Bound(h, files, artifacts[i]) && artifacts[i].path != HANDOFF_PATH {
      assert Artifact(artifacts[i].path, artifacts[i].sha) in artifacts;
    }
    forall path | path in files && path != HANDOFF_PATH ensures path in PathsOf(artifacts) {
      assert Artifact(path, h.screen.hash(files[path])) in artifacts;
      var i :| 0 <= i < |artifacts| && artifacts[i] == Artifact(path, h.screen.hash(files[path]));
    }
    assert PathsOf(artifacts) == files.Keys - {HANDOFF_PATH};
    PathsCount(artifacts);
    assert |files.Keys| == |files|;
  }

  lemma HandedOver(h: Host, files: Files, review: Handoff)
    requires HANDOFF_PATH in files && HANDOFF_PATH !in PathsOf(review.artifacts)
    requires forall i, j :: 0 <= i < j < |review.artifacts| ==> review.artifacts[i].path != review.artifacts[j].path
    ensures ArtifactsMatch(h, files, review.artifacts) <==> HandsOver(h, files, review)
  {
    hide ArtifactsMatch, HandsOver, PathsOf;
    if ArtifactsMatch(h, files, review.artifacts) { MatchedHandsOver(h, files, review); }
    if HandsOver(h, files, review) { HandsOverMatched(h, files, review); }
  }

  lemma HandoffPlaces(g: Grammar, review: Handoff)
    requires HandoffGood(g, review)
    ensures HANDOFF_PATH !in PathsOf(review.artifacts)
    ensures forall i, j :: 0 <= i < j < |review.artifacts| ==> review.artifacts[i].path != review.artifacts[j].path
    ensures Artifact(MANIFEST_PATH, review.manifest) in review.artifacts && Artifact(ASSESSMENT_PATH, review.assessment) in review.artifacts
  {
    hide DigestText, Less, Recorded, AuthorityId;
    forall i, j | 0 <= i < j < |review.artifacts| ensures review.artifacts[i].path != review.artifacts[j].path {
      LessTotal(review.artifacts[i].path, review.artifacts[j].path);
    }
  }

  /** The hashes of the two records the handoff names are among those it lists. */
  lemma RecordHashes(h: Host, files: Files, review: Handoff)
    requires HandoffGood(h.screen.grammar, review) && HandsOver(h, files, review)
    ensures MANIFEST_PATH in files && review.manifest == h.screen.hash(files[MANIFEST_PATH])
    ensures ASSESSMENT_PATH in files && review.assessment == h.screen.hash(files[ASSESSMENT_PATH])
  {
    hide HandoffGood;
    HandoffPlaces(h.screen.grammar, review);
  }

  lemma MatchedExactly(h: Host, scope: string, files: Files, m: Manifest, review: Handoff, a: Assessment)
    ensures Matched(h, scope, files, m, review, a) <==>
            && Reads(h.manifests, files, "expected/package.json", m) && Reads(h.handoffs, files, "expected/review-handoff.json", review)
            && Reads(h.assessments, files, "expected/assessment.json", a)
            && ManifestGood(h.screen.grammar, m) && HandoffGood(h.screen.grammar, review) && AssessmentGood(h.screen.grammar, a)
            && m.scope == scope && review.scope == scope && a.scope == scope
            && HoldsInputs(h, files, m) && HandsOver(h, files, review)
            && review.manifest == a.manifest && InputsDigest(h, m, review.inputs) && a.inputs == review.inputs
  {
    hide ManifestGood, HandoffGood, AssessmentGood, HandoffValid, AssessmentValid, HeadValid, SourcesValid, BrowserValid, Apart, Named, Inputs;
    hide HoldsInputs, HandsOver, InputsMatch, ArtifactsMatch, Digest, PathsOf;
    ManifestExactly(h.screen.grammar, m);
    HandoffExactly(h.screen.grammar, review);
    AssessmentExactly(h.screen.grammar, a);
    if ManifestValid(h.screen.grammar, m) { InputsHeld(h, files, m); }
    if HandoffGood(h.screen.grammar, review) && HANDOFF_PATH in files {
      HandoffPlaces(h.screen.grammar, review);
      HandedOver(h, files, review);
      if HandsOver(h, files, review) { RecordHashes(h, files, review); }
    }
  }

  lemma SixFiles(h: Host, files: Files, m: Manifest)
    requires InputsMatch(h, files, Inputs(m))
    ensures 6 <= |files|
  {
    assert |Inputs(m)| == |Named(m)| >= 3;
  }

  /** Inspection accepts exactly the packages that are whole, and reads their records. */
  lemma AcceptedExactly(h: Host, scope: string, expected: string, files: Files, m: Manifest, review: Handoff, a: Assessment)
    ensures Whole(h, scope, expected, files, m, review, a) <==>
            && Accepted(h, scope, expected, files)
            && m == ManifestIn(h, scope, files) && review == HandoffIn(h, scope, files) && a == AssessmentIn(h, files)
  {
    hide ManifestGood, HandoffGood, AssessmentGood, ManifestValid, HandoffValid, AssessmentValid, Inputs;
    hide HoldsInputs, HandsOver, InputsMatch, ArtifactsMatch, Digest, DigestText, Stored, AllHoldable, RecordsAgree, InputsDigest;
    StoredExactly(h.screen, files);
    MatchedExactly(h, scope, files, m, review, a);
    AcceptedMatched(h, scope, expected, files, m, review, a);
    if Matched(h, scope, files, m, review, a) { SixFiles(h, files, m); }
    assert DigestIs(h, scope, files, expected) <==> WholeDigest(h, scope, files, expected);
  }

  lemma AcceptedMatched(h: Host, scope: string, expected: string, files: Files, m: Manifest, review: Handoff, a: Assessment)
    ensures Matched(h, scope, files, m, review, a) && Around(h, scope, expected, files) <==>
            && Accepted(h, scope, expected, files)
            && m == ManifestIn(h, scope, files) && review == HandoffIn(h, scope, files) && a == AssessmentIn(h, files)
  {
    hide HeadValid, SourcesValid, BrowserValid, Apart, HandoffValid, AssessmentValid, Named, DigestText, Stored, DigestIs, InputsMatch, ArtifactsMatch, RecordsAgree, PathsOf, Inputs;
    if Accepted(h, scope, expected, files) { AcceptedFiles(h, scope, expected, files); }
    forall path ensures path in RECORD_PATHS <==> LiesIn(path, 6) { RecordPathsAre(path); }
  }
}
