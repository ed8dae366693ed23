/** Everything Build returns is accepted by inspectSnapshot with the returned scope and
    digest and the same private predicate (packagev3/build.go, snapshot.go). */
module PackageAgreement {
  import opened Common
  import opened Digests
  import opened PackageRecords
  import opened PackageFiles
  import opened PackageAssessment
  import opened PackageInspect
  import opened PackageBuild
  import SupplementAgreement
  import BrowserSupplement

  /** What the parameters owe: SHA-256 texts, records that decode to what was encoded, and
      paths that stay apart below a scope. */
  ghost predicate Lawful(h: Host) {
    && JoinsApart(h.sealing)
    && (forall b: Bytes {:trigger h.screen.hash(b)} :: DigestText(h.screen.hash(b)))
    && (forall v, s, f {:trigger h.sealing.seal(v, s, f)} :: DigestText(h.sealing.seal(v, s, f)))
    && (forall m {:trigger h.manifests.encode(m)} :: ManifestValid(h.screen.grammar, m) ==> h.manifests.decode(h.manifests.encode(m)) == Some(m))
    && (forall r {:trigger h.handoffs.encode(r)} :: HandoffValid(h.screen.grammar, r) ==> h.handoffs.decode(h.handoffs.encode(r)) == Some(r))
    && (forall a {:trigger h.assessments.encode(a)} :: AssessmentValid(h.screen.grammar, a) ==> h.assessments.decode(h.assessments.encode(a)) == Some(a))
  }

  // ---------- Files and the artifacts that describe them ----------

  /** The files are those of the artifacts, each with its hash. */
  ghost predicate Holds(s: Screen, files: Files, artifacts: seq<Artifact>) {
    && Stored(s, files) && |files| <= MAX_FILES && files.Keys == PathsOf(artifacts)
    && forall a :: a in artifacts ==> a.path in files && s.hash(files[a.path]) == a.sha
  }

  lemma StoredNext(s: Screen, files: Files, path: string, data: Bytes)
    requires Stored(s, files) && Fits(s, files, path, data)
    ensures Stored(s, files[path := data])
  {
    hide FileOk;
    TotalAdded(files, path, data);
  }

  lemma PathsAdded(artifacts: seq<Artifact>, a: Artifact)
    ensures PathsOf(artifacts + [a]) == PathsOf(artifacts) + {a.path}
  {
    var more := artifacts + [a];
    assert more[..|artifacts| + 1] == more && more[..|artifacts|] == artifacts;
    PathsNext(more, |artifacts|);
  }

  lemma HoldsNext(s: Screen, files: Files, artifacts: seq<Artifact>, path: string, data: Bytes)
    requires Holds(s, files, artifacts) && Fits(s, files, path, data)
    ensures Holds(s, files[path := data], artifacts + [ArtifactFor(s, path, data)])
    ensures |files[path := data]| == |files| + 1 && path !in PathsOf(artifacts)
  {
    hide Stored, FileOk, TotalBytes, PathsOf;
    StoredNext(s, files, path, data);
    PathsAdded(artifacts, ArtifactFor(s, path, data));
    assert files[path := data].Keys == files.Keys + {path};
  }

  lemma HoldsSame(s: Screen, files: Files, a: seq<Artifact>, b: seq<Artifact>)
    requires Holds(s, files, a) && forall x :: x in a <==> x in b
    ensures Holds(s, files, b)
  {
    SamePaths(a, b);
    SamePaths(b, a);
  }

  lemma {:induction false} HoldsSources(s: Screen, files: Files, inputs: seq<SourceInput>, artifacts: seq<Artifact>)
    requires Holds(s, files, artifacts) && Gathered(s, files, inputs).Some?
    ensures var g := Gathered(s, files, inputs).value; Holds(s, g.files, artifacts + SourceArtifacts(g.sources))
  {
    hide Holds, Fits, AuthorityId, KindValid, ClaimFits;
    var g := Gathered(s, files, inputs).value;
    if inputs == [] {
      assert artifacts + SourceArtifacts([]) == artifacts;
    } else {
      var front, last := inputs[..|inputs| - 1], inputs[|inputs| - 1];
      var b := Gathered(s, files, front).value;
      HoldsSources(s, files, front, artifacts);
      HoldsNext(s, b.files, artifacts + SourceArtifacts(b.sources), last.path, last.bytes);
      assert artifacts + SourceArtifacts(g.sources) == artifacts + SourceArtifacts(b.sources) + [ArtifactFor(s, last.path, last.bytes)];
    }
  }

  lemma {:induction false} HoldsReviews(s: Screen, files: Files, reviews: seq<ReviewInput>, artifacts: seq<Artifact>)
    requires Holds(s, files, artifacts) && Reviewed(s, files, reviews).Some?
    ensures var r := Reviewed(s, files, reviews).value; Holds(s, r.0, artifacts + r.1)
  {
    if reviews == [] {
      assert artifacts + [] == artifacts;
    } else {
      var front, last := reviews[..|reviews| - 1], reviews[|reviews| - 1];
      var b := Reviewed(s, files, front).value;
      HoldsReviews(s, files, front, artifacts);
      HoldsNext(s, b.0, artifacts + b.1, last.path, last.bytes);
      assert artifacts + (b.1 + [ArtifactFor(s, last.path, last.bytes)]) == artifacts + b.1 + [ArtifactFor(s, last.path, last.bytes)];
    }
  }

  // ---------- Stage by stage ----------

  lemma ShapedHolds(h: Host, o: BuildOptions)
    requires WithShapes(h, o).Some?
    ensures var d := WithShapes(h, o).value; Holds(h.screen, d.files, Named(d.manifest)) && d.manifest.browser.None? && d.manifest.scope == o.scope
  {
    var s, d := h.screen, WithShapes(h, o).value;
    var w, dt := ArtifactFor(s, WORKFLOW_PATH, o.workflow), ArtifactFor(s, DATA_PATH, o.data);
    NothingHeld(s);
    hide Gathered, Fits, Holds, Named, Stored;
    HoldsNext(s, map[], [], WORKFLOW_PATH, o.workflow);
    HoldsNext(s, map[WORKFLOW_PATH := o.workflow], [] + [w], DATA_PATH, o.data);
    var files := WithInputs(h, o).value;
    var g := Gathered(s, files, o.sources).value;
    HoldsSources(s, files, o.sources, [] + [w] + [dt]);
    var before := [] + [w] + [dt] + SourceArtifacts(g.sources);
    HoldsNext(s, g.files, before, SHAPES_PATH, FileAt(d.files, SHAPES_PATH));
    NamedWithout(d.manifest, before);
    HoldsSame(s, d.files, before + [d.manifest.shapes], Named(d.manifest));
  }

  lemma NothingHeld(s: Screen)
    ensures Holds(s, map[], [])
  {
  }

  lemma NamedWithout(m: Manifest, before: seq<Artifact>)
    requires m.browser.None? && before == [] + [m.workflow] + [m.data] + SourceArtifacts(m.sources)
    ensures forall x :: x in before + [m.shapes] <==> x in Named(m)
  {
  }

  lemma BrowsedHolds(h: Host, o: BuildOptions, d: Draft)
    requires Holds(h.screen, d.files, Named(d.manifest)) && d.manifest.browser.None? && WithBrowser(h, o, d).Some?
    ensures var r := WithBrowser(h, o, d).value; Holds(h.screen, r.files, Named(r.manifest)) && r.manifest.scope == d.manifest.scope
  {
    hide Holds, Named, Fits, Reviewed;
    var r := WithBrowser(h, o, d).value;
    if r.manifest.browser.Some? {
      var s := h.screen;
      var reviewed := if o.browser.Some? then Reviewed(s, d.files, o.browser.value.reviews).value else (d.files, []);
      if o.browser.Some? {
        HoldsReviews(s, d.files, o.browser.value.reviews, Named(d.manifest));
      } else {
        assert Named(d.manifest) + [] == Named(d.manifest);
      }
      var bytes := FileAt(r.files, BROWSER_PATH);
      HoldsNext(s, reviewed.0, Named(d.manifest) + reviewed.1, BROWSER_PATH, bytes);
      NamedWith(d.manifest, r.manifest, reviewed.1);
      HoldsSame(s, r.files, Named(d.manifest) + reviewed.1 + [r.manifest.browser.value], Named(r.manifest));
    }
  }

  lemma NamedWith(before: Manifest, after: Manifest, stored: seq<Artifact>)
    requires before.browser.None? && after.browser.Some? && after == before.(browser := after.browser, reviews := after.reviews)
    requires multiset(after.reviews) == multiset(stored)
    ensures forall x :: x in Named(before) + stored + [after.browser.value] <==> x in Named(after)
  {
    forall x ensures x in after.reviews <==> x in stored {
      assert x in after.reviews <==> x in multiset(after.reviews);
    }
  }

  lemma ManifestHolds(h: Host, d: Draft)
    requires Holds(h.screen, d.files, Named(d.manifest)) && WithManifest(h, d).Some?
    ensures var r := WithManifest(h, d).value;
            && Holds(h.screen, r.files, Named(r.manifest) + [ArtifactFor(h.screen, MANIFEST_PATH, h.manifests.encode(r.manifest))])
            && r.manifest.scope == d.manifest.scope && ManifestValid(h.screen.grammar, r.manifest)
            && FileAt(r.files, MANIFEST_PATH) == h.manifests.encode(r.manifest)
  {
    hide Holds, Fits, ManifestValid, Sort;
    var r := WithManifest(h, d).value;
    SortedSources(d.manifest, r.manifest);
    hide Named;
    HoldsSame(h.screen, d.files, Named(d.manifest), Named(r.manifest));
    HoldsNext(h.screen, d.files, Named(r.manifest), MANIFEST_PATH, h.manifests.encode(r.manifest));
  }

  lemma SortedSources(before: Manifest, after: Manifest)
    requires multiset(after.sources) == multiset(before.sources) && after == before.(sources := after.sources)
    ensures forall x :: x in Named(before) <==> x in Named(after)
  {
    forall s ensures s in after.sources <==> s in before.sources {
      assert s in after.sources <==> s in multiset(after.sources);
    }
    SameSourceArtifacts(before.sources, after.sources);
    SameSourceArtifacts(after.sources, before.sources);
  }

  lemma SameSourceArtifacts(a: seq<Source>, b: seq<Source>)
    requires forall s :: s in a ==> s in b
    ensures forall x :: x in SourceArtifacts(a) ==> x in SourceArtifacts(b)
  {
    forall x | x in SourceArtifacts(a) ensures x in SourceArtifacts(b) {
      var i :| 0 <= i < |a| && SourceArtifacts(a)[i] == x;
      assert a[i] in a;
      var j :| 0 <= j < |b| && b[j] == a[i];
      assert SourceArtifacts(b)[j] == x;
    }
  }

  // ---------- The finished package ----------

  /** The three records over the named inputs, with the bytes they were stored as. */
  lemma RecordFiles(h: Host, d: Draft, a: Assessment, review: Handoff, assessed: Files, files: Files)
    requires Holds(h.screen, d.files, Named(d.manifest) + [ArtifactFor(h.screen, MANIFEST_PATH, h.manifests.encode(d.manifest))])
    requires FileAt(d.files, MANIFEST_PATH) == h.manifests.encode(d.manifest)
    requires Fits(h.screen, d.files, ASSESSMENT_PATH, h.assessments.encode(a)) && assessed == d.files[ASSESSMENT_PATH := h.assessments.encode(a)]
    requires Fits(h.screen, assessed, HANDOFF_PATH, h.handoffs.encode(review)) && files == assessed[HANDOFF_PATH := h.handoffs.encode(review)]
    ensures Holds(h.screen, files, Named(d.manifest) + [ArtifactFor(h.screen, MANIFEST_PATH, h.manifests.encode(d.manifest)),
                                                        ArtifactFor(h.screen, ASSESSMENT_PATH, h.assessments.encode(a)),
                                                        ArtifactFor(h.screen, HANDOFF_PATH, h.handoffs.encode(review))])
    ensures FileAt(assessed, MANIFEST_PATH) == FileAt(files, MANIFEST_PATH) == h.manifests.encode(d.manifest)
    ensures FileAt(assessed, ASSESSMENT_PATH) == FileAt(files, ASSESSMENT_PATH) == h.assessments.encode(a)
    ensures FileAt(files, HANDOFF_PATH) == h.handoffs.encode(review) && files - {HANDOFF_PATH} == assessed && HANDOFF_PATH in files
  {
    PathsDiffer();
    var x := ArtifactFor(h.screen, MANIFEST_PATH, h.manifests.encode(d.manifest));
    var y := ArtifactFor(h.screen, ASSESSMENT_PATH, h.assessments.encode(a));
    var z := ArtifactFor(h.screen, HANDOFF_PATH, h.handoffs.encode(review));
    hide Holds, Named;
    HoldsNext(h.screen, d.files, Named(d.manifest) + [x], ASSESSMENT_PATH, h.assessments.encode(a));
    HoldsNext(h.screen, assessed, Named(d.manifest) + [x] + [y], HANDOFF_PATH, h.handoffs.encode(review));
    assert Named(d.manifest) + [x] + [y] + [z] == Named(d.manifest) + [x, y, z];
    assert HANDOFF_PATH !in assessed;
  }

  lemma AssessedAgrees(h: Host, m: Manifest, files: Files)
    requires Assessed(h, m, files).Some?
    ensures var a, digest := Assessed(h, m, files).value, InputDigest(h.sealing, m);
            digest.Some? && a.inputs == digest.value && a.scope == m.scope && a.manifest == h.screen.hash(h.manifests.encode(m))
  {
    hide ManifestValid, InputsOk, BrowserVerified, Digest, Inputs;
  }

  lemma ScopeChecked(h: Host, o: BuildOptions)
    requires WithShapes(h, o).Some?
    ensures h.screen.grammar.scope(o.scope)
  {
    hide Gathered, Fits;
  }

  lemma PathsDiffer()
    ensures MANIFEST_PATH != ASSESSMENT_PATH && MANIFEST_PATH != HANDOFF_PATH && ASSESSMENT_PATH != HANDOFF_PATH
  {
    assert |MANIFEST_PATH| == 21 && |ASSESSMENT_PATH| == 24 && |HANDOFF_PATH| == 28;
  }

  lemma CountFiles(files: Files, paths: set<string>, records: set<string>)
    requires files.Keys == paths + records && paths !! records
    ensures |files| == |paths| + |records|
  {
    assert |files| == |files.Keys|;
  }

  lemma HeldInputs(s: Screen, files: Files, artifacts: seq<Artifact>, inputs: seq<Artifact>)
    requires Holds(s, files, artifacts) && forall a :: a in inputs ==> a in artifacts
    ensures forall i :: 0 <= i < |inputs| ==> s.hash(FileAt(files, inputs[i].path)) == inputs[i].sha
  {
    hide Stored, PathsOf;
    forall i | 0 <= i < |inputs| ensures s.hash(FileAt(files, inputs[i].path)) == inputs[i].sha {
      assert inputs[i] in inputs;
    }
  }

  lemma HeldKeys(s: Screen, files: Files, artifacts: seq<Artifact>)
    requires Holds(s, files, artifacts)
    ensures files.Keys == PathsOf(artifacts)
  {
  }

  lemma ApartCounts(files: seq<Artifact>)
    requires Apart(files)
    ensures |PathsOf(files)| == |files| && PathsOf(files) !! RECORD_PATHS
  {
    PathsCount(files);
    Outside(files);
  }

  lemma KeysMatch(h: Host, files: Files, m: Manifest, records: seq<Artifact>)
    requires Holds(h.screen, files, Named(m) + records) && PathsOf(records) == RECORD_PATHS && Apart(Named(m)) && |Named(m)| >= 3
    ensures InputsMatch(h, files, Inputs(m)) && |files| >= 6
  {
    hide Named, Inputs, PathsOf, Holds, Apart, InputDigest;
    ApartCounts(Named(m));
    RecordPathsCount();
    JoinedPaths(Named(m), records);
    SortedInputs(m);
    HeldKeys(h.screen, files, Named(m) + records);
    CountFiles(files, PathsOf(Named(m)), RECORD_PATHS);
    HeldInputs(h.screen, files, Named(m) + records, Inputs(m));
  }

  lemma RecordPaths(records: seq<Artifact>)
    requires |records| == 3 && records[0].path == MANIFEST_PATH && records[1].path == ASSESSMENT_PATH && records[2].path == HANDOFF_PATH
    ensures PathsOf(records) == RECORD_PATHS
  {
  }

  lemma JoinedPaths(a: seq<Artifact>, b: seq<Artifact>)
    ensures PathsOf(a + b) == PathsOf(a) + PathsOf(b)
  {
    forall path | path in PathsOf(a) + PathsOf(b) ensures path in PathsOf(a + b) {
      if i :| 0 <= i < |a| && a[i].path == path {
        assert (a + b)[i].path == path;
      } else {
        var i :| 0 <= i < |b| && b[i].path == path;
        assert (a + b)[|a| + i].path == path;
      }
    }
  }

  /** The handoff over all other files binds each of them. */
  lemma ListedArtifacts(h: Host, files: Files, artifacts: seq<Artifact>)
    requires HANDOFF_PATH in files && artifacts == Sort(ByPath, Listing(h.screen, files - {HANDOFF_PATH}))
    ensures ArtifactsMatch(h, files, artifacts)
  {
    hide Sort, Listing;
    var before := files - {HANDOFF_PATH};
    var listing := Listing(h.screen, before);
    assert files.Keys == before.Keys + {HANDOFF_PATH};
    assert |before| == |before.Keys| && |files| == |files.Keys|;
    forall i | 0 <= i < |artifacts| ensures Bound(h, files, artifacts[i]) {
      assert artifacts[i] in multiset(artifacts);
      assert artifacts[i] in listing;
    }
  }

  lemma ListedDigest(h: Host, scope: string, files: Files, sum: string)
    requires Lawful(h) && Digest(h.sealing, scope, DIGEST_VERSION, Listing(h.screen, files)) == Some(sum)
    ensures DigestIs(h, scope, files, sum) && DigestText(sum)
  {
    hide Sort, Listing, DigestText, Proper, ManifestValid, HandoffValid, AssessmentValid, Enumerates, ByteLength, Digest;
    SealedText(h, scope, Listing(h.screen, files), sum);
  }

  lemma SealedText(h: Host, scope: string, entries: seq<Artifact>, sum: string)
    requires Lawful(h) && Digest(h.sealing, scope, DIGEST_VERSION, entries) == Some(sum)
    ensures DigestText(sum)
  {
    hide Sort, DigestText, Proper, ByteLength, Reported, ManifestValid, HandoffValid, AssessmentValid, JoinsApart;
  }

  lemma Decodes(h: Host, m: Manifest, a: Assessment, review: Handoff)
    requires Lawful(h)
    ensures ManifestValid(h.screen.grammar, m) ==> h.manifests.decode(h.manifests.encode(m)) == Some(m)
    ensures AssessmentValid(h.screen.grammar, a) ==> h.assessments.decode(h.assessments.encode(a)) == Some(a)
    ensures HandoffValid(h.screen.grammar, review) ==> h.handoffs.decode(h.handoffs.encode(review)) == Some(review)
  {
    hide ManifestValid, HandoffValid, AssessmentValid;
  }

  lemma ManifestApart(g: Grammar, m: Manifest)
    ensures ManifestValid(g, m) ==> Apart(Named(m))
    ensures |Named(m)| >= 3
  {
    hide HeadValid, SourcesValid, BrowserValid, Apart;
  }

  lemma HeldStored(s: Screen, files: Files, artifacts: seq<Artifact>)
    ensures Holds(s, files, artifacts) ==> Stored(s, files) && |files| <= MAX_FILES
  {
  }

  /** Whatever Build returns is accepted: the same files under the same scope, digest and
      screen, and inspection reads back the same records. */
  lemma BuiltIsAccepted(h: Host, o: BuildOptions, p: Package)
    requires Lawful(h) && Built(h, o) == Some(p)
    ensures Accepted(h, o.scope, p.sha, p.files)
    ensures ManifestIn(h, o.scope, p.files) == p.manifest && HandoffIn(h, o.scope, p.files) == p.handoff && AssessmentIn(h, p.files) == p.assessment
  {
    hide Fits, WithShapes, WithBrowser, Assessed, ManifestValid, AssessmentValid, HandoffValid, Sort, Digest, Listing, Holds, Named, Inputs, InputDigest;
    hide Lawful, InputsMatch, ArtifactsMatch, DigestIs, DigestText, Stored, Apart, PathsOf;
    var shaped := WithShapes(h, o).value;
    ShapedHolds(h, o);
    ScopeChecked(h, o);
    var browsed := WithBrowser(h, o, shaped).value;
    BrowsedHolds(h, o, shaped);
    var named := WithManifest(h, browsed).value;
    ManifestHolds(h, browsed);
    var (assessed, a) := WithAssessment(h, named).value;
    AssessedAgrees(h, named.manifest, named.files);
    var (files, review) := WithHandoff(h, o.scope, named.manifest, a, assessed).value;
    RecordFiles(h, named, a, review, assessed, files);
    var records := [ArtifactFor(h.screen, MANIFEST_PATH, h.manifests.encode(named.manifest)),
                    ArtifactFor(h.screen, ASSESSMENT_PATH, h.assessments.encode(a)),
                    ArtifactFor(h.screen, HANDOFF_PATH, h.handoffs.encode(review))];
    RecordPaths(records);
    ManifestApart(h.screen.grammar, named.manifest);
    KeysMatch(h, files, named.manifest, records);
    HeldStored(h.screen, files, Named(named.manifest) + records);
    ListedArtifacts(h, files, review.artifacts);
    ListedDigest(h, o.scope, files, p.sha);
    Decodes(h, named.manifest, a, review);
  }

  // ---------- The browser supplement of a package ----------

  /** Nothing stored is overwritten. */
  ghost predicate Grows(before: Files, after: Files) {
    forall path :: path in before ==> path in after && after[path] == before[path]
  }

  lemma {:induction false} ReviewsGrow(s: Screen, files: Files, reviews: seq<ReviewInput>)
    requires Reviewed(s, files, reviews).Some?
    ensures Grows(files, Reviewed(s, files, reviews).value.0)
  {
    hide FileOk, TotalBytes;
    if reviews != [] { ReviewsGrow(s, files, reviews[..|reviews| - 1]); }
  }

  lemma {:induction false} SourcesGrow(s: Screen, files: Files, inputs: seq<SourceInput>)
    requires Gathered(s, files, inputs).Some?
    ensures Grows(files, Gathered(s, files, inputs).value.files)
  {
    hide FileOk, TotalBytes, AuthorityId, KindValid, ClaimFits;
    if inputs != [] { SourcesGrow(s, files, inputs[..|inputs| - 1]); }
  }

  lemma ShapedWorkflow(h: Host, o: BuildOptions)
    requires WithShapes(h, o).Some?
    ensures var files := WithShapes(h, o).value.files; SHAPES_PATH in files && WORKFLOW_PATH in files && files[WORKFLOW_PATH] == o.workflow
    ensures WithShapes(h, o).value.manifest.browser.None?
  {
    hide FileOk, TotalBytes, Gathered;
    SourcesGrow(h.screen, WithInputs(h, o).value, o.sources);
  }

  lemma SameBrowserSources(a: seq<Source>, b: seq<Source>)
    requires multiset(a) == multiset(b)
    requires forall i, j :: 0 <= i < j < |b| ==> b[i].id != b[j].id && b[i].artifact.path != b[j].artifact.path
    ensures SupplementAgreement.SameSources(BrowserSources(a), BrowserSources(b))
  {
    DistinctPermuted(a, b);
    forall s ensures s in BrowserSources(a) <==> s in BrowserSources(b) {
      BrowserSourceMoves(a, b, s);
      BrowserSourceMoves(b, a, s);
    }
  }

  lemma DistinctPermuted(a: seq<Source>, b: seq<Source>)
    requires multiset(a) == multiset(b)
    requires forall i, j :: 0 <= i < j < |b| ==> b[i].id != b[j].id && b[i].artifact.path != b[j].artifact.path
    ensures forall i, j :: 0 <= i < j < |a| ==> a[i].id != a[j].id && a[i].artifact.path != a[j].artifact.path
  {
    forall i, j | 0 <= i < j < |a| ensures a[i].id != a[j].id && a[i].artifact.path != a[j].artifact.path {
      CountOf(a, a[i]);
      CountOf(b, a[i]);
      CountOf(a, a[j]);
      CountOf(b, a[j]);
    }
  }

  lemma BrowserSourceMoves(a: seq<Source>, b: seq<Source>, s: BrowserSupplement.Source)
    requires multiset(a) == multiset(b)
    ensures s in BrowserSources(a) ==> s in BrowserSources(b)
  {
    if s in BrowserSources(a) {
      var i :| 0 <= i < |a| && BrowserSources(a)[i] == s;
      CountOf(a, a[i]);
      CountOf(b, a[i]);
      var j :| 0 <= j < |b| && b[j] == a[i];
      assert BrowserSources(b)[j] == s;
    }
  }

  /** A supplement Build derived is accepted by Assess, whatever order the sources came in,
      when the workflow's step ids are distinct. */
  lemma DerivedIsVerified(h: Host, o: BuildOptions, d: Draft, b: Draft, n: Draft)
    requires SupplementAgreement.Lossless(h.supplements)
    requires WithShapes(h, o) == Some(d) && WithBrowser(h, o, d) == Some(b) && WithManifest(h, b) == Some(n)
    requires h.document(o.workflow).Some?
    requires var steps := h.document(o.workflow).value.steps; forall i, j :: 0 <= i < j < |steps| ==> steps[i].id != steps[j].id
    ensures BrowserVerified(h, n.manifest, n.files)
  {
    if n.manifest.browser.Some? {
      hide Fits, WithShapes, Reviewed, Sort, SupplementAgreement.Added, SupplementAgreement.Accepts, SupplementAgreement.SameSources;
      var w, doc, sha := h.world(FileAt(d.files, SHAPES_PATH)), h.document(o.workflow), d.manifest.workflow.sha;
      var options := if o.browser.Some? then Some(SupplementAgreement.Options(o.browser.value.permissions, Reviewed(h.screen, d.files, o.browser.value.reviews).value.1)) else None;
      var sources, sorted := BrowserSources(d.manifest.sources), BrowserSources(n.manifest.sources);
      SourcesApart(h, n.manifest);
      SameBrowserSources(d.manifest.sources, n.manifest.sources);
      SupplementAgreement.DistinctStepsAreAccepted(w, doc.value, sha, sources, sorted, h.supplements, options);
      StoredBrowser(h, o, d, b, n);
    }
  }

  lemma SourcesApart(h: Host, m: Manifest)
    requires ManifestValid(h.screen.grammar, m)
    ensures forall i, j :: 0 <= i < j < |m.sources| ==> m.sources[i].id != m.sources[j].id && m.sources[i].artifact.path != m.sources[j].artifact.path
  {
    hide HeadValid, BrowserValid, SourceValid, CountKind;
    forall i, j | 0 <= i < j < |m.sources| ensures m.sources[i].artifact.path != m.sources[j].artifact.path {
      assert Named(m)[3 + i] == m.sources[i].artifact && Named(m)[3 + j] == m.sources[j].artifact;
    }
  }

  lemma FitsNew(s: Screen, files: Files, path: string, data: Bytes)
    ensures Fits(s, files, path, data) ==> path !in files
  {
  }

  lemma StoredBrowser(h: Host, o: BuildOptions, d: Draft, b: Draft, n: Draft)
    requires WithShapes(h, o) == Some(d) && WithBrowser(h, o, d) == Some(b) && WithManifest(h, b) == Some(n) && n.manifest.browser.Some?
    ensures FileAt(n.files, SHAPES_PATH) == FileAt(d.files, SHAPES_PATH) && FileAt(n.files, WORKFLOW_PATH) == o.workflow
    ensures FileAt(n.files, BROWSER_PATH) == FileAt(b.files, BROWSER_PATH) && BROWSER_PATH in b.files
    ensures n.manifest.workflow == d.manifest.workflow && n.manifest.reviews == b.manifest.reviews
  {
    hide Fits, WithShapes, Reviewed, SupplementAgreement.Added, Sort, ManifestValid;
    ShapedWorkflow(h, o);
    var stored := if o.browser.Some? then Reviewed(h.screen, d.files, o.browser.value.reviews).value.0 else d.files;
    FitsNew(h.screen, stored, BROWSER_PATH, FileAt(b.files, BROWSER_PATH));
    FitsNew(h.screen, b.files, MANIFEST_PATH, h.manifests.encode(n.manifest));
    if o.browser.Some? { ReviewsGrow(h.screen, d.files, o.browser.value.reviews); }
  }
}
