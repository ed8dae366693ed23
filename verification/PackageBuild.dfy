/** Build (packagev3/build.go) as it runs, against the package it specifies. */
module PackageBuild {
  import opened Common
  import opened Digests
  import opened PackageRecords
  import opened PackageFiles
  import opened PackageAssessment
  import SupplementAgreement
  import BrowserSupplement

  datatype SourceInput = SourceInput(id: string, kind: string, path: string, bytes: Bytes, shapes: Bytes)

  datatype ReviewInput = ReviewInput(path: string, bytes: Bytes)

  datatype BrowserOptions = BrowserOptions(permissions: map<string, BrowserSupplement.Permission>, reviews: seq<ReviewInput>)

  datatype BuildOptions = BuildOptions(scope: string, workflow: Bytes, data: Bytes, sources: seq<SourceInput>, browser: Option<BrowserOptions>)

  datatype Package = Package(manifest: Manifest, assessment: Assessment, handoff: Handoff, files: Files, sha: string)

  /** Files stored so far, with what the manifest will say of them. */
  datatype Draft = Draft(files: Files, manifest: Manifest)

  // ---------- Sources ----------

  datatype Gathering = Gathering(files: Files, sources: seq<Source>, claims: map<string, Bytes>)

  predicate ClaimFits(s: SourceInput) {
    if s.kind == RUNTIME_KIND then |s.shapes| <= MAX_FILE_BYTES else s.shapes == []
  }

  ghost function Gathered(s: Screen, files: Files, inputs: seq<SourceInput>): Option<Gathering> {
    if inputs == [] then Some(Gathering(files, [], map[]))
    else
      var before, last := Gathered(s, files, inputs[..|inputs| - 1]), inputs[|inputs| - 1];
      if before.None? || !AuthorityId(last.id) || !KindValid(last.kind) || !Fits(s, before.value.files, last.path, last.bytes) || !ClaimFits(last) then None
      else
        var b := before.value;
        Some(Gathering(b.files[last.path := last.bytes], b.sources + [Source(last.id, last.kind, ArtifactFor(s, last.path, last.bytes))],
                       if last.kind == RUNTIME_KIND then b.claims[last.id := last.shapes] else b.claims))
  }

  lemma {:induction false} GatheringStops(s: Screen, files: Files, inputs: seq<SourceInput>, i: nat)
    requires i <= |inputs| && Gathered(s, files, inputs[..i]).None?
    ensures Gathered(s, files, inputs).None?
    decreases |inputs|
  {
    if i < |inputs| {
      assert inputs[..|inputs| - 1][..i] == inputs[..i];
      GatheringStops(s, files, inputs[..|inputs| - 1], i);
    } else {
      assert inputs[..i] == inputs;
    }
  }

  /** The source loop of Build. */
  method GatherSources(packer: Packer, inputs: seq<SourceInput>) returns (ok: bool, sources: seq<Source>, claims: map<string, Bytes>)
    requires packer.Valid()
    modifies packer
    ensures packer.Valid()
    ensures ok <==> Gathered(packer.screen, old(packer.files), inputs).Some?
    ensures ok ==> Gathered(packer.screen, old(packer.files), inputs) == Some(Gathering(packer.files, sources, claims))
  {
    sources, claims := [], map[];
    ghost var start := packer.files;
    assert inputs[..0] == [];
    for i := 0 to |inputs|
      invariant packer.Valid()
      invariant Gathered(packer.screen, start, inputs[..i]) == Some(Gathering(packer.files, sources, claims))
    {
      var s := inputs[i];
      assert inputs[..i + 1][..i] == inputs[..i];
      GatherStep(packer.screen, start, inputs, i);
      hide Gathered, AuthorityId, KindValid, Fits;
      if !AuthorityId(s.id) || !KindValid(s.kind) { GatheringStops(packer.screen, start, inputs, i + 1); return false, sources, claims; }
      var stored := packer.Put(s.path, s.bytes);
      if !stored || !ClaimFits(s) { GatheringStops(packer.screen, start, inputs, i + 1); return false, sources, claims; }
      sources := sources + [Source(s.id, s.kind, ArtifactFor(packer.screen, s.path, s.bytes))];
      if s.kind == RUNTIME_KIND { claims := claims[s.id := s.shapes]; }
    }
    assert inputs[..|inputs|] == inputs;
    return true, sources, claims;
  }

  lemma GatherStep(s: Screen, files: Files, inputs: seq<SourceInput>, i: nat)
    requires i < |inputs| && Gathered(s, files, inputs[..i]).Some?
    ensures var b, next := Gathered(s, files, inputs[..i]).value, inputs[i];
            Gathered(s, files, inputs[..i + 1]) ==
            if !AuthorityId(next.id) || !KindValid(next.kind) || !Fits(s, b.files, next.path, next.bytes) || !ClaimFits(next) then None
            else Some(Gathering(b.files[next.path := next.bytes], b.sources + [Source(next.id, next.kind, ArtifactFor(s, next.path, next.bytes))],
                                if next.kind == RUNTIME_KIND then b.claims[next.id := next.shapes] else b.claims))
  {
    assert inputs[..i + 1][..i] == inputs[..i];
  }

  // ---------- Browser reviews ----------

  ghost function Reviewed(s: Screen, files: Files, reviews: seq<ReviewInput>): Option<(Files, seq<Artifact>)> {
    if reviews == [] then Some((files, []))
    else
      var before, last := Reviewed(s, files, reviews[..|reviews| - 1]), reviews[|reviews| - 1];
      if before.None? || !(REVIEW_PREFIX <= last.path) || !Fits(s, before.value.0, last.path, last.bytes) then None
      else Some((before.value.0[last.path := last.bytes], before.value.1 + [ArtifactFor(s, last.path, last.bytes)]))
  }

  lemma {:induction false} ReviewingStops(s: Screen, files: Files, reviews: seq<ReviewInput>, i: nat)
    requires i <= |reviews| && Reviewed(s, files, reviews[..i]).None?
    ensures Reviewed(s, files, reviews).None?
    decreases |reviews|
  {
    if i < |reviews| {
      assert reviews[..|reviews| - 1][..i] == reviews[..i];
      ReviewingStops(s, files, reviews[..|reviews| - 1], i);
    } else {
      assert reviews[..i] == reviews;
    }
  }

  /** The review loop of addBrowserSupplement. */
  method StoreReviews(packer: Packer, reviews: seq<ReviewInput>) returns (ok: bool, artifacts: seq<Artifact>)
    requires packer.Valid()
    modifies packer
    ensures packer.Valid()
    ensures ok <==> Reviewed(packer.screen, old(packer.files), reviews).Some?
    ensures ok ==> Reviewed(packer.screen, old(packer.files), reviews) == Some((packer.files, artifacts))
  {
    artifacts := [];
    ghost var start := packer.files;
    assert reviews[..0] == [];
    for i := 0 to |reviews|
      invariant packer.Valid() && Reviewed(packer.screen, start, reviews[..i]) == Some((packer.files, artifacts))
    {
      var r := reviews[i];
      assert reviews[..i + 1][..i] == reviews[..i];
      ReviewStep(packer.screen, start, reviews, i);
      hide Reviewed, Fits;
      if !(REVIEW_PREFIX <= r.path) { ReviewingStops(packer.screen, start, reviews, i + 1); return false, artifacts; }
      var stored := packer.Put(r.path, r.bytes);
      if !stored { ReviewingStops(packer.screen, start, reviews, i + 1); return false, artifacts; }
      artifacts := artifacts + [ArtifactFor(packer.screen, r.path, r.bytes)];
    }
    assert reviews[..|reviews|] == reviews;
    return true, artifacts;
  }

  lemma ReviewStep(s: Screen, files: Files, reviews: seq<ReviewInput>, i: nat)
    requires i < |reviews| && Reviewed(s, files, reviews[..i]).Some?
    ensures var b, next := Reviewed(s, files, reviews[..i]).value, reviews[i];
            Reviewed(s, files, reviews[..i + 1]) ==
            if !(REVIEW_PREFIX <= next.path) || !Fits(s, b.0, next.path, next.bytes) then None
            else Some((b.0[next.path := next.bytes], b.1 + [ArtifactFor(s, next.path, next.bytes)]))
  {
    assert reviews[..i + 1][..i] == reviews[..i];
  }

  // ---------- The stages ----------

  ghost function WithInputs(h: Host, o: BuildOptions): Option<Files> {
    var files := Put(h.screen, Put(h.screen, Some(map[]), WORKFLOW_PATH, o.workflow), DATA_PATH, o.data);
    if h.screen.grammar.scope(o.scope) && |o.sources| <= MAX_SOURCES && files.Some? && h.dataObject(o.data) && h.document(o.workflow).Some? then files else None
  }

  /** The manifest before the browser supplement: sources in the caller's order. */
  ghost function WithShapes(h: Host, o: BuildOptions): Option<Draft> {
    var files := WithInputs(h, o);
    if files.None? then None
    else
      var g := Gathered(h.screen, files.value, o.sources);
      if g.None? then None
      else
        var shapes := h.shapes(g.value.sources, g.value.files, g.value.claims);
        if shapes.None? || !Fits(h.screen, g.value.files, SHAPES_PATH, shapes.value) then None
        else
          Some(Draft(g.value.files[SHAPES_PATH := shapes.value],
            Manifest(PACKAGE_VERSION, o.scope, ArtifactFor(h.screen, WORKFLOW_PATH, o.workflow), ArtifactFor(h.screen, DATA_PATH, o.data),
                     ArtifactFor(h.screen, SHAPES_PATH, shapes.value), SHAPE_VERSION, g.value.sources, None, [])))
  }

  /** addBrowserSupplement: reviews stored, supplement derived and stored. */
  ghost function WithBrowser(h: Host, o: BuildOptions, d: Draft): Option<Draft> {
    var reviewed := if o.browser.Some? then Reviewed(h.screen, d.files, o.browser.value.reviews) else Some((d.files, []));
    if reviewed.None? then None
    else
      var options := if o.browser.Some? then Some(SupplementAgreement.Options(o.browser.value.permissions, reviewed.value.1)) else None;
      match SupplementAgreement.Added(h.world(FileAt(d.files, SHAPES_PATH)), h.document(o.workflow), d.manifest.workflow.sha,
                                      BrowserSources(d.manifest.sources), h.supplements, options)
      case Refusal => None
      case NoSupplement => Some(d)
      case Written(bytes, reviews) =>
        if !Fits(h.screen, reviewed.value.0, BROWSER_PATH, bytes) then None
        else Some(Draft(reviewed.value.0[BROWSER_PATH := bytes],
                        d.manifest.(browser := Some(ArtifactFor(h.screen, BROWSER_PATH, bytes)), reviews := reviews)))
  }

  predicate BySourceId(a: Source, b: Source) {
    AtMost(a.id, b.id)
  }

  ghost function WithManifest(h: Host, d: Draft): Option<Draft> {
    var m := d.manifest.(sources := Sort(BySourceId, d.manifest.sources));
    var bytes := h.manifests.encode(m);
    if ManifestValid(h.screen.grammar, m) && Fits(h.screen, d.files, MANIFEST_PATH, bytes) then Some(Draft(d.files[MANIFEST_PATH := bytes], m)) else None
  }

  lemma EnumeratesNext(s: Screen, files: Files, path: string, rest: seq<Artifact>)
    requires path in files && Enumerates(s, rest, files - {path})
    ensures Enumerates(s, rest + [ArtifactFor(s, path, files[path])], files)
  {
    var r := rest + [ArtifactFor(s, path, files[path])];
    assert forall a :: a in r <==> a in rest || a == ArtifactFor(s, path, files[path]);
    assert forall i :: 0 <= i < |rest| ==> rest[i] in rest;
  }

  /** One enumeration of the files. */
  ghost function Listing(s: Screen, files: Files): (r: seq<Artifact>)
    ensures Enumerates(s, r, files) && |r| == |files|
    decreases |files|
  {
    if files == map[] then []
    else
      var path :| path in files;
      var rest := Listing(s, files - {path});
      EnumeratesNext(s, files, path, rest);
      rest + [ArtifactFor(s, path, files[path])]
  }

  /** Sorted, every enumeration is the same. */
  lemma ListingsSort(s: Screen, entries: seq<Artifact>, files: Files)
    requires Enumerates(s, entries, files)
    ensures Sort(ByPath, entries) == Sort(ByPath, Listing(s, files))
  {
    EnumerationsAgree(s, entries, Listing(s, files), files);
    ByPathOrders();
    forall a, b | a in entries && b in entries && ByPath(a, b) && ByPath(b, a) ensures a == b {
      LessTotal(a.path, b.path);
    }
    SortPermuted(ByPath, entries, Listing(s, files));
  }

  ghost function WithAssessment(h: Host, d: Draft): Option<(Files, Assessment)> {
    var a := Assessed(h, d.manifest, d.files);
    if a.None? || !AssessmentValid(h.screen.grammar, a.value) || !Fits(h.screen, d.files, ASSESSMENT_PATH, h.assessments.encode(a.value)) then None
    else Some((d.files[ASSESSMENT_PATH := h.assessments.encode(a.value)], a.value))
  }

  ghost function HandoffFor(h: Host, scope: string, files: Files, a: Assessment, credentials: seq<string>): Handoff {
    Handoff(HANDOFF_VERSION, scope, a.inputs, h.screen.hash(FileAt(files, MANIFEST_PATH)), h.screen.hash(FileAt(files, ASSESSMENT_PATH)),
            Sort(ByPath, Listing(h.screen, files)), "review_required", credentials)
  }

  ghost function WithHandoff(h: Host, scope: string, m: Manifest, a: Assessment, files: Files): Option<(Files, Handoff)> {
    var credentials := h.credentials(m, files);
    if credentials.None? then None
    else
      var review := HandoffFor(h, scope, files, a, credentials.value);
      if !HandoffValid(h.screen.grammar, review) || !Fits(h.screen, files, HANDOFF_PATH, h.handoffs.encode(review)) then None
      else Some((files[HANDOFF_PATH := h.handoffs.encode(review)], review))
  }

  /** The package Build returns for these options, if any. */
  ghost function Built(h: Host, o: BuildOptions): Option<Package> {
    var shaped := WithShapes(h, o);
    if shaped.None? then None else
    var browsed := WithBrowser(h, o, shaped.value);
    if browsed.None? then None else
    var named := WithManifest(h, browsed.value);
    if named.None? then None else
    var assessed := WithAssessment(h, named.value);
    if assessed.None? then None else
    var reviewed := WithHandoff(h, o.scope, named.value.manifest, assessed.value.1, assessed.value.0);
    if reviewed.None? then None else
    var files := reviewed.value.0;
    var sum := Digest(h.sealing, o.scope, DIGEST_VERSION, Listing(h.screen, files));
    if sum.None? then None else Some(Package(named.value.manifest, assessed.value.1, reviewed.value.1, files, sum.value))
  }

  // ---------- Build ----------

  method StoreInputs(h: Host, packer: Packer, o: BuildOptions) returns (d: Option<Draft>)
    requires packer.Valid() && packer.screen == h.screen && packer.files == map[]
    modifies packer
    ensures packer.Valid() && d == WithShapes(h, o) && (d.Some? ==> packer.files == d.value.files)
  {
    hide Fits, Gathered, Stored, FileOk, TotalBytes;
    if !h.screen.grammar.scope(o.scope) || |o.sources| > MAX_SOURCES { return None; }
    var ok := packer.Put(WORKFLOW_PATH, o.workflow);
    if !ok { return None; }
    ok := packer.Put(DATA_PATH, o.data);
    if !ok || !h.dataObject(o.data) || h.document(o.workflow).None? { return None; }
    var sources, claims;
    ok, sources, claims := GatherSources(packer, o.sources);
    if !ok { return None; }
    var shapes := h.shapes(sources, packer.files, claims);
    if shapes.None? { return None; }
    ok := packer.Put(SHAPES_PATH, shapes.value);
    if !ok { return None; }
    return Some(Draft(packer.files,
      Manifest(PACKAGE_VERSION, o.scope, ArtifactFor(h.screen, WORKFLOW_PATH, o.workflow), ArtifactFor(h.screen, DATA_PATH, o.data),
               ArtifactFor(h.screen, SHAPES_PATH, shapes.value), SHAPE_VERSION, sources, None, [])));
  }

  method StoreBrowser(h: Host, packer: Packer, o: BuildOptions, d: Draft) returns (r: Option<Draft>)
    requires packer.Valid() && packer.screen == h.screen && packer.files == d.files
    modifies packer
    ensures packer.Valid() && r == WithBrowser(h, o, d) && (r.Some? ==> packer.files == r.value.files)
  {
    hide Fits, Reviewed;
    var options: Option<SupplementAgreement.Options> := None;
    if o.browser.Some? {
      var stored, artifacts := StoreReviews(packer, o.browser.value.reviews);
      if !stored { return None; }
      options := Some(SupplementAgreement.Options(o.browser.value.permissions, artifacts));
    }
    var added := SupplementAgreement.AddBrowserSupplement(
      h.world(FileAt(d.files, SHAPES_PATH)), h.document(o.workflow), d.manifest.workflow.sha, BrowserSources(d.manifest.sources), h.supplements, options);
    match added {
      case Refusal => return None;
      case NoSupplement => return Some(d);
      case Written(bytes, reviews) =>
        var ok := packer.Put(BROWSER_PATH, bytes);
        if !ok { return None; }
        return Some(Draft(packer.files, d.manifest.(browser := Some(ArtifactFor(h.screen, BROWSER_PATH, bytes)), reviews := reviews)));
    }
  }

  /** Build. */
  method Build(h: Host, o: BuildOptions) returns (r: Option<Package>)
    requires JoinsApart(h.sealing)
    ensures r == Built(h, o)
  {
    hide Fits, WithShapes, WithBrowser, Assessed, ManifestValid, AssessmentValid, HandoffValid, Sort, Digest, Listing, Stored, Enumerates;
    var packer := new Packer(h.screen);
    var d := StoreInputs(h, packer, o);
    if d.None? { return None; }
    d := StoreBrowser(h, packer, o, d.value);
    if d.None? { return None; }
    var m := d.value.manifest.(sources := Sort(BySourceId, d.value.manifest.sources));
    var ok := ValidateManifest(h.screen.grammar, m);
    if !ok { return None; }
    ok := packer.Put(MANIFEST_PATH, h.manifests.encode(m));
    if !ok { return None; }
    var a := Assess(h, m, packer.files);
    if a.None? { return None; }
    ok := ValidateAssessment(h.screen.grammar, a.value);
    if !ok { return None; }
    ok := packer.Put(ASSESSMENT_PATH, h.assessments.encode(a.value));
    if !ok { return None; }
    r := FinishBuild(h, packer, o, m, a.value);
  }

  /** The end of Build: the handoff over every file so far, and the digest over all. */
  method FinishBuild(h: Host, packer: Packer, o: BuildOptions, m: Manifest, a: Assessment) returns (r: Option<Package>)
    requires packer.Valid() && packer.screen == h.screen && JoinsApart(h.sealing)
    modifies packer
    ensures packer.Valid()
    ensures var reviewed := WithHandoff(h, o.scope, m, a, old(packer.files));
            r == if reviewed.None? then None
                 else
                   var sum := Digest(h.sealing, o.scope, DIGEST_VERSION, Listing(h.screen, reviewed.value.0));
                   if sum.None? then None else Some(Package(m, a, reviewed.value.1, reviewed.value.0, sum.value))
  {
    hide Fits, HandoffValid, Sort, Digest, Listing, Enumerates;
    var credentials := h.credentials(m, packer.files);
    if credentials.None? { return None; }
    var entries := Enumerate(h.screen, packer.files);
    ListingsSort(h.screen, entries, packer.files);
    var review := Handoff(HANDOFF_VERSION, o.scope, a.inputs, h.screen.hash(FileAt(packer.files, MANIFEST_PATH)),
                          h.screen.hash(FileAt(packer.files, ASSESSMENT_PATH)), Sort(ByPath, entries), "review_required", credentials.value);
    var ok := ValidateHandoff(h.screen.grammar, review);
    if !ok { return None; }
    ok := packer.Put(HANDOFF_PATH, h.handoffs.encode(review));
    if !ok { return None; }
    entries := Enumerate(h.screen, packer.files);
    EnumerationsAgree(h.screen, entries, Listing(h.screen, packer.files), packer.files);
    DigestIgnoresOrder(h.sealing, o.scope, DIGEST_VERSION, entries, Listing(h.screen, packer.files));
    var sum := DigestFiles(h.sealing, o.scope, DIGEST_VERSION, entries);
    if sum.None? { return None; }
    return Some(Package(m, a, review, packer.files, sum.value));
  }
}
