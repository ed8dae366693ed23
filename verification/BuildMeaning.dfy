/** What the package Build returns is, part by part, without the order in which it is put
    together (packagev3/build.go). */
module BuildMeaning {
  import opened Common
  import opened Digests
  import opened PackageRecords
  import opened PackageFiles
  import opened PackageAssessment
  import opened PackageInspect
  import opened PackageBuild
  import opened PackageMeaning
  import SupplementAgreement
  import BrowserSupplement
  import BindingMeaning

  // ---------- Several files at once ----------

  datatype Item = Item(path: string, data: Bytes)


  ghost predicate Limited(files: Files) {
    |files| <= 512 && TotalBytes(files) <= 33554432
  }

  predicate Brings(items: seq<Item>, path: string) {
    exists i :: 0 <= i < |items| && items[i].path == path
  }

  /** New, holdable items on paths of their own. */
  predicate AllNew(s: Screen, before: Files, items: seq<Item>) {
    && (forall i :: 0 <= i < |items| ==> items[i].path !in before && Holdable(s, items[i].path, items[i].data))
    && forall i, j :: 0 <= i < j < |items| ==> items[i].path != items[j].path
  }

  /** after has what before has, and the items. */
  predicate Joins(before: Files, items: seq<Item>, after: Files) {
    && (forall i :: 0 <= i < |items| ==> items[i].path in after && after[items[i].path] == items[i].data)
    && (forall path :: path in before ==> path in after && after[path] == before[path])
    && (forall path :: path in after ==> path in before || Brings(items, path))
  }

  /** after is before with all items. */
  ghost predicate AddsAll(s: Screen, before: Files, items: seq<Item>, after: Files) {
    AllNew(s, before, items) && Joins(before, items, after) && Limited(after)
  }

  ghost function Puts(s: Screen, before: Files, items: seq<Item>): Option<Files> {
    if items == [] then Some(before)
    else Put(s, Puts(s, before, items[..|items| - 1]), items[|items| - 1].path, items[|items| - 1].data)
  }

  lemma NoItems(s: Screen, before: Files, after: Files)
    requires Limited(before)
    ensures AddsAll(s, before, [], after) <==> after == before
  {
    if AddsAll(s, before, [], after) {
      assert after.Keys == before.Keys;
    }
  }

  lemma BringsNext(items: seq<Item>, last: Item, path: string)
    ensures Brings(items + [last], path) <==> Brings(items, path) || path == last.path
  {
    var all_ := items + [last];
    assert all_[|items|] == last;
    if Brings(items, path) {
      var i :| 0 <= i < |items| && items[i].path == path;
      assert all_[i].path == path;
    }
    if Brings(all_, path) {
      var i :| 0 <= i < |all_| && all_[i].path == path;
      assert i < |items| ==> items[i].path == path;
    }
  }

  lemma NewNext(s: Screen, before: Files, items: seq<Item>, last: Item)
    ensures AllNew(s, before, items + [last]) <==>
            AllNew(s, before, items) && last.path !in before && Holdable(s, last.path, last.data) && !Brings(items, last.path)
  {
    hide Holdable;
    var all_ := items + [last];
    assert all_[|items|] == last && forall i :: 0 <= i < |items| ==> all_[i] == items[i];
  }

  lemma JoinsNext(before: Files, items: seq<Item>, last: Item, mid: Files)
    requires Joins(before, items, mid) && last.path !in mid
    ensures Joins(before, items + [last], mid[last.path := last.data])
  {
    var all_, after := items + [last], mid[last.path := last.data];
    assert forall i :: 0 <= i < |all_| ==> all_[i] == if i < |items| then items[i] else last;
    forall path | path in after ensures path in before || Brings(all_, path) { BringsNext(items, last, path); }
    hide Brings;
  }

  lemma JoinsFront(before: Files, items: seq<Item>, last: Item, after: Files)
    requires Joins(before, items + [last], after) && last.path !in before && !Brings(items, last.path)
    ensures last.path in after && after[last.path] == last.data && Joins(before, items, after - {last.path})
  {
    var all_, mid := items + [last], after - {last.path};
    assert all_[|items|] == last && forall i :: 0 <= i < |items| ==> all_[i] == items[i];
    forall path | path in mid ensures path in before || Brings(items, path) { BringsNext(items, last, path); }
  }

  lemma LastSize(after: Files, path: string)
    requires path in after
    ensures TotalBytes(after) >= TotalBytes(after - {path}) && |after| == |after - {path}| + 1
    ensures after == (after - {path})[path := after[path]]
  {
    TotalWithout(after, path);
    assert (after - {path}).Keys == after.Keys - {path};
    KeyCount(after);
    KeyCount(after - {path});
  }

  lemma AddsLast(s: Screen, before: Files, items: seq<Item>, last: Item, after: Files)
    requires AddsAll(s, before, items + [last], after)
    ensures last.path in after && AddsAll(s, before, items, after - {last.path}) && Adds(s, after - {last.path}, last.path, last.data, after)
  {
    hide AllNew, Joins, TotalBytes, Holdable, Brings;
    NewNext(s, before, items, last);
    JoinsFront(before, items, last, after);
    LastSize(after, last.path);
  }

  lemma AddsOneMore(s: Screen, before: Files, items: seq<Item>, last: Item, mid: Files, after: Files)
    requires AddsAll(s, before, items, mid) && Adds(s, mid, last.path, last.data, after)
    ensures AddsAll(s, before, items + [last], after)
  {
    hide AllNew, TotalBytes, Holdable;
    NewNext(s, before, items, last);
    JoinsNext(before, items, last, mid);
    BroughtIn(before, items, mid, last.path);
    hide Brings, Joins;
  }

  lemma BroughtIn(before: Files, items: seq<Item>, mid: Files, path: string)
    requires Joins(before, items, mid) && path !in mid
    ensures path !in before && !Brings(items, path)
  {
  }

  lemma {:induction false} PutsExactly(s: Screen, before: Files, items: seq<Item>, after: Files)
    requires Limited(before)
    ensures Puts(s, before, items) == Some(after) <==> AddsAll(s, before, items, after)
    decreases |items|
  {
    hide Put, Adds, AddsAll, Limited, Holdable;
    if items == [] {
      NoItems(s, before, after);
    } else {
      var front, last := items[..|items| - 1], items[|items| - 1];
      assert items == front + [last];
      if Puts(s, before, items) == Some(after) {
        PutNeeds(s, Puts(s, before, front), last.path, last.data);
        var mid := Puts(s, before, front).value;
        PutsExactly(s, before, front, mid);
        PutExactly(s, mid, last.path, last.data, after);
        AddsOneMore(s, before, front, last, mid, after);
      }
      if AddsAll(s, before, items, after) {
        AddsLast(s, before, front, last, after);
        var mid := after - {last.path};
        PutsExactly(s, before, front, mid);
        PutExactly(s, mid, last.path, last.data, after);
      }
    }
  }

  lemma PutNeeds(s: Screen, files: Option<Files>, path: string, data: Bytes)
    ensures Put(s, files, path, data).Some? ==> files.Some?
  {
  }

  // ---------- Sources ----------

  function SourceItems(inputs: seq<SourceInput>): (r: seq<Item>)
    ensures |r| == |inputs| && forall i :: 0 <= i < |r| ==> r[i] == Item(inputs[i].path, inputs[i].bytes)
  {
    seq(|inputs|, i requires 0 <= i < |inputs| => Item(inputs[i].path, inputs[i].bytes))
  }

  /** A named source of a known kind; only the runtime source brings shapes. */
  predicate Offered(s: SourceInput) {
    && AuthorityId(s.id) && KnownKind(s.kind)
    && (s.kind == "runtime-function" ==> |s.shapes| <= 8388608) && (s.kind != "runtime-function" ==> |s.shapes| == 0)
  }

  predicate Claims(inputs: seq<SourceInput>, i: int, id: string) {
    0 <= i < |inputs| && inputs[i].kind == "runtime-function" && inputs[i].id == id
  }

  /** The shapes of the last runtime source of each id. */
  ghost predicate ClaimsOf(inputs: seq<SourceInput>, claims: map<string, Bytes>) {
    && (forall id :: id in claims <==> exists i :: Claims(inputs, i, id))
    && forall i, id :: Claims(inputs, i, id) && (forall j :: i < j ==> !Claims(inputs, j, id)) ==> claims[id] == inputs[i].shapes
  }

  predicate SourcesOf(s: Screen, inputs: seq<SourceInput>, sources: seq<Source>) {
    && |sources| == |inputs|
    && forall i :: 0 <= i < |inputs| ==> sources[i] == Source(inputs[i].id, inputs[i].kind, Artifact(inputs[i].path, s.hash(inputs[i].bytes)))
  }

  predicate AllOffered(inputs: seq<SourceInput>) {
    forall i :: 0 <= i < |inputs| ==> Offered(inputs[i])
  }

  ghost predicate Gathers(s: Screen, before: Files, inputs: seq<SourceInput>, g: Gathering) {
    && AllOffered(inputs) && AddsAll(s, before, SourceItems(inputs), g.files)
    && SourcesOf(s, inputs, g.sources) && ClaimsOf(inputs, g.claims)
  }

  lemma OfferedExactly(s: SourceInput)
    ensures Offered(s) <==> AuthorityId(s.id) && KindValid(s.kind) && ClaimFits(s)
  {
    hide AuthorityId;
    assert s.shapes == [] <==> |s.shapes| == 0;
  }

  lemma ClaimsNext(inputs: seq<SourceInput>, last: SourceInput, claims: map<string, Bytes>)
    requires ClaimsOf(inputs, claims)
    ensures ClaimsOf(inputs + [last], if last.kind == "runtime-function" then claims[last.id := last.shapes] else claims)
  {
    var all_ := inputs + [last];
    var after := if last.kind == "runtime-function" then claims[last.id := last.shapes] else claims;
    forall i, id ensures Claims(all_, i, id) <==> Claims(inputs, i, id) || (i == |inputs| && last.kind == "runtime-function" && last.id == id) {}
    assert last.kind == "runtime-function" ==> Claims(all_, |inputs|, last.id);
    forall id ensures id in after <==> exists i :: Claims(all_, i, id) {
      if id in claims {
        var i :| Claims(inputs, i, id);
        assert Claims(all_, i, id);
      }
    }
    forall i, id | Claims(all_, i, id) && (forall j :: i < j ==> !Claims(all_, j, id)) ensures after[id] == all_[i].shapes {
      if i < |inputs| {
        assert all_[i] == inputs[i] && Claims(inputs, i, id);
        forall j | i < j ensures !Claims(inputs, j, id) { assert !Claims(all_, j, id); }
        assert !Claims(all_, |inputs|, id);
      }
    }
  }

  lemma {:induction false} LastClaim(inputs: seq<SourceInput>, id: string, i: int) returns (k: int)
    requires Claims(inputs, i, id)
    ensures Claims(inputs, k, id) && forall j :: k < j ==> !Claims(inputs, j, id)
    decreases |inputs| - i
  {
    if j :| i < j && Claims(inputs, j, id) {
      k := LastClaim(inputs, id, j);
    } else {
      k := i;
    }
  }

  lemma ClaimsUnique(inputs: seq<SourceInput>, a: map<string, Bytes>, b: map<string, Bytes>)
    requires ClaimsOf(inputs, a) && ClaimsOf(inputs, b)
    ensures a == b
  {
    hide Claims;
    forall id | id in a ensures id in b && a[id] == b[id] {
      var i :| Claims(inputs, i, id);
      var k := LastClaim(inputs, id, i);
    }
    forall id | id in b ensures id in a {
      var i :| Claims(inputs, i, id);
    }
  }

  lemma ItemsNext(inputs: seq<SourceInput>, last: SourceInput)
    ensures SourceItems(inputs + [last]) == SourceItems(inputs) + [Item(last.path, last.bytes)]
  {
  }

  lemma OfferedNext(inputs: seq<SourceInput>, last: SourceInput)
    ensures AllOffered(inputs + [last]) <==> AllOffered(inputs) && Offered(last)
  {
    hide Offered;
    var all_ := inputs + [last];
    assert all_[|inputs|] == last && forall i :: 0 <= i < |inputs| ==> all_[i] == inputs[i];
  }

  lemma SourcesNext(s: Screen, inputs: seq<SourceInput>, last: SourceInput, sources: seq<Source>)
    requires SourcesOf(s, inputs, sources)
    ensures SourcesOf(s, inputs + [last], sources + [Source(last.id, last.kind, Artifact(last.path, s.hash(last.bytes)))])
  {
  }

  /** Gathering with the last source, given the others. */
  lemma GatheredLast(s: Screen, before: Files, inputs: seq<SourceInput>, last: SourceInput)
    ensures var b := Gathered(s, before, inputs);
            Gathered(s, before, inputs + [last]) ==
            if b.None? || !Offered(last) || Put(s, Some(b.value.files), last.path, last.bytes).None? then None
            else
              Some(Gathering(Put(s, Some(b.value.files), last.path, last.bytes).value,
                             b.value.sources + [Source(last.id, last.kind, Artifact(last.path, s.hash(last.bytes)))],
                             if last.kind == "runtime-function" then b.value.claims[last.id := last.shapes] else b.value.claims))
  {
    OfferedExactly(last);
    assert (inputs + [last])[..|inputs|] == inputs;
    hide AuthorityId, KindValid, KnownKind, ClaimFits, Offered, Fits;
  }

  lemma {:induction false} GatheredIs(s: Screen, before: Files, inputs: seq<SourceInput>)
    requires Limited(before) && Gathered(s, before, inputs).Some?
    ensures Gathers(s, before, inputs, Gathered(s, before, inputs).value)
    decreases |inputs|
  {
    hide AllOffered, AddsAll, SourcesOf, ClaimsOf, Offered, Adds, Limited, Put;
    if inputs == [] {
      NothingGathered(s, before);
    } else {
      var front, last := inputs[..|inputs| - 1], inputs[|inputs| - 1];
      assert inputs == front + [last];
      GatheredLast(s, before, front, last);
      GatheredIs(s, before, front);
      hide Gathered;
      var b, g := Gathered(s, before, front).value, Gathered(s, before, inputs).value;
      OfferedNext(front, last);
      ItemsNext(front, last);
      PutExactly(s, b.files, last.path, last.bytes, g.files);
      AddsOneMore(s, before, SourceItems(front), Item(last.path, last.bytes), b.files, g.files);
      SourcesNext(s, front, last, b.sources);
      ClaimsNext(front, last, b.claims);
    }
  }

  lemma NothingGathered(s: Screen, before: Files)
    requires Limited(before)
    ensures Gathers(s, before, [], Gathering(before, [], map[]))
    ensures SourceItems([]) == []
  {
    NoItems(s, before, before);
    assert SourceItems([]) == [];
  }

  lemma {:induction false} GatheredWhen(s: Screen, before: Files, inputs: seq<SourceInput>, after: Files)
    requires Limited(before) && AllOffered(inputs) && AddsAll(s, before, SourceItems(inputs), after)
    ensures Gathered(s, before, inputs).Some? && Gathered(s, before, inputs).value.files == after
    decreases |inputs|
  {
    hide AllOffered, AddsAll, Offered, Adds, Limited, Put;
    if inputs == [] {
      assert SourceItems(inputs) == [];
      NoItems(s, before, after);
    } else {
      var front, last := inputs[..|inputs| - 1], inputs[|inputs| - 1];
      assert inputs == front + [last];
      OfferedNext(front, last);
      ItemsNext(front, last);
      AddsLast(s, before, SourceItems(front), Item(last.path, last.bytes), after);
      GatheredWhen(s, before, front, after - {last.path});
      GatheredLast(s, before, front, last);
      hide Gathered;
      PutExactly(s, after - {last.path}, last.path, last.bytes, after);
    }
  }

  lemma SourcesUnique(s: Screen, inputs: seq<SourceInput>, a: seq<Source>, b: seq<Source>)
    requires SourcesOf(s, inputs, a) && SourcesOf(s, inputs, b)
    ensures a == b
  {
  }

  /** What the source loop gathers. */
  lemma GatheredExactly(s: Screen, before: Files, inputs: seq<SourceInput>, g: Gathering)
    requires Limited(before)
    ensures Gathered(s, before, inputs) == Some(g) <==> Gathers(s, before, inputs, g)
  {
    hide AllOffered, AddsAll, SourcesOf, ClaimsOf, Limited;
    if Gathered(s, before, inputs).Some? { GatheredIs(s, before, inputs); }
    if Gathers(s, before, inputs, g) {
      GatheredWhen(s, before, inputs, g.files);
      GatheredIs(s, before, inputs);
      hide Gathered;
      SourcesUnique(s, inputs, g.sources, Gathered(s, before, inputs).value.sources);
      ClaimsUnique(inputs, g.claims, Gathered(s, before, inputs).value.claims);
    }
  }

  // ---------- Reviews ----------

  function ReviewItems(reviews: seq<ReviewInput>): (r: seq<Item>)
    ensures |r| == |reviews| && forall i :: 0 <= i < |r| ==> r[i] == Item(reviews[i].path, reviews[i].bytes)
  {
    seq(|reviews|, i requires 0 <= i < |reviews| => Item(reviews[i].path, reviews[i].bytes))
  }

  ghost predicate IsReview(path: string) {
    exists rest :: path == "expected/browser-review/" + rest
  }

  ghost predicate AllReviews(reviews: seq<ReviewInput>) {
    forall i :: 0 <= i < |reviews| ==> IsReview(reviews[i].path)
  }

  predicate ReviewsOf(s: Screen, reviews: seq<ReviewInput>, artifacts: seq<Artifact>) {
    && |artifacts| == |reviews|
    && forall i :: 0 <= i < |reviews| ==> artifacts[i] == Artifact(reviews[i].path, s.hash(reviews[i].bytes))
  }

  ghost predicate Reviews(s: Screen, before: Files, reviews: seq<ReviewInput>, after: Files, artifacts: seq<Artifact>) {
    AllReviews(reviews) && AddsAll(s, before, ReviewItems(reviews), after) && ReviewsOf(s, reviews, artifacts)
  }

  lemma ReviewLast(s: Screen, before: Files, reviews: seq<ReviewInput>, last: ReviewInput)
    ensures var b := Reviewed(s, before, reviews);
            Reviewed(s, before, reviews + [last]) ==
            if b.None? || !IsReview(last.path) || Put(s, Some(b.value.0), last.path, last.bytes).None? then None
            else Some((Put(s, Some(b.value.0), last.path, last.bytes).value, b.value.1 + [Artifact(last.path, s.hash(last.bytes))]))
  {
    StartsWith("expected/browser-review/", last.path);
    assert (reviews + [last])[..|reviews|] == reviews;
    hide Fits, IsReview;
    assert IsReview(last.path) <==> "expected/browser-review/" <= last.path by { IsReviewExactly(last.path); }
  }

  lemma IsReviewExactly(path: string)
    ensures IsReview(path) <==> "expected/browser-review/" <= path
  {
    StartsWith("expected/browser-review/", path);
  }

  lemma ReviewItemsNext(s: Screen, reviews: seq<ReviewInput>, last: ReviewInput, artifacts: seq<Artifact>)
    ensures ReviewItems(reviews + [last]) == ReviewItems(reviews) + [Item(last.path, last.bytes)]
    ensures AllReviews(reviews + [last]) <==> AllReviews(reviews) && IsReview(last.path)
    ensures ReviewsOf(s, reviews, artifacts) ==> ReviewsOf(s, reviews + [last], artifacts + [Artifact(last.path, s.hash(last.bytes))])
  {
    hide IsReview;
    var all_ := reviews + [last];
    assert all_[|reviews|] == last && forall i :: 0 <= i < |reviews| ==> all_[i] == reviews[i];
  }

  lemma {:induction false} ReviewedIs(s: Screen, before: Files, reviews: seq<ReviewInput>)
    requires Limited(before) && Reviewed(s, before, reviews).Some?
    ensures Reviews(s, before, reviews, Reviewed(s, before, reviews).value.0, Reviewed(s, before, reviews).value.1)
    decreases |reviews|
  {
    hide AllReviews, AddsAll, ReviewsOf, IsReview, Adds, Limited, Put;
    if reviews == [] {
      NothingReviewed(s, before);
    } else {
      var front, last := reviews[..|reviews| - 1], reviews[|reviews| - 1];
      assert reviews == front + [last];
      ReviewLast(s, before, front, last);
      ReviewedIs(s, before, front);
      hide Reviewed;
      var b, r := Reviewed(s, before, front).value, Reviewed(s, before, reviews).value;
      ReviewItemsNext(s, front, last, b.1);
      PutExactly(s, b.0, last.path, last.bytes, r.0);
      AddsOneMore(s, before, ReviewItems(front), Item(last.path, last.bytes), b.0, r.0);
    }
  }

  lemma NothingReviewed(s: Screen, before: Files)
    requires Limited(before)
    ensures Reviews(s, before, [], before, [])
    ensures ReviewItems([]) == []
  {
    NoItems(s, before, before);
    assert ReviewItems([]) == [];
  }

  lemma {:induction false} ReviewedWhen(s: Screen, before: Files, reviews: seq<ReviewInput>, after: Files)
    requires Limited(before) && AllReviews(reviews) && AddsAll(s, before, ReviewItems(reviews), after)
    ensures Reviewed(s, before, reviews).Some? && Reviewed(s, before, reviews).value.0 == after
    decreases |reviews|
  {
    hide AllReviews, AddsAll, IsReview, Adds, Limited, Put;
    if reviews == [] {
      assert ReviewItems(reviews) == [];
      NoItems(s, before, after);
    } else {
      var front, last := reviews[..|reviews| - 1], reviews[|reviews| - 1];
      assert reviews == front + [last];
      ReviewItemsNext(s, front, last, []);
      AddsLast(s, before, ReviewItems(front), Item(last.path, last.bytes), after);
      ReviewedWhen(s, before, front, after - {last.path});
      ReviewLast(s, before, front, last);
      hide Reviewed;
      PutExactly(s, after - {last.path}, last.path, last.bytes, after);
    }
  }

  lemma ReviewsUnique(s: Screen, reviews: seq<ReviewInput>, a: seq<Artifact>, b: seq<Artifact>)
    requires ReviewsOf(s, reviews, a) && ReviewsOf(s, reviews, b)
    ensures a == b
  {
  }

  /** What the review loop stores. */
  lemma ReviewedExactly(s: Screen, before: Files, reviews: seq<ReviewInput>, after: Files, artifacts: seq<Artifact>)
    requires Limited(before)
    ensures Reviewed(s, before, reviews) == Some((after, artifacts)) <==> Reviews(s, before, reviews, after, artifacts)
  {
    hide AllReviews, AddsAll, ReviewsOf, Limited;
    if Reviewed(s, before, reviews).Some? { ReviewedIs(s, before, reviews); }
    if Reviews(s, before, reviews, after, artifacts) {
      ReviewedWhen(s, before, reviews, after);
      ReviewedIs(s, before, reviews);
      hide Reviewed;
      ReviewsUnique(s, reviews, artifacts, Reviewed(s, before, reviews).value.1);
    }
  }

  // ---------- The assessment ----------

  /** The outcome is the worst remarked, and the first 128 remarks are kept. */
  predicate Judges(remarks: seq<Remark>, outcome: Outcome, findings: seq<Finding>, truncated: bool) {
    && (outcome == Incompatible <==> exists i :: 0 <= i < |remarks| && remarks[i].outcome == Incompatible)
    && (outcome == Compatible <==> forall i :: 0 <= i < |remarks| ==> remarks[i].outcome == Compatible)
    && (truncated <==> |remarks| > 128) && |findings| == (if truncated then 128 else |remarks|)
    && forall i :: 0 <= i < |findings| ==> findings[i] == Finding(remarks[i].code, "workflows/workflow.uws.yaml", remarks[i].outcome)
  }

  lemma JudgedExactly(base: Assessment, remarks: seq<Remark>, a: Assessment)
    ensures a == Judged(base, remarks) <==>
            && a == base.(outcome := a.outcome, findings := a.findings, truncated := a.truncated)
            && Judges(remarks, a.outcome, a.findings, a.truncated)
  {
    var w := Worst(remarks);
    assert w == Incompatible <==> exists i :: 0 <= i < |remarks| && remarks[i].outcome == Incompatible by {
      if i :| 0 <= i < |remarks| && remarks[i].outcome == Incompatible { assert Rank(remarks[i].outcome) <= Rank(w); }
    }
    assert w == Compatible <==> forall i :: 0 <= i < |remarks| ==> remarks[i].outcome == Compatible by {
      if w == Compatible {
        forall i | 0 <= i < |remarks| ensures remarks[i].outcome == Compatible { assert Rank(remarks[i].outcome) <= Rank(w); }
      }
    }
    hide Worst;
    if Judges(remarks, a.outcome, a.findings, a.truncated) { assert a.findings == Kept(remarks); }
  }

  /** Every input is there, of a legal size, with its hash and without a credential. */
  ghost predicate InputsGood(h: Host, files: Files, m: Manifest) {
    && Total(InputSize(files), Inputs(m)) <= 33554432
    && forall a :: Mentions(m, a) ==>
         && a.path in files && 1 <= |files[a.path]| <= 8388608 && h.screen.hash(files[a.path]) == a.sha && !h.screen.secret(files[a.path])
  }

  lemma InputsExactly(h: Host, files: Files, m: Manifest)
    ensures InputsOk(h, files, Inputs(m)) <==> InputsGood(h, files, m)
  {
    MentionsIs(m);
    SortedInputs(m);
    hide Inputs, Named, Total, Mentions;
    if InputsGood(h, files, m) {
      forall i | 0 <= i < |Inputs(m)| ensures InputOk(h, files, Inputs(m)[i]) { assert Mentions(m, Inputs(m)[i]); }
    }
    if InputsOk(h, files, Inputs(m)) {
      forall a | Mentions(m, a) ensures InputOk(h, files, a) {
        var i :| 0 <= i < |Inputs(m)| && Inputs(m)[i] == a;
      }
    }
  }

  /** The sources as the supplement sees them: browser profiles, the runtime's functions, and APIs. */
  predicate Viewed(sources: seq<Source>, views: seq<BrowserSupplement.Source>) {
    && |views| == |sources|
    && forall i :: 0 <= i < |sources| ==>
         && views[i].id == sources[i].id && views[i].path == sources[i].artifact.path && views[i].sha == sources[i].artifact.sha
         && (views[i].kind.BrowserProfile? <==> sources[i].kind == "browser-profile")
         && (views[i].kind.RuntimeSource? <==> sources[i].kind == "runtime-function")
  }

  lemma ViewedExactly(sources: seq<Source>, views: seq<BrowserSupplement.Source>)
    ensures views == BrowserSources(sources) <==> Viewed(sources, views)
  {
    assert "browser-profile" != "runtime-function" by { assert "browser-profile"[0] == 'b' && "runtime-function"[0] == 'r'; }
    if Viewed(sources, views) {
      forall i | 0 <= i < |views| ensures views[i] == BrowserSource(sources[i]) {}
    }
  }

  ghost predicate BrowserReproduces(h: Host, files: Files, m: Manifest) {
    exists views ::
      && Viewed(m.sources, views)
      && SupplementAgreement.Accepts(h.world(FileAt(files, "expected/operation-shapes.json")), h.document(FileAt(files, "workflows/workflow.uws.yaml")),
                                     m.workflow.sha, views, h.supplements, m.reviews, FileAt(files, "expected/browser.json"))
  }

  /** What an assessment of a package is. */
  ghost predicate AssessedAs(h: Host, m: Manifest, files: Files, a: Assessment) {
    && ManifestGood(h.screen.grammar, m) && InputsGood(h, files, m) && h.dataObject(FileAt(files, "expected/data.json")) && h.shapesVerify(m.sources, files)
    && (m.browser.Some? ==> BrowserReproduces(h, files, m))
    && InputsDigest(h, m, a.inputs) && h.remarks(m, files).Some?
    && a == Assessment("openudon.assessment.v3", m.scope, a.inputs, h.screen.hash(h.manifests.encode(m)), a.outcome, a.findings, a.truncated)
    && Judges(h.remarks(m, files).value, a.outcome, a.findings, a.truncated)
  }

  lemma ReproducesExactly(h: Host, files: Files, m: Manifest)
    ensures BrowserVerified(h, m, files) <==> m.browser.None? || BrowserReproduces(h, files, m)
  {
    hide BrowserSources, Viewed;
    forall views ensures views == BrowserSources(m.sources) <==> Viewed(m.sources, views) { ViewedExactly(m.sources, views); }
  }

  lemma AssessedExactly(h: Host, m: Manifest, files: Files, a: Assessment)
    ensures Assessed(h, m, files) == Some(a) <==> AssessedAs(h, m, files, a)
  {
    hide ManifestValid, ManifestGood, InputsOk, InputsGood, BrowserVerified, BrowserReproduces, Digest, Judged, Judges, Inputs;
    ManifestExactly(h.screen.grammar, m);
    InputsExactly(h, files, m);
    ReproducesExactly(h, files, m);
    var digest, remarks := InputDigest(h.sealing, m), h.remarks(m, files);
    if digest.Some? && remarks.Some? {
      JudgedExactly(Assessment(ASSESSMENT_VERSION, m.scope, digest.value, h.screen.hash(h.manifests.encode(m)), Compatible, [], false), remarks.value, a);
    }
  }

  // ---------- The stages ----------

  function WorkflowItems(o: BuildOptions): seq<Item> {
    [Item("workflows/workflow.uws.yaml", o.workflow), Item("expected/data.json", o.data)]
  }

  ghost predicate Begun(h: Host, o: BuildOptions, files: Files) {
    && h.screen.grammar.scope(o.scope) && |o.sources| <= 33 && h.dataObject(o.data) && h.document(o.workflow).Some?
    && AddsAll(h.screen, map[], WorkflowItems(o), files)
  }

  lemma BegunExactly(h: Host, o: BuildOptions, files: Files)
    ensures WithInputs(h, o) == Some(files) <==> Begun(h, o, files)
  {
    NoBytes();
    PutsExactly(h.screen, map[], WorkflowItems(o), files);
    TwoPuts(h.screen, map[], WorkflowItems(o)[0], WorkflowItems(o)[1]);
    hide AddsAll, Put, Puts;
  }

  lemma TwoPuts(s: Screen, before: Files, a: Item, b: Item)
    ensures Puts(s, before, [a, b]) == Put(s, Put(s, Some(before), a.path, a.data), b.path, b.data)
  {
    assert [a, b][..1] == [a] && [a][..0] == [];
    assert Puts(s, before, [a]) == Put(s, Puts(s, before, []), a.path, a.data);
    hide Put;
  }

  /** Inputs, sources and shapes stored; the manifest as far as it goes. */
  ghost predicate Prepared(h: Host, o: BuildOptions, files: Files, m: Manifest) {
    exists start, g, shapes ::
      && Begun(h, o, start) && Gathers(h.screen, start, o.sources, g)
      && h.shapes(g.sources, g.files, g.claims) == Some(shapes) && Adds(h.screen, g.files, "expected/operation-shapes.json", shapes, files)
      && m == Manifest("openudon.package.v3", o.scope, Artifact("workflows/workflow.uws.yaml", h.screen.hash(o.workflow)),
                       Artifact("expected/data.json", h.screen.hash(o.data)), Artifact("expected/operation-shapes.json", h.screen.hash(shapes)),
                       "uws.shape-table.v1", g.sources, None, [])
  }

  lemma BegunLimited(h: Host, o: BuildOptions, files: Files)
    requires Begun(h, o, files)
    ensures Limited(files)
  {
  }

  lemma PreparedExactly(h: Host, o: BuildOptions, files: Files, m: Manifest)
    ensures WithShapes(h, o) == Some(Draft(files, m)) <==> Prepared(h, o, files, m)
  {
    hide WithInputs, Begun, Gathered, Gathers, Fits, Adds, Limited;
    forall start ensures WithInputs(h, o) == Some(start) <==> Begun(h, o, start) { BegunExactly(h, o, start); }
    if WithInputs(h, o).Some? {
      var start := WithInputs(h, o).value;
      BegunLimited(h, o, start);
      forall g ensures Gathered(h.screen, start, o.sources) == Some(g) <==> Gathers(h.screen, start, o.sources, g) {
        GatheredExactly(h.screen, start, o.sources, g);
      }
      if Gathered(h.screen, start, o.sources).Some? {
        var g := Gathered(h.screen, start, o.sources).value;
        var shapes := h.shapes(g.sources, g.files, g.claims);
        if shapes.Some? { ShapesStored(h.screen, g.files, shapes.value, files); }
      }
    }
  }

  lemma ShapesStored(s: Screen, before: Files, data: Bytes, after: Files)
    ensures Fits(s, before, SHAPES_PATH, data) && after == before[SHAPES_PATH := data] <==> Adds(s, before, "expected/operation-shapes.json", data, after)
  {
    PutExactly(s, before, SHAPES_PATH, data, after);
    hide Fits;
    assert Adds(s, before, SHAPES_PATH, data, after) ==> after == before[SHAPES_PATH := data];
  }

  // ---------- The browser supplement ----------

  ghost predicate Arranged(given: seq<Artifact>, sorted: seq<Artifact>) {
    multiset(sorted) == multiset(given) && forall i, j :: 0 <= i < j < |sorted| ==> AtMost(sorted[i].path, sorted[j].path)
  }

  /** The supplement derived from the options, or from none; without options there may be
      nothing to derive. */
  ghost predicate Derives(w: BrowserSupplement.World, doc: Option<BrowserSupplement.Document>, sha: string, views: seq<BrowserSupplement.Source>,
                          c: SupplementAgreement.Codec, browser: Option<BrowserOptions>, artifacts: seq<Artifact>, reviews: seq<Artifact>, bytes: Option<Bytes>)
  {
    var derived := BrowserSupplement.Derive(w, doc, sha, views, if browser.Some? then browser.value.permissions else map[], reviews);
    && Arranged(artifacts, reviews)
    && (bytes.None? ==> browser.None? && derived.Nothing?)
    && (bytes.Some? ==> derived.Success? && c.encode(derived.supplement) == bytes.value && |bytes.value| <= 1048576)
  }

  /** Artifacts on different paths have one order by path. */
  lemma OneOrder(given: seq<Artifact>, sorted: seq<Artifact>)
    requires forall i, j :: 0 <= i < j < |given| ==> given[i].path != given[j].path
    ensures sorted == Sort(ByPath, given) <==> Arranged(given, sorted)
  {
    hide Less, Sort;
    ByPathOrders();
    forall x, y | x in given && y in given && ByPath(x, y) && ByPath(y, x) ensures x == y {
      LessTotal(x.path, y.path);
    }
    SortIs(ByPath, given, sorted);
    assert Sorted(ByPath, sorted) <==> forall i, j :: 0 <= i < j < |sorted| ==> AtMost(sorted[i].path, sorted[j].path) by { SortedByPath(sorted); }
  }

  lemma SortedByPath(s: seq<Artifact>)
    ensures Sorted(ByPath, s) <==> forall i, j :: 0 <= i < j < |s| ==> AtMost(s[i].path, s[j].path)
  {
    hide AtMost;
    if forall i, j :: 0 <= i < j < |s| ==> AtMost(s[i].path, s[j].path) {
      forall i, j | 0 <= i < j < |s| ensures ByPath(s[i], s[j]) {}
    }
    if Sorted(ByPath, s) {
      forall i, j | 0 <= i < j < |s| ensures AtMost(s[i].path, s[j].path) { assert ByPath(s[i], s[j]); }
    }
  }

  function OptionsFor(browser: Option<BrowserOptions>, artifacts: seq<Artifact>): Option<SupplementAgreement.Options> {
    if browser.Some? then Some(SupplementAgreement.Options(browser.value.permissions, artifacts)) else None
  }

  lemma SortNothing()
    ensures Sort(ByPath, []) == []
  {
  }

  function PermissionsIn(browser: Option<BrowserOptions>): map<string, BrowserSupplement.Permission> {
    if browser.Some? then browser.value.permissions else map[]
  }

  /** Added, with the reviews in order. */
  lemma AddedIs(w: BrowserSupplement.World, doc: Option<BrowserSupplement.Document>, sha: string, views: seq<BrowserSupplement.Source>,
                c: SupplementAgreement.Codec, browser: Option<BrowserOptions>, artifacts: seq<Artifact>)
    requires browser.None? ==> artifacts == []
    ensures var reviews := Sort(ByPath, artifacts);
            var d := BrowserSupplement.Derive(w, doc, sha, views, PermissionsIn(browser), reviews);
            SupplementAgreement.Added(w, doc, sha, views, c, OptionsFor(browser, artifacts)) ==
            if d.Nothing? && browser.None? then SupplementAgreement.NoSupplement
            else if d.Success? && |c.encode(d.supplement)| <= 1048576 then SupplementAgreement.Written(c.encode(d.supplement), reviews)
            else SupplementAgreement.Refusal
  {
    SortNothing();
    hide Sort, BrowserSupplement.Derive;
  }

  /** What Added answers is derived from the options with the reviews in order. */
  lemma AddedExactly(w: BrowserSupplement.World, doc: Option<BrowserSupplement.Document>, sha: string, views: seq<BrowserSupplement.Source>,
                     c: SupplementAgreement.Codec, browser: Option<BrowserOptions>, artifacts: seq<Artifact>, reviews: seq<Artifact>, bytes: Option<Bytes>)
    requires (browser.None? ==> artifacts == []) && forall i, j :: 0 <= i < j < |artifacts| ==> artifacts[i].path != artifacts[j].path
    ensures Derives(w, doc, sha, views, c, browser, artifacts, reviews, bytes) <==>
            && reviews == Sort(ByPath, artifacts)
            && SupplementAgreement.Added(w, doc, sha, views, c, OptionsFor(browser, artifacts)) ==
                 if bytes.None? then SupplementAgreement.NoSupplement else SupplementAgreement.Written(bytes.value, reviews)
  {
    hide Sort, BrowserSupplement.Derive, AtMost, Arranged, SupplementAgreement.Added, OptionsFor;
    OneOrder(artifacts, reviews);
    AddedIs(w, doc, sha, views, c, browser, artifacts);
  }

  /** The files and artifacts of the reviews, if any were given. */
  ghost predicate ReviewStage(s: Screen, browser: Option<BrowserOptions>, before: Files, mid: Files, artifacts: seq<Artifact>) {
    if browser.Some? then Reviews(s, before, browser.value.reviews, mid, artifacts) else mid == before && artifacts == []
  }

  lemma ReviewPaths(s: Screen, browser: Option<BrowserOptions>, before: Files, mid: Files, artifacts: seq<Artifact>)
    requires ReviewStage(s, browser, before, mid, artifacts)
    ensures forall i, j :: 0 <= i < j < |artifacts| ==> artifacts[i].path != artifacts[j].path
  {
    if browser.Some? {
      forall i, j | 0 <= i < j < |artifacts| ensures artifacts[i].path != artifacts[j].path {
        assert ReviewItems(browser.value.reviews)[i].path != ReviewItems(browser.value.reviews)[j].path;
      }
    }
  }

  /** One outcome of the supplement stage, from the reviews stored. */
  ghost predicate SupplementStage(h: Host, o: BuildOptions, before: Files, m: Manifest, mid: Files, artifacts: seq<Artifact>, after: Files, m': Manifest) {
    exists reviews, views, bytes ::
      && Viewed(m.sources, views)
      && Derives(h.world(FileAt(before, "expected/operation-shapes.json")), h.document(o.workflow), m.workflow.sha, views, h.supplements,
                 o.browser, artifacts, reviews, bytes)
      && Wraps(h, mid, before, m, reviews, bytes, after, m')
  }

  ghost predicate Wraps(h: Host, mid: Files, before: Files, m: Manifest, reviews: seq<Artifact>, bytes: Option<Bytes>, after: Files, m': Manifest) {
    && (bytes.None? ==> after == before && m' == m)
    && (bytes.Some? ==> Adds(h.screen, mid, "expected/browser.json", bytes.value, after)
                        && m' == m.(browser := Some(Artifact("expected/browser.json", h.screen.hash(bytes.value))), reviews := reviews))
  }

  ghost predicate Supplemented(h: Host, o: BuildOptions, before: Files, m: Manifest, after: Files, m': Manifest) {
    exists mid, artifacts :: ReviewStage(h.screen, o.browser, before, mid, artifacts) && SupplementStage(h, o, before, m, mid, artifacts, after, m')
  }

  /** WithBrowser after the reviews. */
  ghost function AfterReviews(h: Host, o: BuildOptions, before: Files, m: Manifest, mid: Files, artifacts: seq<Artifact>): Option<Draft> {
    match SupplementAgreement.Added(h.world(FileAt(before, SHAPES_PATH)), h.document(o.workflow), m.workflow.sha,
                                    BrowserSources(m.sources), h.supplements, OptionsFor(o.browser, artifacts))
    case Refusal => None
    case NoSupplement => Some(Draft(before, m))
    case Written(bytes, reviews) =>
      if !Fits(h.screen, mid, BROWSER_PATH, bytes) then None
      else Some(Draft(mid[BROWSER_PATH := bytes], m.(browser := Some(ArtifactFor(h.screen, BROWSER_PATH, bytes)), reviews := reviews)))
  }

  lemma WithBrowserIs(h: Host, o: BuildOptions, before: Files, m: Manifest)
    ensures o.browser.None? ==> WithBrowser(h, o, Draft(before, m)) == AfterReviews(h, o, before, m, before, [])
    ensures o.browser.Some? ==>
              var r := Reviewed(h.screen, before, o.browser.value.reviews);
              WithBrowser(h, o, Draft(before, m)) == if r.None? then None else AfterReviews(h, o, before, m, r.value.0, r.value.1)
  {
    hide SupplementAgreement.Added, Fits, Reviewed, BrowserSources;
  }

  lemma WrapsExactly(h: Host, mid: Files, before: Files, m: Manifest, reviews: seq<Artifact>, bytes: Option<Bytes>, after: Files, m': Manifest)
    ensures Wraps(h, mid, before, m, reviews, bytes, after, m') <==>
            Some(Draft(after, m')) ==
            if bytes.None? then Some(Draft(before, m))
            else if !Fits(h.screen, mid, BROWSER_PATH, bytes.value) then None
            else Some(Draft(mid[BROWSER_PATH := bytes.value], m.(browser := Some(ArtifactFor(h.screen, BROWSER_PATH, bytes.value)), reviews := reviews)))
  {
    if bytes.Some? { PutExactly(h.screen, mid, BROWSER_PATH, bytes.value, after); }
    hide Fits, Adds;
    assert bytes.Some? && Adds(h.screen, mid, BROWSER_PATH, bytes.value, after) ==> after == mid[BROWSER_PATH := bytes.value] by { AddsIs(h.screen, mid, after); }
  }

  lemma AddsIs(s: Screen, mid: Files, after: Files)
    ensures forall path, data :: Adds(s, mid, path, data, after) ==> after == mid[path := data]
  {
  }

  /** AfterReviews follows what Added answered. */
  lemma AfterAdded(h: Host, o: BuildOptions, before: Files, m: Manifest, mid: Files, artifacts: seq<Artifact>, reviews: seq<Artifact>, bytes: Option<Bytes>)
    requires SupplementAgreement.Added(h.world(FileAt(before, SHAPES_PATH)), h.document(o.workflow), m.workflow.sha, BrowserSources(m.sources),
                                       h.supplements, OptionsFor(o.browser, artifacts))
             == if bytes.None? then SupplementAgreement.NoSupplement else SupplementAgreement.Written(bytes.value, reviews)
    ensures AfterReviews(h, o, before, m, mid, artifacts) ==
            if bytes.None? then Some(Draft(before, m))
            else if !Fits(h.screen, mid, BROWSER_PATH, bytes.value) then None
            else Some(Draft(mid[BROWSER_PATH := bytes.value], m.(browser := Some(ArtifactFor(h.screen, BROWSER_PATH, bytes.value)), reviews := reviews)))
  {
    hide SupplementAgreement.Added, Fits, BrowserSources, OptionsFor;
  }

  lemma StageForward(h: Host, o: BuildOptions, before: Files, m: Manifest, mid: Files, artifacts: seq<Artifact>, after: Files, m': Manifest)
    requires (o.browser.None? ==> artifacts == []) && forall i, j :: 0 <= i < j < |artifacts| ==> artifacts[i].path != artifacts[j].path
    requires AfterReviews(h, o, before, m, mid, artifacts) == Some(Draft(after, m'))
    ensures SupplementStage(h, o, before, m, mid, artifacts, after, m')
  {
    hide SupplementAgreement.Added, Fits, BrowserSources, Viewed, Derives, Wraps, Sort, OptionsFor;
    var w, doc, views := h.world(FileAt(before, SHAPES_PATH)), h.document(o.workflow), BrowserSources(m.sources);
    ViewedExactly(m.sources, views);
    AddedReviews(w, doc, m.workflow.sha, views, h.supplements, o.browser, artifacts);
    var r := SupplementAgreement.Added(w, doc, m.workflow.sha, views, h.supplements, OptionsFor(o.browser, artifacts));
    var bytes: Option<Bytes> := if r.Written? then Some(r.bytes) else None;
    hide AfterReviews;
    AfterAdded(h, o, before, m, mid, artifacts, Sort(ByPath, artifacts), bytes);
    AddedExactly(w, doc, m.workflow.sha, views, h.supplements, o.browser, artifacts, Sort(ByPath, artifacts), bytes);
    WrapsExactly(h, mid, before, m, Sort(ByPath, artifacts), bytes, after, m');
  }

  lemma StageBack(h: Host, o: BuildOptions, before: Files, m: Manifest, mid: Files, artifacts: seq<Artifact>, after: Files, m': Manifest)
    requires (o.browser.None? ==> artifacts == []) && forall i, j :: 0 <= i < j < |artifacts| ==> artifacts[i].path != artifacts[j].path
    requires SupplementStage(h, o, before, m, mid, artifacts, after, m')
    ensures AfterReviews(h, o, before, m, mid, artifacts) == Some(Draft(after, m'))
  {
    hide SupplementAgreement.Added, Fits, BrowserSources, Viewed, Derives, Wraps, Sort, OptionsFor, AfterReviews;
    var w, doc := h.world(FileAt(before, SHAPES_PATH)), h.document(o.workflow);
    var reviews, views, bytes :|
      && Viewed(m.sources, views)
      && Derives(w, doc, m.workflow.sha, views, h.supplements, o.browser, artifacts, reviews, bytes)
      && Wraps(h, mid, before, m, reviews, bytes, after, m');
    ViewedExactly(m.sources, views);
    AddedExactly(w, doc, m.workflow.sha, views, h.supplements, o.browser, artifacts, reviews, bytes);
    AfterAdded(h, o, before, m, mid, artifacts, reviews, bytes);
    WrapsExactly(h, mid, before, m, reviews, bytes, after, m');
  }

  lemma StageExactly(h: Host, o: BuildOptions, before: Files, m: Manifest, mid: Files, artifacts: seq<Artifact>, after: Files, m': Manifest)
    requires ReviewStage(h.screen, o.browser, before, mid, artifacts)
    ensures AfterReviews(h, o, before, m, mid, artifacts) == Some(Draft(after, m')) <==> SupplementStage(h, o, before, m, mid, artifacts, after, m')
  {
    ReviewPaths(h.screen, o.browser, before, mid, artifacts);
    NoReviews(h.screen, o.browser, before, mid, artifacts);
    hide AfterReviews, SupplementStage, ReviewStage;
    if AfterReviews(h, o, before, m, mid, artifacts) == Some(Draft(after, m')) { StageForward(h, o, before, m, mid, artifacts, after, m'); }
    if SupplementStage(h, o, before, m, mid, artifacts, after, m') { StageBack(h, o, before, m, mid, artifacts, after, m'); }
  }

  /** Build's supplement step leaves exactly this. */
  lemma SupplementedExactly(h: Host, o: BuildOptions, before: Files, m: Manifest, after: Files, m': Manifest)
    requires Limited(before)
    ensures WithBrowser(h, o, Draft(before, m)) == Some(Draft(after, m')) <==> Supplemented(h, o, before, m, after, m')
  {
    hide AfterReviews, SupplementStage, WithBrowser, Reviewed, Reviews, Limited;
    WithBrowserIs(h, o, before, m);
    forall mid, artifacts | ReviewStage(h.screen, o.browser, before, mid, artifacts)
      ensures AfterReviews(h, o, before, m, mid, artifacts) == Some(Draft(after, m')) <==> SupplementStage(h, o, before, m, mid, artifacts, after, m')
    {
      StageExactly(h, o, before, m, mid, artifacts, after, m');
    }
    if o.browser.Some? {
      forall mid, artifacts ensures Reviewed(h.screen, before, o.browser.value.reviews) == Some((mid, artifacts)) <==> Reviews(h.screen, before, o.browser.value.reviews, mid, artifacts) {
        ReviewedExactly(h.screen, before, o.browser.value.reviews, mid, artifacts);
      }
      var r := Reviewed(h.screen, before, o.browser.value.reviews);
      if r.Some? { assert r == Some((r.value.0, r.value.1)) && ReviewStage(h.screen, o.browser, before, r.value.0, r.value.1); }
    } else {
      assert ReviewStage(h.screen, o.browser, before, before, []);
    }
  }

  lemma NoReviews(s: Screen, browser: Option<BrowserOptions>, before: Files, mid: Files, artifacts: seq<Artifact>)
    requires ReviewStage(s, browser, before, mid, artifacts)
    ensures browser.None? ==> artifacts == []
  {
  }

  lemma AddedReviews(w: BrowserSupplement.World, doc: Option<BrowserSupplement.Document>, sha: string, views: seq<BrowserSupplement.Source>,
                     c: SupplementAgreement.Codec, browser: Option<BrowserOptions>, artifacts: seq<Artifact>)
    requires browser.None? ==> artifacts == []
    ensures var r := SupplementAgreement.Added(w, doc, sha, views, c, OptionsFor(browser, artifacts)); r.Written? ==> r.reviews == Sort(ByPath, artifacts)
  {
    assert artifacts == [] ==> Sort(ByPath, artifacts) == [];
    hide Sort, BrowserSupplement.Derive;
  }

  // ---------- The records ----------

  /** The manifest with its sources ordered by id, valid and stored. */
  ghost predicate Manifested(h: Host, before: Files, draft: Manifest, after: Files, m: Manifest) {
    && m == draft.(sources := m.sources) && multiset(m.sources) == multiset(draft.sources)
    && (forall i, j :: 0 <= i < j < |m.sources| ==> AtMost(m.sources[i].id, m.sources[j].id))
    && ManifestGood(h.screen.grammar, m) && Adds(h.screen, before, "expected/package.json", h.manifests.encode(m), after)
  }

  lemma BySourceIdOrders()
    ensures Preorder(BySourceId)
  {
    forall a: Source, b: Source ensures BySourceId(a, b) || BySourceId(b, a) {
      LessTotal(a.id, b.id);
    }
    forall a: Source, b: Source, c: Source | BySourceId(a, b) && BySourceId(b, c) ensures BySourceId(a, c) {
      if a.id != b.id && b.id != c.id { LessTransitive(a.id, b.id, c.id); }
    }
  }

  lemma SortedById(s: seq<Source>)
    ensures Sorted(BySourceId, s) <==> forall i, j :: 0 <= i < j < |s| ==> AtMost(s[i].id, s[j].id)
  {
    hide AtMost;
    if forall i, j :: 0 <= i < j < |s| ==> AtMost(s[i].id, s[j].id) {
      forall i, j | 0 <= i < j < |s| ensures BySourceId(s[i], s[j]) {}
    }
    if Sorted(BySourceId, s) {
      forall i, j | 0 <= i < j < |s| ensures AtMost(s[i].id, s[j].id) { assert BySourceId(s[i], s[j]); }
    }
  }

  /** Sources of different ids have one order by id. */
  lemma SourceOrder(given: seq<Source>, sorted: seq<Source>)
    requires forall i, j :: 0 <= i < j < |sorted| ==> sorted[i].id != sorted[j].id
    ensures sorted == Sort(BySourceId, given) <==>
            multiset(sorted) == multiset(given) && forall i, j :: 0 <= i < j < |sorted| ==> AtMost(sorted[i].id, sorted[j].id)
  {
    hide Less, Sort;
    BySourceIdOrders();
    SortedById(sorted);
    forall x, y | x in sorted && y in sorted && BySourceId(x, y) && BySourceId(y, x) ensures x == y {
      LessTotal(x.id, y.id);
    }
    if multiset(sorted) == multiset(given) {
      forall x | x in given ensures x in sorted { assert x in multiset(given); }
      SortIs(BySourceId, given, sorted);
    }
  }

  lemma GoodSourceIds(g: Grammar, m: Manifest)
    requires ManifestGood(g, m)
    ensures forall i, j :: 0 <= i < j < |m.sources| ==> m.sources[i].id != m.sources[j].id
  {
  }

  lemma ManifestedExactly(h: Host, before: Files, draft: Manifest, after: Files, m: Manifest)
    ensures WithManifest(h, Draft(before, draft)) == Some(Draft(after, m)) <==> Manifested(h, before, draft, after, m)
  {
    hide Sort, AtMost, ManifestValid, ManifestGood, Fits, Adds;
    ManifestExactly(h.screen.grammar, m);
    PutExactly(h.screen, before, MANIFEST_PATH, h.manifests.encode(m), after);
    AddsIs(h.screen, before, after);
    if ManifestGood(h.screen.grammar, m) {
      GoodSourceIds(h.screen.grammar, m);
      SourceOrder(draft.sources, m.sources);
    }
  }

  /** The handoff lists every file so far, by path, with the credentials the workflow declares. */
  ghost predicate Handed(h: Host, scope: string, m: Manifest, a: Assessment, before: Files, after: Files, review: Handoff) {
    && h.credentials(m, before).Some?
    && review == Handoff("openudon.review-handoff.v3", scope, a.inputs, h.screen.hash(FileAt(before, "expected/package.json")),
                         h.screen.hash(FileAt(before, "expected/assessment.json")), review.artifacts, "review_required", h.credentials(m, before).value)
    && (forall x :: x in review.artifacts <==> x.path in before && x.sha == h.screen.hash(before[x.path]))
    && HandoffGood(h.screen.grammar, review) && Adds(h.screen, before, "expected/review-handoff.json", h.handoffs.encode(review), after)
  }

  function PathOf(a: Artifact): string {
    a.path
  }

  /** A list of all files in path order is the sorted listing. */
  lemma ListedInOrder(s: Screen, files: Files, artifacts: seq<Artifact>)
    requires BindingMeaning.Increasing(PathOf, artifacts)
    ensures artifacts == Sort(ByPath, Listing(s, files)) <==> forall x :: x in artifacts <==> x.path in files && x.sha == s.hash(files[x.path])
  {
    var listing := Listing(s, files);
    var sorted := Sort(ByPath, listing);
    OneOrder(listing, sorted);
    SameElements(listing, sorted);
    forall x ensures x in listing <==> x.path in files && x.sha == s.hash(files[x.path]) { ListedOnce(s, files, listing, x); }
    hide Sort, Listing, Less;
    if forall x :: x in artifacts <==> x.path in files && x.sha == s.hash(files[x.path]) {
      StrictlySorted(listing, sorted);
      BindingMeaning.IncreasingUnique(PathOf, artifacts, sorted);
    }
  }

  lemma ListedOnce(s: Screen, files: Files, listing: seq<Artifact>, x: Artifact)
    requires Enumerates(s, listing, files)
    ensures x in listing <==> x.path in files && x.sha == s.hash(files[x.path])
  {
  }

  lemma SameElements(a: seq<Artifact>, b: seq<Artifact>)
    requires multiset(a) == multiset(b)
    ensures forall x :: x in a <==> x in b
  {
    forall x ensures x in a <==> x in b {
      assert x in a <==> x in multiset(a);
      assert x in b <==> x in multiset(b);
    }
  }

  /** Sorting different paths makes them increase strictly. */
  lemma StrictlySorted(given: seq<Artifact>, sorted: seq<Artifact>)
    requires Arranged(given, sorted) && forall i, j :: 0 <= i < j < |given| ==> given[i].path != given[j].path
    ensures BindingMeaning.Increasing(PathOf, sorted)
  {
    hide Less;
    forall i, j | 0 <= i < j < |sorted| ensures sorted[i].path != sorted[j].path {
      CountOf(sorted, sorted[i]);
      CountOf(given, sorted[i]);
      CountOf(sorted, sorted[j]);
      CountOf(given, sorted[j]);
    }
    forall i, j | 0 <= i < j < |sorted| ensures Less(PathOf(sorted[i]), PathOf(sorted[j])) { assert AtMost(sorted[i].path, sorted[j].path); }
  }

  lemma GoodHandoffOrder(g: Grammar, review: Handoff)
    requires HandoffGood(g, review)
    ensures BindingMeaning.Increasing(PathOf, review.artifacts)
  {
    hide Less;
  }

  lemma HandedExactly(h: Host, scope: string, m: Manifest, a: Assessment, before: Files, after: Files, review: Handoff)
    ensures WithHandoff(h, scope, m, a, before) == Some((after, review)) <==> Handed(h, scope, m, a, before, after, review)
  {
    hide Sort, Listing, HandoffValid, HandoffGood, Fits, Adds;
    HandoffExactly(h.screen.grammar, review);
    PutExactly(h.screen, before, HANDOFF_PATH, h.handoffs.encode(review), after);
    AddsIs(h.screen, before, after);
    if HandoffGood(h.screen.grammar, review) {
      GoodHandoffOrder(h.screen.grammar, review);
      ListedInOrder(h.screen, before, review.artifacts);
    }
  }

  // ---------- The package ----------

  /** Assessed, and the assessment stored. */
  ghost predicate Concluded(h: Host, m: Manifest, before: Files, after: Files, a: Assessment) {
    && AssessedAs(h, m, before, a) && AssessmentGood(h.screen.grammar, a)
    && Adds(h.screen, before, "expected/assessment.json", h.assessments.encode(a), after)
  }

  lemma JudgementExactly(h: Host, m: Manifest, before: Files, after: Files, a: Assessment)
    ensures WithAssessment(h, Draft(before, m)) == Some((after, a)) <==> Concluded(h, m, before, after, a)
  {
    hide Assessed, AssessedAs, AssessmentValid, AssessmentGood, Fits, Adds;
    AssessedExactly(h, m, before, a);
    AssessmentExactly(h.screen.grammar, a);
    PutExactly(h.screen, before, ASSESSMENT_PATH, h.assessments.encode(a), after);
    AddsIs(h.screen, before, after);
  }

  /** The files and records of a package, stage by stage. */
  ghost predicate Filed(h: Host, o: BuildOptions, m: Manifest, a: Assessment, review: Handoff, files: Files) {
    exists f1, m1, f2, m2, f3, f4 ::
      && Prepared(h, o, f1, m1) && Supplemented(h, o, f1, m1, f2, m2) && Manifested(h, f2, m2, f3, m)
      && Concluded(h, m, f3, f4, a) && Handed(h, o.scope, m, a, f4, files, review)
  }

  /** What Build returns: those files and records, and the digest over all of them. */
  ghost predicate Assembled(h: Host, o: BuildOptions, p: Package) {
    Filed(h, o, p.manifest, p.assessment, p.handoff, p.files) && WholeDigest(h, o.scope, p.files, p.sha)
  }

  lemma PreparedLimited(h: Host, o: BuildOptions, files: Files, m: Manifest)
    requires Prepared(h, o, files, m)
    ensures Limited(files)
  {
    hide Begun, Gathers, TotalBytes;
  }

  /** The files of Built, if all stages succeed. */
  ghost function BuiltFiles(h: Host, o: BuildOptions): Option<(Manifest, Assessment, Handoff, Files)> {
    var shaped := WithShapes(h, o);
    if shaped.None? then None else
    var browsed := WithBrowser(h, o, shaped.value);
    if browsed.None? then None else
    var named := WithManifest(h, browsed.value);
    if named.None? then None else
    var assessed := WithAssessment(h, named.value);
    if assessed.None? then None else
    var reviewed := WithHandoff(h, o.scope, named.value.manifest, assessed.value.1, assessed.value.0);
    if reviewed.None? then None else Some((named.value.manifest, assessed.value.1, reviewed.value.1, reviewed.value.0))
  }

  lemma BuiltFrom(h: Host, o: BuildOptions)
    ensures Built(h, o) ==
            var b := BuiltFiles(h, o);
            if b.None? then None
            else
              var sum := Digest(h.sealing, o.scope, DIGEST_VERSION, Listing(h.screen, b.value.3));
              if sum.None? then None else Some(Package(b.value.0, b.value.1, b.value.2, b.value.3, sum.value))
  {
    hide WithShapes, WithBrowser, WithManifest, WithAssessment, WithHandoff, Digest, Listing;
  }

  lemma FiledForward(h: Host, o: BuildOptions)
    requires BuiltFiles(h, o).Some?
    ensures var b := BuiltFiles(h, o).value; Filed(h, o, b.0, b.1, b.2, b.3)
  {
    hide WithShapes, WithBrowser, WithManifest, WithAssessment, WithHandoff, Prepared, Supplemented, Manifested, Concluded, Handed, Limited;
    var d1 := WithShapes(h, o).value;
    assert d1 == Draft(d1.files, d1.manifest);
    PreparedExactly(h, o, d1.files, d1.manifest);
    PreparedLimited(h, o, d1.files, d1.manifest);
    var d2 := WithBrowser(h, o, d1).value;
    assert d2 == Draft(d2.files, d2.manifest);
    SupplementedExactly(h, o, d1.files, d1.manifest, d2.files, d2.manifest);
    var d3 := WithManifest(h, d2).value;
    assert d3 == Draft(d3.files, d3.manifest);
    ManifestedExactly(h, d2.files, d2.manifest, d3.files, d3.manifest);
    var d4 := WithAssessment(h, d3).value;
    JudgementExactly(h, d3.manifest, d3.files, d4.0, d4.1);
    var d5 := WithHandoff(h, o.scope, d3.manifest, d4.1, d4.0).value;
    HandedExactly(h, o.scope, d3.manifest, d4.1, d4.0, d5.0, d5.1);
    assert d4 == (d4.0, d4.1) && d5 == (d5.0, d5.1);
  }

  lemma FiledBack(h: Host, o: BuildOptions, m: Manifest, a: Assessment, review: Handoff, files: Files)
    requires Filed(h, o, m, a, review, files)
    ensures BuiltFiles(h, o) == Some((m, a, review, files))
  {
    hide WithShapes, WithBrowser, WithManifest, WithAssessment, WithHandoff, Prepared, Supplemented, Manifested, Concluded, Handed, Limited;
    var f1, m1, f2, m2, f3, f4 :|
      && Prepared(h, o, f1, m1) && Supplemented(h, o, f1, m1, f2, m2) && Manifested(h, f2, m2, f3, m)
      && Concluded(h, m, f3, f4, a) && Handed(h, o.scope, m, a, f4, files, review);
    PreparedExactly(h, o, f1, m1);
    PreparedLimited(h, o, f1, m1);
    SupplementedExactly(h, o, f1, m1, f2, m2);
    ManifestedExactly(h, f2, m2, f3, m);
    JudgementExactly(h, m, f3, f4, a);
    HandedExactly(h, o.scope, m, a, f4, files, review);
  }

  /** Build returns exactly what is assembled from its options. */
  lemma BuiltExactly(h: Host, o: BuildOptions, p: Package)
    requires JoinsApart(h.sealing)
    ensures Built(h, o) == Some(p) <==> Assembled(h, o, p)
  {
    hide Built, BuiltFiles, Filed, Digest, Listing, Enumerates, JoinsApart;
    BuiltFrom(h, o);
    if BuiltFiles(h, o).Some? { FiledForward(h, o); }
    if Filed(h, o, p.manifest, p.assessment, p.handoff, p.files) { FiledBack(h, o, p.manifest, p.assessment, p.handoff, p.files); }
    DigestOf(h, o.scope, p.files, Listing(h.screen, p.files), p.sha);
    assert DigestIs(h, o.scope, p.files, p.sha) <==> WholeDigest(h, o.scope, p.files, p.sha);
  }
}
