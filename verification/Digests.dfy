/** The digest-v1 inventory (handoff/digest.go): clean, refuse duplicates, sort, seal.
    Path cleaning and the sealed JSON envelope are parameters. */
module Digests {
  import opened Common

  datatype Artifact = Artifact(path: string, sha: string)

  /** Path cleaning, scope and version trimming, joining below a scope, and the digest of
      the JSON envelope of version, scope and files. */
  datatype Sealing = Sealing(
    clean: string -> Option<string>, scope: string -> string, version: string -> string,
    join: (string, string) -> string, seal: (string, string, seq<Artifact>) -> string)

  const DEFAULT_VERSION := "openudon.review-handoff-digest.v1"

  predicate ByPath(a: Artifact, b: Artifact) {
    AtMost(a.path, b.path)
  }

  lemma ByPathOrders()
    ensures Preorder(ByPath)
  {
    forall a: Artifact, b: Artifact ensures ByPath(a, b) || ByPath(b, a) {
      LessTotal(a.path, b.path);
    }
    forall a: Artifact, b: Artifact, c: Artifact | ByPath(a, b) && ByPath(b, c) ensures ByPath(a, c) {
      if a.path != b.path && b.path != c.path { LessTransitive(a.path, b.path, c.path); }
    }
  }

  /** An entry the inventory can list. */
  predicate Listable(s: Sealing, f: Artifact) {
    s.clean(f.path).Some? && DigestText(f.sha)
  }

  /** Every entry can be listed and no two clean to one path. */
  predicate Proper(s: Sealing, files: seq<Artifact>) {
    && (forall i :: 0 <= i < |files| ==> Listable(s, files[i]))
    && (forall i, j :: 0 <= i < j < |files| ==> s.clean(files[i].path) != s.clean(files[j].path))
  }

  function Reported(s: Sealing, scope: string, f: Artifact): Artifact
    requires Listable(s, f)
  {
    Artifact(if scope == "" then s.clean(f.path).value else s.join(scope, s.clean(f.path).value), f.sha)
  }

  function AllReported(s: Sealing, scope: string, files: seq<Artifact>): (r: seq<Artifact>)
    requires Proper(s, files)
    ensures |r| == |files| && forall i :: 0 <= i < |r| ==> r[i] == Reported(s, scope, files[i])
  {
    seq(|files|, i requires 0 <= i < |files| => Reported(s, scope, files[i]))
  }

  function Digest(s: Sealing, scope: string, version: string, files: seq<Artifact>): Option<string> {
    if |files| > 1024 || ByteLength(scope) > 2048 || ByteLength(version) > 128 || !Proper(s, files) then None
    else
      var v := s.version(version);
      Some(s.seal(if v == "" then DEFAULT_VERSION else v, s.scope(scope), Sort(ByPath, AllReported(s, s.scope(scope), files))))
  }

  /** DigestFiles. */
  method DigestFiles(s: Sealing, scope: string, version: string, files: seq<Artifact>) returns (r: Option<string>)
    ensures r == Digest(s, scope, version, files)
  {
    hide ByteLength, Sort;
    if |files| > 1024 || ByteLength(scope) > 2048 || ByteLength(version) > 128 { return None; }
    var within := s.scope(scope);
    var v := s.version(version);
    if v == "" { v := DEFAULT_VERSION; }
    var normalized: seq<Artifact> := [];
    var seen: set<string> := {};
    for i := 0 to |files|
      invariant Proper(s, files[..i]) && |normalized| == i
      invariant forall k :: 0 <= k < i ==> normalized[k] == Reported(s, within, files[..i][k])
      invariant forall path :: path in seen <==> exists k :: 0 <= k < i && s.clean(files[..i][k].path) == Some(path)
    {
      var f := files[i];
      var clean := s.clean(f.path);
      ProperNext(s, files, i);
      hide Proper, DigestText;
      if clean.None? || clean.value in seen || !DigestText(f.sha) { return None; }
      seen := seen + {clean.value};
      normalized := normalized + [Reported(s, within, f)];
      assert forall k :: 0 <= k < i ==> files[..i + 1][k] == files[..i][k];
      assert files[..i + 1][i] == f;
    }
    assert files[..|files|] == files;
    assert normalized == AllReported(s, within, files);
    return Some(s.seal(v, within, Sort(ByPath, normalized)));
  }

  /** The next entry keeps a proper list proper exactly when it can be listed and its clean
      path is new. */
  lemma ProperNext(s: Sealing, files: seq<Artifact>, i: nat)
    requires i < |files| && Proper(s, files[..i])
    ensures Proper(s, files[..i + 1]) <==> Listable(s, files[i]) && forall k :: 0 <= k < i ==> s.clean(files[..i][k].path) != s.clean(files[i].path)
    ensures Proper(s, files) ==> Proper(s, files[..i + 1])
  {
    hide DigestText;
    var head := files[..i + 1];
    assert forall k :: 0 <= k < i ==> head[k] == files[..i][k];
    assert head[i] == files[i];
  }

  // ---------- Order ----------

  /** Joining clean paths below a scope keeps different ones different. */
  ghost predicate JoinsApart(s: Sealing) {
    forall scope, a, b :: s.clean(a).Some? && s.clean(b).Some? && s.join(scope, s.clean(a).value) == s.join(scope, s.clean(b).value) ==>
      s.clean(a) == s.clean(b)
  }

  lemma ProperPermuted(s: Sealing, a: seq<Artifact>, b: seq<Artifact>)
    requires multiset(a) == multiset(b) && Proper(s, a)
    ensures Proper(s, b)
  {
    hide DigestText;
    forall i | 0 <= i < |b| ensures Listable(s, b[i]) {
      CountOf(b, b[i]);
      CountOf(a, b[i]);
    }
    forall i, j | 0 <= i < j < |b| ensures s.clean(b[i].path) != s.clean(b[j].path) {
      CountOf(b, b[i]);
      CountOf(a, b[i]);
      CountOf(b, b[j]);
      CountOf(a, b[j]);
    }
  }

  lemma ReportedApart(s: Sealing, scope: string, files: seq<Artifact>)
    requires JoinsApart(s) && Proper(s, files)
    ensures forall i, j :: 0 <= i < j < |files| ==> AllReported(s, scope, files)[i].path != AllReported(s, scope, files)[j].path
  {
  }

  lemma ReportedPermuted(s: Sealing, scope: string, a: seq<Artifact>, b: seq<Artifact>)
    requires JoinsApart(s) && multiset(a) == multiset(b) && Proper(s, a) && Proper(s, b)
    ensures multiset(AllReported(s, scope, a)) == multiset(AllReported(s, scope, b))
  {
    hide Proper, Listable, Reported;
    ReportedApart(s, scope, a);
    ReportedApart(s, scope, b);
    var x, y := AllReported(s, scope, a), AllReported(s, scope, b);
    forall f ensures multiset(x)[f] == multiset(y)[f] {
      CountOf(x, f);
      CountOf(y, f);
      SameReported(s, scope, a, b, f);
      SameReported(s, scope, b, a, f);
    }
  }

  lemma SameReported(s: Sealing, scope: string, a: seq<Artifact>, b: seq<Artifact>, f: Artifact)
    requires multiset(a) == multiset(b) && Proper(s, a) && Proper(s, b)
    ensures f in AllReported(s, scope, a) ==> f in AllReported(s, scope, b)
  {
    if f in AllReported(s, scope, a) {
      var i :| 0 <= i < |a| && AllReported(s, scope, a)[i] == f;
      CountOf(a, a[i]);
      CountOf(b, a[i]);
      var j :| 0 <= j < |b| && b[j] == a[i];
      assert AllReported(s, scope, b)[j] == f;
    }
  }

  /** The digest of an inventory does not depend on the order it is listed in. */
  lemma DigestIgnoresOrder(s: Sealing, scope: string, version: string, a: seq<Artifact>, b: seq<Artifact>)
    requires JoinsApart(s) && multiset(a) == multiset(b)
    ensures Digest(s, scope, version, a) == Digest(s, scope, version, b)
  {
    assert |multiset(a)| == |a| && |multiset(b)| == |b|;
    if Proper(s, a) {
      ProperPermuted(s, a, b);
      var x, y := AllReported(s, s.scope(scope), a), AllReported(s, s.scope(scope), b);
      ReportedPermuted(s, s.scope(scope), a, b);
      ReportedApart(s, s.scope(scope), a);
      hide Proper;
      ByPathOrders();
      forall f, g | f in x && g in x && ByPath(f, g) && ByPath(g, f) ensures f == g {
        LessTotal(f.path, g.path);
      }
      SortPermuted(ByPath, x, y);
    } else if Proper(s, b) {
      ProperPermuted(s, b, a);
      assert false;
    }
  }
}
