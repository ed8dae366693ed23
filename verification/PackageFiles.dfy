/** The byte inventory of a package and the put closure of Build (packagev3/build.go). */
module PackageFiles {
  import opened Common
  import opened Digests
  import opened PackageRecords

  type Bytes = seq<bv8>
  type Files = map<string, Bytes>

  const MAX_FILE_BYTES: nat := 8388608
  const MAX_TOTAL_BYTES: nat := 33554432

  /** What screens the bytes of a file: the grammars, SHA-256, the credential scan and the
      host's own privacy predicate. */
  datatype Screen = Screen(grammar: Grammar, hash: Bytes -> string, secret: Bytes -> bool, private: Bytes -> bool)

  /** The bytes of all files together, counted in any order. */
  ghost function TotalBytes(files: Files): nat
    decreases |files|
  {
    if files == map[] then 0 else
    var path :| path in files;
    |files[path]| + TotalBytes(files - {path})
  }

  lemma {:induction false} TotalWithout(files: Files, path: string)
    requires path in files
    ensures TotalBytes(files) == |files[path]| + TotalBytes(files - {path})
    decreases |files|
  {
    var first :| first in files && TotalBytes(files) == |files[first]| + TotalBytes(files - {first});
    if first != path {
      TotalWithout(files - {first}, path);
      TotalWithout(files - {path}, first);
      assert files - {first} - {path} == files - {path} - {first};
    }
  }

  lemma TotalAdded(files: Files, path: string, data: Bytes)
    requires path !in files
    ensures TotalBytes(files[path := data]) == TotalBytes(files) + |data|
  {
    TotalWithout(files[path := data], path);
    assert files[path := data] - {path} == files;
  }

  predicate FileOk(s: Screen, path: string, data: Bytes) {
    s.grammar.publicPath(path) && 1 <= |data| <= MAX_FILE_BYTES && !s.secret(data) && !s.private(data)
  }

  /** Files a package may hold. */
  ghost predicate Stored(s: Screen, files: Files) {
    TotalBytes(files) <= MAX_TOTAL_BYTES && forall path :: path in files ==> FileOk(s, path, files[path])
  }

  ghost predicate Fits(s: Screen, files: Files, path: string, data: Bytes) {
    FileOk(s, path, data) && |files| < MAX_FILES && path !in files && |data| + TotalBytes(files) <= MAX_TOTAL_BYTES
  }

  /** What put leaves behind, if it succeeds. */
  ghost function Put(s: Screen, files: Option<Files>, path: string, data: Bytes): Option<Files> {
    if files.Some? && Fits(s, files.value, path, data) then Some(files.value[path := data]) else None
  }

  class Packer {
    const screen: Screen
    var files: Files
    var total: nat

    constructor (screen: Screen)
      ensures Valid() && this.screen == screen && files == map[]
    {
      this.screen := screen;
      files, total := map[], 0;
    }

    ghost predicate Valid()
      reads this
    {
      Stored(screen, files) && |files| <= MAX_FILES && total == TotalBytes(files)
    }

    method Put(path: string, data: Bytes) returns (ok: bool)
      requires Valid()
      modifies this
      ensures Valid()
      ensures ok <==> old(Fits(screen, files, path, data))
      ensures files == if ok then old(files)[path := data] else old(files)
    {
      if !screen.grammar.publicPath(path) || |data| == 0 || |data| > MAX_FILE_BYTES || |files| >= MAX_FILES || |data| > MAX_TOTAL_BYTES - total {
        return false;
      }
      if path in files || screen.secret(data) || screen.private(data) { return false; }
      TotalAdded(files, path, data);
      files, total := files[path := data], total + |data|;
      return true;
    }
  }

  function ArtifactFor(s: Screen, path: string, data: Bytes): Artifact {
    Artifact(path, s.hash(data))
  }

  /** One entry for every file. */
  ghost predicate Enumerates(s: Screen, entries: seq<Artifact>, files: Files) {
    && (forall i, j :: 0 <= i < j < |entries| ==> entries[i].path != entries[j].path)
    && (forall a :: a in entries <==> a.path in files && a == ArtifactFor(s, a.path, files[a.path]))
  }

  /** A loop over the file map, in whatever order it comes. */
  method Enumerate(s: Screen, files: Files) returns (entries: seq<Artifact>)
    ensures Enumerates(s, entries, files) && |entries| == |files|
  {
    entries := [];
    var left := files.Keys;
    while left != {}
      invariant left <= files.Keys && |entries| + |left| == |files|
      invariant forall i, j :: 0 <= i < j < |entries| ==> entries[i].path != entries[j].path
      invariant forall a :: a in entries <==> a.path in files && a.path !in left && a == ArtifactFor(s, a.path, files[a.path])
      decreases |left|
    {
      var path :| path in left;
      var entry := ArtifactFor(s, path, files[path]);
      forall i | 0 <= i < |entries| ensures entries[i].path != path {
        assert entries[i] in entries;
      }
      entries := entries + [entry];
      left := left - {path};
    }
  }

  lemma EnumerationsAgree(s: Screen, a: seq<Artifact>, b: seq<Artifact>, files: Files)
    requires Enumerates(s, a, files) && Enumerates(s, b, files)
    ensures multiset(a) == multiset(b)
  {
    forall x: Artifact ensures multiset(a)[x] == multiset(b)[x] {
      CountOf(a, x);
      CountOf(b, x);
    }
  }
}
