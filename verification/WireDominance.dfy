/** Which collected fields a record keeps: the sort, the dominance groups and the
    lookup of jsonFields and jsonFieldIndex in wire/fields.go. */
module WireDominance {
  import opened Common
  import opened WireTypes
  import opened WireFields

  // ---------- The orders ----------

  /** The first sort: by name, depth, tag, then position. */
  predicate Ahead(a: Item, b: Item) {
    if a.name != b.name then Less(a.name, b.name)
    else if |a.index| != |b.index| then |a.index| < |b.index|
    else if a.tagged != b.tagged then a.tagged
    else IndexAtMost(a.index, b.index)
  }

  /** The second sort: by position. */
  predicate Earlier(a: Item, b: Item) {
    IndexAtMost(a.index, b.index)
  }

  lemma AheadTransitive(a: Item, b: Item, c: Item)
    requires Ahead(a, b) && Ahead(b, c)
    ensures Ahead(a, c)
  {
    if a.name != b.name && b.name != c.name {
      LessTransitive(a.name, b.name, c.name);
      LessTotal(a.name, c.name);
    }
    if |a.index| == |b.index| == |c.index| && a.tagged == b.tagged == c.tagged && a.name == b.name == c.name {
      IndexTransitive(a.index, b.index, c.index);
    }
  }

  lemma AheadOrders()
    ensures Preorder(Ahead)
  {
    forall a: Item, b: Item ensures Ahead(a, b) || Ahead(b, a) {
      LessTotal(a.name, b.name);
      IndexTotal(a.index, b.index);
    }
    forall a: Item, b: Item, c: Item | Ahead(a, b) && Ahead(b, c) ensures Ahead(a, c) {
      AheadTransitive(a, b, c);
    }
  }

  lemma EarlierOrders()
    ensures Preorder(Earlier)
  {
    forall a: Item, b: Item ensures Earlier(a, b) || Earlier(b, a) {
      IndexTotal(a.index, b.index);
    }
    forall a: Item, b: Item, c: Item | Earlier(a, b) && Earlier(b, c) ensures Earlier(a, c) {
      IndexTransitive(a.index, b.index, c.index);
    }
  }

  // ---------- Groups of one name ----------

  predicate Better(f: Item, g: Item) {
    |f.index| < |g.index| || (|f.index| == |g.index| && f.tagged && !g.tagged)
  }

  /** Collected once, and better than every other field of its name. */
  predicate Winner(fields: seq<Item>, f: Item) {
    && multiset(fields)[f] == 1
    && forall g :: g in fields && g != f && g.name == f.name ==> Better(f, g)
  }

  /** A group of one name ends before i. */
  predicate Boundary(fields: seq<Item>, i: nat) {
    i <= |fields| && forall j, k :: 0 <= j < i <= k < |fields| ==> fields[j].name != fields[k].name
  }

  lemma BoundaryAt(fields: seq<Item>, i: nat)
    requires Sorted(Ahead, fields) && i <= |fields| && (0 < i < |fields| ==> fields[i - 1].name != fields[i].name)
    ensures Boundary(fields, i)
  {
    forall j, k | 0 <= j < i <= k < |fields| ensures fields[j].name != fields[k].name {
      assert j == i - 1 || Ahead(fields[j], fields[i - 1]);
      assert k == i || Ahead(fields[i], fields[k]);
      assert Ahead(fields[i - 1], fields[i]);
      NamesStrict(fields[j].name, fields[i - 1].name, fields[i].name, fields[k].name);
    }
  }

  lemma NamesStrict(a: string, b: string, c: string, d: string)
    requires AtMost(a, b) && Less(b, c) && AtMost(c, d)
    ensures a != d
  {
    LessTotal(b, c);
    if a != b { LessTransitive(a, b, c); }
    if c != d { LessTransitive(a, c, d); }
    LessTotal(a, d);
  }

  /** Of one group only the first can win, and it does exactly when the second is
      missing, deeper, or untagged where it is tagged. */
  lemma GroupHead(fields: seq<Item>, i: nat, end: nat)
    requires Sorted(Ahead, fields) && i < end <= |fields| && Boundary(fields, i) && Boundary(fields, end)
    requires forall k :: i <= k < end ==> fields[k].name == fields[i].name
    ensures Winner(fields, fields[i]) <==>
            (end == i + 1 || |fields[i].index| != |fields[i + 1].index| || fields[i].tagged != fields[i + 1].tagged)
    ensures forall k :: i < k < end ==> !Winner(fields, fields[k])
  {
    hide Less, IndexAtMost;
    forall k | i < k < end ensures !Winner(fields, fields[k]) {
      assert Ahead(fields[i], fields[k]);
      CountOf(fields, fields[k]);
    }
    if end == i + 1 || |fields[i].index| != |fields[i + 1].index| || fields[i].tagged != fields[i + 1].tagged {
      forall k | 0 <= k < |fields| && k != i && fields[k].name == fields[i].name ensures Better(fields[i], fields[k]) {
        assert i < k < end;
        assert Ahead(fields[i], fields[i + 1]);
        assert k == i + 1 || Ahead(fields[i + 1], fields[k]);
      }
      CountOf(fields, fields[i]);
    } else {
      assert fields[i + 1] in fields;
      CountOf(fields, fields[i]);
    }
  }

  /** The grouping loop. */
  method Dominant(fields: seq<Item>) returns (result: seq<Item>)
    requires Sorted(Ahead, fields)
    ensures forall f :: f in result <==> Winner(fields, f)
    ensures forall a, b :: 0 <= a < b < |result| ==> result[a].name != result[b].name
  {
    hide Winner, Ahead, Sorted;
    result := [];
    var i := 0;
    while i < |fields|
      invariant Boundary(fields, i)
      invariant forall f :: f in result <==> f in fields[..i] && Winner(fields, f)
      invariant forall a, b :: 0 <= a < b < |result| ==> result[a].name != result[b].name
    {
      var end := i + 1;
      while end < |fields| && fields[end].name == fields[i].name
        invariant i < end <= |fields|
        invariant forall k :: i <= k < end ==> fields[k].name == fields[i].name
      {
        end := end + 1;
      }
      BoundaryAt(fields, end);
      GroupHead(fields, i, end);
      forall f | f in result ensures f.name != fields[i].name {
        var j :| 0 <= j < i && fields[..i][j] == f;
        assert fields[j] == f;
      }
      assert fields[..end] == fields[..i] + [fields[i]] + fields[i + 1..end];
      forall f | f in fields[i + 1..end] ensures !Winner(fields, f) {
        var k :| i < k < end && fields[k] == f;
      }
      if end == i + 1 || |fields[i].index| != |fields[i + 1].index| || fields[i].tagged != fields[i + 1].tagged {
        result := result + [fields[i]];
      }
      i := end;
    }
    WinnersCollected(fields);
    assert fields[..i] == fields;
  }

  lemma WinnersCollected(fields: seq<Item>)
    ensures forall f :: Winner(fields, f) ==> f in fields
  {
  }

  // ---------- What a record keeps ----------

  function NameOf(ts: Types, s: nat, i: nat): string
    requires i < Width(ts, s)
  {
    ItemOf(ts, ts.structs[s][i], []).name
  }

  predicate Tagged(ts: Types, s: nat, i: nat)
    requires i < Width(ts, s)
  {
    ItemOf(ts, ts.structs[s][i], []).tagged
  }

  /** Field j of struct v does not outrank field i of struct u, found at these depths. */
  predicate Yields(ts: Types, r: nat, u: nat, i: nat, m: nat, v: nat, j: nat)
    requires i < Width(ts, u) && j < Width(ts, v)
  {
    Leaf(ts, ts.structs[v][j]) && (v, j) != (u, i) && NameOf(ts, v, j) == NameOf(ts, u, i) ==>
      r < m || (r == m && Tagged(ts, u, i) && !Tagged(ts, v, j))
  }

  /** Field i of struct u is a record field: its struct's shortest embedding path has r
      steps and is not shared, and every other field of its name lies deeper, or equally
      deep without a tag where this one has one. */
  ghost predicate Dominates(ts: Types, t: nat, r: nat, u: nat, i: nat) {
    && u in Fresh(ts, t, r) && i < Width(ts, u) && Leaf(ts, ts.structs[u][i]) && !Repeated(ts, t, r, u)
    && forall m: nat, v, j: nat :: v in Reach(ts, t, m) && j < Width(ts, v) ==> Yields(ts, r, u, i, m, v, j)
  }

  ghost predicate Keeps(ts: Types, t: nat, f: Item) {
    Genuine(ts, t, f) && Dominates(ts, t, |f.index| - 1, Home(ts, t, f).value, f.index[|f.index| - 1])
  }

  /** What jsonFields returns for struct t. */
  ghost predicate IsRecord(ts: Types, t: nat, record: seq<Item>) {
    && (forall a, b :: 0 <= a < b < |record| ==> record[a].name != record[b].name)
    && (forall a, b :: 0 <= a < b < |record| ==> IndexAtMost(record[a].index, record[b].index) && record[a].index != record[b].index)
    && (forall f :: f in record ==> Keeps(ts, t, f))
    && (forall r: nat, u, i: nat :: Dominates(ts, t, r, u, i) ==> exists k :: 0 <= k < |record| && Holds(ts, t, record[k], r, u, i))
  }

  /** A struct on some path lies on a shortest one. */
  lemma {:induction false} Shortest(ts: Types, t: nat, m: nat, u: nat) returns (r: nat)
    requires u in Reach(ts, t, m)
    ensures r <= m && u in Fresh(ts, t, r)
  {
    if u in Below(ts, t, m) {
      var k := BelowFrom(ts, t, m, u);
      r := Shortest(ts, t, k, u);
    } else {
      r := m;
    }
  }

  /** The item a struct of some level was collected as. */
  lemma Collected(ts: Types, t: nat, fields: seq<Item>, r: nat, u: nat, i: nat) returns (f: Item)
    requires Collection(ts, t, fields) && u in Fresh(ts, t, r) && i < Width(ts, u) && Leaf(ts, ts.structs[u][i])
    ensures f in fields && Genuine(ts, t, f) && Holds(ts, t, f, r, u, i) && Home(ts, t, f) == Some(u)
    ensures f.name == NameOf(ts, u, i) && f.tagged == Tagged(ts, u, i)
  {
    assert Covered(ts, t, fields, u, r);
    var k :| 0 <= k < |fields| && Holds(ts, t, fields[k], r, u, i);
    f := fields[k];
  }

  lemma WinnerOutranks(ts: Types, t: nat, fields: seq<Item>, f: Item, u: nat, i: nat, m: nat, v: nat, j: nat)
    requires Collection(ts, t, fields) && f in fields && Winner(fields, f)
    requires f.index != [] && Home(ts, t, f) == Some(u) && i == f.index[|f.index| - 1] && i < Width(ts, u)
    requires f.name == NameOf(ts, u, i) && f.tagged == Tagged(ts, u, i)
    requires v in Reach(ts, t, m) && j < Width(ts, v)
    ensures Yields(ts, |f.index| - 1, u, i, m, v, j)
  {
    hide Collection, Reach, Fresh, Home, Walk, Genuine, Leaf, ItemOf;
    if Leaf(ts, ts.structs[v][j]) && (v, j) != (u, i) && NameOf(ts, v, j) == NameOf(ts, u, i) {
      var n := Shortest(ts, t, m, v);
      var g := Collected(ts, t, fields, n, v, j);
      HoldsHome(ts, t, f, g, n, v, j);
      assert Better(f, g);
    }
  }

  lemma HoldsHome(ts: Types, t: nat, f: Item, g: Item, n: nat, v: nat, j: nat)
    requires f.index != [] && Holds(ts, t, g, n, v, j) && Home(ts, t, g) == Some(v)
    ensures f == g ==> Home(ts, t, f) == Some(v) && f.index[|f.index| - 1] == j
  {
  }

  lemma WinnerDominates(ts: Types, t: nat, fields: seq<Item>, f: Item)
    requires Collection(ts, t, fields) && f in fields && Winner(fields, f)
    ensures Keeps(ts, t, f)
  {
    hide Reach, Walk, Covered, BeforeComma, Leaf, Yields, Below, Least, Repeated;
    assert Genuine(ts, t, f);
    var r, u, i := |f.index| - 1, Home(ts, t, f).value, f.index[|f.index| - 1];
    assert !Repeated(ts, t, r, u);
    assert f.name == NameOf(ts, u, i) && f.tagged == Tagged(ts, u, i);
    hide Collection, Genuine, Fresh, ItemOf, Home, Winner;
    forall m: nat, v, j: nat | v in Reach(ts, t, m) && j < Width(ts, v) ensures Yields(ts, r, u, i, m, v, j) {
      WinnerOutranks(ts, t, fields, f, u, i, m, v, j);
    }
  }

  lemma DominatesWins(ts: Types, t: nat, fields: seq<Item>, r: nat, u: nat, i: nat) returns (f: Item)
    requires Collection(ts, t, fields) && Dominates(ts, t, r, u, i)
    ensures f in fields && Winner(fields, f) && Holds(ts, t, f, r, u, i)
  {
    f := Collected(ts, t, fields, r, u, i);
    forall g | g in fields && g != f && g.name == f.name ensures Better(f, g) {
      Outranked(ts, t, fields, r, u, i, f, g);
    }
    assert multiset(fields)[f] > 0;
  }

  lemma Outranked(ts: Types, t: nat, fields: seq<Item>, r: nat, u: nat, i: nat, f: Item, g: Item)
    requires Collection(ts, t, fields) && Dominates(ts, t, r, u, i)
    requires f in fields && g in fields && g != f && g.name == f.name
    requires Genuine(ts, t, f) && Holds(ts, t, f, r, u, i) && Home(ts, t, f) == Some(u)
    requires f.name == NameOf(ts, u, i) && f.tagged == Tagged(ts, u, i)
    ensures Better(f, g)
  {
    hide Collection, Dominates, Genuine, Holds, Home, NameOf, Tagged, Leaf, Width, Reach;
    InCollection(ts, t, fields, f, g);
    var v, j := Home(ts, t, g).value, g.index[|g.index| - 1];
    if (v, j) == (u, i) {
      SamePlace(ts, t, f, g, r, u, i);
    } else {
      Rank(ts, t, r, u, i, |g.index| - 1, v, j);
    }
    DepthOf(ts, t, f, r, u, i);
  }

  lemma DepthOf(ts: Types, t: nat, f: Item, r: nat, u: nat, i: nat)
    requires Holds(ts, t, f, r, u, i)
    ensures |f.index| == r + 1
  {
  }

  lemma Rank(ts: Types, t: nat, r: nat, u: nat, i: nat, m: nat, v: nat, j: nat)
    requires Dominates(ts, t, r, u, i) && v in Reach(ts, t, m) && j < Width(ts, v)
    requires Leaf(ts, ts.structs[v][j]) && (v, j) != (u, i) && NameOf(ts, v, j) == NameOf(ts, u, i)
    ensures r < m || (r == m && Tagged(ts, u, i) && !Tagged(ts, v, j))
  {
    hide Reach, Fresh, Leaf, ItemOf, NameOf, Tagged, Repeated;
    assert Yields(ts, r, u, i, m, v, j);
  }

  lemma SameSplit(a: seq<nat>, b: seq<nat>)
    requires a != [] && b != [] && Front(a) == Front(b) && a[|a| - 1] == b[|b| - 1]
    ensures a == b
  {
    assert a == Front(a) + [a[|a| - 1]] && b == Front(b) + [b[|b| - 1]];
  }

  lemma SamePlace(ts: Types, t: nat, f: Item, g: Item, r: nat, u: nat, i: nat)
    requires f.index != [] && g.index != [] && Genuine(ts, t, f) && Genuine(ts, t, g) && Holds(ts, t, f, r, u, i)
    requires Front(f.index) == Front(g.index) && g.index[|g.index| - 1] == i
    ensures f == g
  {
    hide *;
    HoldsPlace(ts, t, f, r, u, i);
    SameSplit(f.index, g.index);
    SameIndexSameItem(ts, t, f, g);
  }

  lemma InCollection(ts: Types, t: nat, fields: seq<Item>, f: Item, g: Item)
    requires Collection(ts, t, fields) && f in fields && g in fields
    ensures Genuine(ts, t, f) && Genuine(ts, t, g)
    ensures f.index != [] && g.index != [] && Home(ts, t, g).Some?
    ensures Home(ts, t, f) == Home(ts, t, g) ==> Front(f.index) == Front(g.index)
    ensures var v, j := Home(ts, t, g).value, g.index[|g.index| - 1];
            && v in Reach(ts, t, |g.index| - 1) && j < Width(ts, v) && Leaf(ts, ts.structs[v][j])
            && g.name == NameOf(ts, v, j) && g.tagged == Tagged(ts, v, j)
  {
    hide Reach, Below, Walk, Covered, Copies, BeforeComma, Least;
    assert Genuine(ts, t, f) && Genuine(ts, t, g);
    if Home(ts, t, f) == Home(ts, t, g) { OnePath(ts, t, f, g); }
  }

  lemma SameIndexSameItem(ts: Types, t: nat, f: Item, g: Item)
    requires Genuine(ts, t, f) && Genuine(ts, t, g) && f.index == g.index
    ensures f == g
  {
  }

  lemma KeepsGenuine(ts: Types, t: nat, f: Item)
    requires Keeps(ts, t, f)
    ensures Genuine(ts, t, f)
  {
  }

  lemma WinnersOfSorted(fields: seq<Item>, sorted: seq<Item>, f: Item)
    requires multiset(fields) == multiset(sorted)
    ensures f in sorted && Winner(sorted, f) <==> f in fields && Winner(fields, f)
  {
    assert f in sorted <==> f in multiset(sorted);
    forall g ensures g in sorted <==> g in fields {
      assert g in sorted <==> g in multiset(sorted);
    }
  }

  /** The winners of a collection, in index order, are the record. */
  lemma WinnersAreRecord(ts: Types, t: nat, fields: seq<Item>, winners: seq<Item>, record: seq<Item>)
    requires Collection(ts, t, fields)
    requires forall f :: f in winners <==> f in fields && Winner(fields, f)
    requires forall a, b :: 0 <= a < b < |winners| ==> winners[a].name != winners[b].name
    requires multiset(record) == multiset(winners) && Sorted(Earlier, record)
    ensures IsRecord(ts, t, record)
  {
    hide Collection, Keeps, Dominates, Genuine, Winner, IndexAtMost, Holds;
    SameMembers(record, winners);
    PermutedNames(winners, record);
    forall f | f in record
      ensures Keeps(ts, t, f)
    {
      WinnerDominates(ts, t, fields, f);
    }
    forall a, b | 0 <= a < b < |record| ensures IndexAtMost(record[a].index, record[b].index) && record[a].index != record[b].index {
      assert Earlier(record[a], record[b]);
      assert record[a] in record && record[b] in record;
      KeepsGenuine(ts, t, record[a]);
      KeepsGenuine(ts, t, record[b]);
      if record[a].index == record[b].index { SameIndexSameItem(ts, t, record[a], record[b]); }
    }
    forall r: nat, u, i: nat | Dominates(ts, t, r, u, i) ensures exists k :: 0 <= k < |record| && Holds(ts, t, record[k], r, u, i) {
      var f := DominatesWins(ts, t, fields, r, u, i);
      assert f in record;
    }
  }

  lemma SameMembers(a: seq<Item>, b: seq<Item>)
    requires multiset(a) == multiset(b)
    ensures forall f :: f in a <==> f in b
  {
    forall f ensures f in a <==> f in b {
      assert f in a <==> f in multiset(a);
    }
  }

  /** Distinct names survive rearrangement. */
  lemma PermutedNames(a: seq<Item>, b: seq<Item>)
    requires multiset(a) == multiset(b)
    requires forall i, j :: 0 <= i < j < |a| ==> a[i].name != a[j].name
    ensures forall i, j :: 0 <= i < j < |b| ==> b[i].name != b[j].name
  {
    forall i, j | 0 <= i < j < |b| ensures b[i].name != b[j].name {
      if b[i].name == b[j].name {
        SameMembers(a, b);
        assert b[i] in b && b[j] in b;
        var k :| 0 <= k < |a| && a[k] == b[i];
        var l :| 0 <= l < |a| && a[l] == b[j];
        CountOf(a, a[k]);
        CountOf(b, b[i]);
      }
    }
  }

  // ---------- One record ----------

  lemma RecordHas(ts: Types, t: nat, record: seq<Item>, r: nat, u: nat, i: nat) returns (g: Item)
    requires IsRecord(ts, t, record) && Dominates(ts, t, r, u, i)
    ensures g in record && Genuine(ts, t, g) && Holds(ts, t, g, r, u, i)
  {
    hide Dominates, Holds, Genuine, IndexAtMost;
    var k :| 0 <= k < |record| && Holds(ts, t, record[k], r, u, i);
    g := record[k];
    assert Keeps(ts, t, g);
  }

  lemma HoldsPlace(ts: Types, t: nat, g: Item, r: nat, u: nat, i: nat)
    requires Holds(ts, t, g, r, u, i)
    ensures g.index != [] && Home(ts, t, g) == Some(u) && g.index[|g.index| - 1] == i
  {
    hide Walk;
    assert Front(g.index) == g.index[..r];
  }

  /** An item that a record keeps is in every record of the struct. */
  lemma KeptEverywhere(ts: Types, t: nat, record: seq<Item>, f: Item)
    requires IsRecord(ts, t, record) && Keeps(ts, t, f)
    ensures f in record
  {
    assert f.index != [] && Home(ts, t, f).Some?;
    var r, u, i := |f.index| - 1, Home(ts, t, f).value, f.index[|f.index| - 1];
    hide *;
    KeepsParts(ts, t, f);
    var g := RecordHas(ts, t, record, r, u, i);
    HoldsPlace(ts, t, g, r, u, i);
    OnePath(ts, t, f, g);
    SamePlace(ts, t, g, f, r, u, i);
  }

  lemma KeepsParts(ts: Types, t: nat, f: Item)
    requires Keeps(ts, t, f)
    ensures Genuine(ts, t, f) && f.index != [] && Home(ts, t, f).Some?
    ensures Dominates(ts, t, |f.index| - 1, Home(ts, t, f).value, f.index[|f.index| - 1])
  {
  }

  lemma RecordIsSorted(ts: Types, t: nat, record: seq<Item>)
    requires IsRecord(ts, t, record)
    ensures Sorted(Earlier, record) && (forall f :: f in record <==> Keeps(ts, t, f)) && forall f :: multiset(record)[f] <= 1
  {
    hide Keeps, Dominates, IndexAtMost, Holds;
    forall f ensures f in record <==> Keeps(ts, t, f) {
      if Keeps(ts, t, f) { KeptEverywhere(ts, t, record, f); }
    }
    forall f ensures multiset(record)[f] <= 1 { CountOf(record, f); }
  }

  /** A struct has at most one record. */
  lemma RecordIsUnique(ts: Types, t: nat, a: seq<Item>, b: seq<Item>)
    requires IsRecord(ts, t, a) && IsRecord(ts, t, b)
    ensures a == b
  {
    RecordIsSorted(ts, t, a);
    RecordIsSorted(ts, t, b);
    hide Sorted, Earlier, IsRecord;
    forall f ensures multiset(a)[f] == multiset(b)[f] {
      CountOf(a, f);
      CountOf(b, f);
    }
    forall f, g | f in a && g in a && Earlier(f, g) && Earlier(g, f) ensures f == g {
      KeepsGenuine(ts, t, f);
      KeepsGenuine(ts, t, g);
      SameIndices(ts, t, f, g);
    }
    SortedUnique(Earlier, a, b);
  }

  lemma SameIndices(ts: Types, t: nat, f: Item, g: Item)
    requires Genuine(ts, t, f) && Genuine(ts, t, g) && Earlier(f, g) && Earlier(g, f)
    ensures f == g
  {
    IndexTotal(f.index, g.index);
    hide Genuine, IndexAtMost;
    SameIndexSameItem(ts, t, f, g);
  }

  /** jsonFields. */
  method JsonFields(ts: Types, t: nat) returns (record: seq<Item>)
    requires Closed(ts) && t in ts.structs
    ensures IsRecord(ts, t, record)
  {
    hide *;
    var fields := Collect(ts, t);
    AheadOrders();
    SortSorted(Ahead, fields);
    var sorted := Sort(Ahead, fields);
    var winners := Dominant(sorted);
    EarlierOrders();
    SortSorted(Earlier, winners);
    record := Sort(Earlier, winners);
    forall f ensures f in winners <==> f in fields && Winner(fields, f) {
      WinnersOfSorted(fields, sorted, f);
      Winning(sorted, f);
    }
    WinnersAreRecord(ts, t, fields, winners, record);
  }

  lemma Winning(fields: seq<Item>, f: Item)
    ensures Winner(fields, f) ==> f in fields
  {
  }

  // ---------- Sharing that is not seen ----------

  function Embedding(s: nat): Field {
    Field("E", true, true, "", Struct(s))
  }

  /** Struct 0 embeds 1 and 2, both embed 3, which embeds 4, whose one member is X. */
  function Diamond(): Types {
    Types(map[0 := [Embedding(1), Embedding(2)], 1 := [Embedding(3)], 2 := [Embedding(3)],
              3 := [Embedding(4)], 4 := [Field("X", true, false, "", Scalar)]], (c: char) => false, (s: nat) => false)
  }

  lemma DiamondEmbeds()
    ensures Embeds(Diamond(), 0) == {1, 2} && Embeds(Diamond(), 1) == {3} && Embeds(Diamond(), 2) == {3} && Embeds(Diamond(), 3) == {4}
  {
    var ts := Diamond();
    forall s, i | s in ts.structs && 0 <= i < |ts.structs[s]| ensures Embedded(ts, ts.structs[s][i]) <==> s != 4 {
      assert BeforeComma("") == "";
    }
    assert Target(ts.structs[0][0]).id == 1 && Target(ts.structs[0][1]).id == 2;
    assert Target(ts.structs[1][0]).id == 3 && Target(ts.structs[2][0]).id == 3 && Target(ts.structs[3][0]).id == 4;
  }

  lemma DiamondLevels()
    ensures Fresh(Diamond(), 0, 1) == {1, 2} && Fresh(Diamond(), 0, 2) == {3} && Fresh(Diamond(), 0, 3) == {4}
  {
    var ts := Diamond();
    DiamondEmbeds();
    hide Embeds, Diamond;
    assert Reach(ts, 0, 0) == {0};
    assert Reach(ts, 0, 1) == {1, 2};
    assert Reach(ts, 0, 2) == {3};
    assert Reach(ts, 0, 3) == {4};
    assert Below(ts, 0, 1) == {} + Reach(ts, 0, 0);
    assert Below(ts, 0, 2) == Reach(ts, 0, 0) + Reach(ts, 0, 1);
    assert Below(ts, 0, 3) == Below(ts, 0, 2) + Reach(ts, 0, 2);
  }

  lemma DiamondEdges()
    ensures EdgesInto(Diamond(), EdgesOf(Diamond(), {1, 2}), 3) == {(1, 0), (2, 0)}
    ensures EdgesInto(Diamond(), EdgesOf(Diamond(), {3}), 4) == {(3, 0)}
  {
    var ts := Diamond();
    assert BeforeComma("") == "";
    assert EdgesOf(ts, {1, 2}) == {(1, 0), (2, 0)} && EdgesOf(ts, {3}) == {(3, 0)};
    assert forall s | s in {1, 2, 3} :: Embedded(ts, ts.structs[s][0]);
  }

  lemma DiamondPaths(first: nat)
    requires first < 2
    ensures Walk(Diamond(), 0, [first, 0, 0]) == Some(4)
  {
    var ts := Diamond();
    assert BeforeComma("") == "";
    assert Embedded(ts, ts.structs[0][first]) && Embedded(ts, ts.structs[1 + first][0]) && Embedded(ts, ts.structs[3][0]);
    assert [first, 0, 0][..2] == [first, 0] && [first, 0][..1] == [first] && [first][..0] == [];
    assert Walk(ts, 0, []) == Some(0);
    assert Walk(ts, 0, [first]) == Some(1 + first);
    assert Walk(ts, 0, [first, 0]) == Some(3);
  }

  lemma OnlyOneMember(v: nat, j: nat)
    requires j < Width(Diamond(), v) && Leaf(Diamond(), Diamond().structs[v][j])
    ensures (v, j) == (4, 0)
  {
    assert BeforeComma("") == "";
  }

  lemma DiamondShared()
    ensures Repeated(Diamond(), 0, 2, 3) && !Repeated(Diamond(), 0, 3, 4) && 4 in Fresh(Diamond(), 0, 3)
    ensures Width(Diamond(), 4) == 1 && Leaf(Diamond(), Diamond().structs[4][0])
  {
    hide Fresh, EdgesInto, EdgesOf;
    DiamondLevels();
    DiamondEdges();
  }

  lemma ZerosFirst(q: seq<nat>)
    requires |q| == 3
    ensures IndexAtMost([0, 0, 0], q)
  {
    assert [0, 0, 0][1..] == [0, 0] && [0, 0][1..] == [0] && [0][1..] == [];
    assert IndexAtMost([0], q[1..][1..]) && IndexAtMost([0, 0], q[1..]);
  }

  /** Two equally short paths make a member ambiguous only if its own struct is the one
      embedded twice. Below a repeated struct the member is kept, by the first of its paths;
      the condition on Repeated in Dominates is exactly what decides. */
  lemma SharedBelowIsKept()
    ensures Walk(Diamond(), 0, [0, 0, 0]) == Some(4) && Walk(Diamond(), 0, [1, 0, 0]) == Some(4) && Least(Diamond(), 0, [0, 0, 0])
    ensures Repeated(Diamond(), 0, 2, 3) && Dominates(Diamond(), 0, 3, 4, 0)
  {
    hide Walk, Repeated, Reach, Leaf, Diamond, Fresh;
    var ts := Diamond();
    DiamondPaths(0);
    DiamondPaths(1);
    DiamondShared();
    forall q: seq<nat> | |q| == 3 ensures IndexAtMost([0, 0, 0], q) { ZerosFirst(q); }
    forall m: nat, v, j: nat | v in Reach(ts, 0, m) && j < Width(ts, v) ensures Yields(ts, 3, 4, 0, m, v, j) {
      if Leaf(ts, ts.structs[v][j]) { OnlyOneMember(v, j); }
    }
  }

  // ---------- Lookup ----------

  function FirstWhere(record: seq<Item>, p: Item -> bool, i: nat): (r: Option<nat>)
    requires i <= |record|
    ensures r.Some? ==> i <= r.value < |record| && p(record[r.value]) && forall k :: i <= k < r.value ==> !p(record[k])
    ensures r.None? ==> forall k :: i <= k < |record| ==> !p(record[k])
    decreases |record| - i
  {
    if i == |record| then None else if p(record[i]) then Some(i) else FirstWhere(record, p, i + 1)
  }

  /** The field a key selects: an exact match, else the first folded one. */
  function Selected(record: seq<Item>, name: string, fold: (string, string) -> bool): (r: Option<nat>)
    ensures r.Some? ==> r.value < |record|
  {
    var exact := FirstWhere(record, (f: Item) => f.name == name, 0);
    if exact.Some? then exact else FirstWhere(record, (f: Item) => fold(f.name, name), 0)
  }

  /** Field i is the one a key names: the first of exactly that name or, if none has it, the
      first whose name folds to the key; no field where none matches either way. */
  predicate Names(record: seq<Item>, fold: (string, string) -> bool, key: string, i: Option<nat>) {
    if exists k :: 0 <= k < |record| && record[k].name == key
    then i.Some? && i.value < |record| && record[i.value].name == key && forall k :: 0 <= k < i.value ==> record[k].name != key
    else if exists k :: 0 <= k < |record| && fold(record[k].name, key)
    then i.Some? && i.value < |record| && fold(record[i.value].name, key) && forall k :: 0 <= k < i.value ==> !fold(record[k].name, key)
    else i.None?
  }

  lemma SelectedNames(record: seq<Item>, name: string, fold: (string, string) -> bool, i: Option<nat>)
    ensures Selected(record, name, fold) == i <==> Names(record, fold, name, i)
  {
    var exact := FirstWhere(record, (f: Item) => f.name == name, 0);
    var folded := FirstWhere(record, (f: Item) => fold(f.name, name), 0);
    assert exact.Some? <==> exists k :: 0 <= k < |record| && record[k].name == name;
    assert folded.Some? <==> exists k :: 0 <= k < |record| && fold(record[k].name, name);
  }

  /** jsonFieldIndex. */
  method JsonFieldIndex(record: seq<Item>, name: string, fold: (string, string) -> bool) returns (found: Option<nat>)
    ensures found == Selected(record, name, fold) && Names(record, fold, name, found)
  {
    SelectedNames(record, name, fold, Selected(record, name, fold));
    var exact := (f: Item) => f.name == name;
    for i := 0 to |record|
      invariant FirstWhere(record, exact, 0) == FirstWhere(record, exact, i)
    {
      if record[i].name == name { return Some(i); }
    }
    var folded := (f: Item) => fold(f.name, name);
    for i := 0 to |record|
      invariant FirstWhere(record, folded, 0) == FirstWhere(record, folded, i)
    {
      if fold(record[i].name, name) { return Some(i); }
    }
    return None;
  }

  /** Each member of a record is selected by its own name, whatever folds. */
  lemma OwnNameSelects(ts: Types, t: nat, record: seq<Item>, fold: (string, string) -> bool, k: nat)
    requires IsRecord(ts, t, record) && k < |record|
    ensures Selected(record, record[k].name, fold) == Some(k)
  {
    var exact := FirstWhere(record, (f: Item) => f.name == record[k].name, 0);
    assert exact.Some? && record[exact.value].name == record[k].name;
  }
}
