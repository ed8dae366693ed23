/** The breadth-first collection of a record's fields: the first half of jsonFields in
    wire/fields.go, as it runs, against the embedding graph. */
module WireFields {
  import opened Common
  import opened WireTypes

  /** An item of the work list: a struct to expand and the path that found it. */
  datatype Work = Work(id: nat, index: seq<nat>)

  function Ids(work: seq<Work>): set<nat> {
    set k | 0 <= k < |work| :: work[k].id
  }

  function Front(path: seq<nat>): seq<nat>
    requires path != []
  {
    path[..|path| - 1]
  }

  /** The struct a collected field was found in. */
  function Home(ts: Types, t: nat, f: Item): Option<nat> {
    if f.index == [] then None else Walk(ts, t, Front(f.index))
  }

  // ---------- Embeddings as edges ----------

  /** (s, i) is the embedding at field i of struct s. */
  predicate EdgeInto(ts: Types, e: (nat, nat), v: nat) {
    && e.0 in ts.structs && e.1 < |ts.structs[e.0]|
    && Embedded(ts, ts.structs[e.0][e.1]) && Target(ts.structs[e.0][e.1]).id == v
  }

  function EdgesInto(ts: Types, edges: set<(nat, nat)>, v: nat): set<(nat, nat)> {
    set e | e in edges && EdgeInto(ts, e, v)
  }

  function Width(ts: Types, s: nat): nat {
    if s in ts.structs then |ts.structs[s]| else 0
  }

  function EdgesOf(ts: Types, from: set<nat>): set<(nat, nat)> {
    set s, i: nat | s in from && 0 <= i < Width(ts, s) :: (s, i)
  }

  /** The struct is embedded more than once by the level before the one it appears on. */
  predicate Repeated(ts: Types, t: nat, r: nat, u: nat) {
    r > 0 && |EdgesInto(ts, EdgesOf(ts, Fresh(ts, t, r - 1)), u)| > 1
  }

  /** Field i of struct s, which lies r - 1 embeddings deep, embeds u. */
  predicate EmbedsAt(ts: Types, t: nat, r: nat, u: nat, s: nat, i: nat) {
    && r > 0 && s in Fresh(ts, t, r - 1) && s in ts.structs && i < |ts.structs[s]|
    && Embedded(ts, ts.structs[s][i]) && Target(ts.structs[s][i]).id == u
  }

  lemma EdgesAre(ts: Types, t: nat, r: nat, u: nat, s: nat, i: nat)
    requires r > 0
    ensures (s, i) in EdgesInto(ts, EdgesOf(ts, Fresh(ts, t, r - 1)), u) <==> EmbedsAt(ts, t, r, u, s, i)
  {
    hide Fresh, Embedded;
  }

  /** Repeated means two different embeddings, by one struct or by two. */
  lemma RepeatedIs(ts: Types, t: nat, r: nat, u: nat)
    ensures Repeated(ts, t, r, u) <==>
            exists s: nat, i: nat, v: nat, j: nat :: (s, i) != (v, j) && EmbedsAt(ts, t, r, u, s, i) && EmbedsAt(ts, t, r, u, v, j)
  {
    assert r == 0 ==> forall s: nat, i: nat :: !EmbedsAt(ts, t, r, u, s, i);
    hide EmbedsAt, EdgesInto, EdgesOf, Fresh;
    if r > 0 {
      var edges := EdgesInto(ts, EdgesOf(ts, Fresh(ts, t, r - 1)), u);
      TwoMembers(edges);
      forall s: nat, i: nat ensures (s, i) in edges <==> EmbedsAt(ts, t, r, u, s, i) { EdgesAre(ts, t, r, u, s, i); }
      if Repeated(ts, t, r, u) {
        var a, b :| a in edges && b in edges && a != b;
        assert (a.0, a.1) == a && (b.0, b.1) == b;
        assert EmbedsAt(ts, t, r, u, a.0, a.1) && EmbedsAt(ts, t, r, u, b.0, b.1);
      }
    }
  }

  lemma TwoMembers(edges: set<(nat, nat)>)
    ensures |edges| > 1 <==> exists a, b :: a in edges && b in edges && a != b
  {
    if |edges| > 1 {
      var a :| a in edges;
      assert |edges - {a}| == |edges| - 1;
      var b :| b in edges - {a};
    }
    if a, b :| a in edges && b in edges && a != b {
      SubsetSize({a, b}, edges);
    }
  }

  // ---------- What a collection is ----------

  /** The field lies where its path says, in a struct whose first shortest embedding path is
      the one the item records. */
  ghost predicate Genuine(ts: Types, t: nat, f: Item) {
    && f.index != [] && Home(ts, t, f).Some? && Least(ts, t, Front(f.index))
    && var u, i := Home(ts, t, f).value, f.index[|f.index| - 1];
    && u in Fresh(ts, t, |f.index| - 1) && u in ts.structs && i < |ts.structs[u]| && Leaf(ts, ts.structs[u][i])
    && f == ItemOf(ts, ts.structs[u][i], f.index)
  }

  /** The item is field i of the struct u of level r. */
  predicate Holds(ts: Types, t: nat, f: Item, r: nat, u: nat, i: nat) {
    |f.index| == r + 1 && Walk(ts, t, f.index[..r]) == Some(u) && f.index[r] == i
  }

  /** Every member of the struct was collected one below its level. */
  predicate Covered(ts: Types, t: nat, fields: seq<Item>, u: nat, r: nat) {
    forall i :: 0 <= i < Width(ts, u) && Leaf(ts, ts.structs[u][i]) ==> exists k :: 0 <= k < |fields| && Holds(ts, t, fields[k], r, u, i)
  }

  /** An item is listed twice exactly when its struct was embedded repeatedly. */
  predicate Copies(ts: Types, t: nat, fields: seq<Item>) {
    forall f :: f in fields ==> Home(ts, t, f).Some? && (multiset(fields)[f] > 1 <==> Repeated(ts, t, |f.index| - 1, Home(ts, t, f).value))
  }

  ghost predicate Collection(ts: Types, t: nat, fields: seq<Item>) {
    && (forall f :: f in fields ==> Genuine(ts, t, f))
    && (forall n: nat, u :: u in Fresh(ts, t, n) ==> Covered(ts, t, fields, u, n))
    && Copies(ts, t, fields)
  }

  lemma OneFirstPath(ts: Types, t: nat, a: seq<nat>, b: seq<nat>, u: nat)
    requires Least(ts, t, a) && Least(ts, t, b) && Walk(ts, t, a) == Walk(ts, t, b) == Some(u)
    requires u in Fresh(ts, t, |a|) && u in Fresh(ts, t, |b|)
    ensures a == b
  {
    hide Walk, Reach, Least;
    FreshIsShortest(ts, t, |a|, |b|, u);
    FreshIsShortest(ts, t, |b|, |a|, u);
    OneLeast(ts, t, a, b);
  }

  /** Items of one struct share the path that found it. */
  lemma OnePath(ts: Types, t: nat, f: Item, g: Item)
    requires Genuine(ts, t, f) && Genuine(ts, t, g) && Home(ts, t, f) == Home(ts, t, g)
    ensures Front(f.index) == Front(g.index)
  {
    hide Fresh, Reach, Below, Walk, Leaf, ItemOf, Least;
    OneFirstPath(ts, t, Front(f.index), Front(g.index), Home(ts, t, f).value);
  }

  // ---------- Expanding one struct ----------

  function Count(count: map<nat, nat>, v: nat): nat {
    if v in count then count[v] else 0
  }

  /** The work list and its counters describe these embeddings. */
  ghost predicate Lists(ts: Types, t: nat, r: nat, next: seq<Work>, count: map<nat, nat>, edges: set<(nat, nat)>) {
    && (forall k :: 0 <= k < |next| ==> |next[k].index| == r && Walk(ts, t, next[k].index) == Some(next[k].id))
    && (forall v :: v in Ids(next) <==> Count(count, v) > 0)
    && (forall v :: Count(count, v) == |EdgesInto(ts, edges, v)|)
  }

  /** The edge a path ends with. */
  function LastEdge(ts: Types, t: nat, q: seq<nat>): (nat, nat)
    requires q != [] && Walk(ts, t, q).Some?
  {
    (Walk(ts, t, Front(q)).value, q[|q| - 1])
  }

  /** The work list is in the order of its paths, each struct once, and no path that ends
      with one of the edges precedes the recorded one. */
  ghost predicate Ranked(ts: Types, t: nat, r: nat, next: seq<Work>, edges: set<(nat, nat)>) {
    && (forall a, b :: 0 <= a < b < |next| ==> next[a].id != next[b].id && IndexAtMost(next[a].index, next[b].index))
    && forall q: seq<nat> :: |q| == r > 0 && Walk(ts, t, q).Some? && LastEdge(ts, t, q) in edges ==> Recorded(ts, t, next, q)
  }

  ghost predicate Recorded(ts: Types, t: nat, next: seq<Work>, q: seq<nat>) {
    exists k :: 0 <= k < |next| && Walk(ts, t, q) == Some(next[k].id) && IndexAtMost(next[k].index, q)
  }

  /** Everything listed was found before field i of the struct at this path. */
  predicate Upto(next: seq<Work>, path: seq<nat>, i: nat) {
    forall k :: 0 <= k < |next| && next[k].index != [] ==>
      var front := Front(next[k].index);
      |front| == |path| && IndexAtMost(front, path) && (front == path ==> next[k].index[|next[k].index| - 1] < i)
  }

  lemma EdgeAdded(ts: Types, edges: set<(nat, nat)>, e: (nat, nat), v: nat)
    requires e !in edges
    ensures |EdgesInto(ts, edges + {e}, v)| == |EdgesInto(ts, edges, v)| + if EdgeInto(ts, e, v) then 1 else 0
  {
    if EdgeInto(ts, e, v) {
      assert EdgesInto(ts, edges + {e}, v) == EdgesInto(ts, edges, v) + {e};
    } else {
      assert EdgesInto(ts, edges + {e}, v) == EdgesInto(ts, edges, v);
    }
  }

  /** nextCount[typ]++, and the struct joins the work list at its first embedding. */
  method Enlist(ts: Types, ghost t: nat, ghost r: nat, ghost edges: set<(nat, nat)>, ghost e: (nat, nat), v: nat, path: seq<nat>,
                next: seq<Work>, count: map<nat, nat>) returns (next': seq<Work>, count': map<nat, nat>)
    requires Lists(ts, t, r, next, count, edges) && e !in edges && EdgeInto(ts, e, v)
    requires |path| == r && Walk(ts, t, path) == Some(v)
    ensures Lists(ts, t, r, next', count', edges + {e}) && Ids(next') == Ids(next) + {v}
    ensures next' == if v in Ids(next) then next else next + [Work(v, path)]
  {
    count' := count[v := Count(count, v) + 1];
    next' := if count'[v] == 1 then next + [Work(v, path)] else next;
    forall u ensures Count(count', u) == |EdgesInto(ts, edges + {e}, u)| {
      EdgeAdded(ts, edges, e, u);
    }
    if count'[v] == 1 {
      assert next'[|next|].id == v;
      assert forall k :: 0 <= k < |next| ==> next'[k] == next[k];
      assert Ids(next') == Ids(next) + {v};
    } else {
      assert v in Ids(next);
    }
  }

  lemma SkipEdge(ts: Types, t: nat, r: nat, next: seq<Work>, count: map<nat, nat>, edges: set<(nat, nat)>, e: (nat, nat))
    requires Lists(ts, t, r, next, count, edges) && e !in edges && forall v :: !EdgeInto(ts, e, v)
    ensures Lists(ts, t, r, next, count, edges + {e})
  {
    forall v ensures |EdgesInto(ts, edges + {e}, v)| == |EdgesInto(ts, edges, v)| {
      EdgeAdded(ts, edges, e, v);
    }
  }

  lemma StepWalks(ts: Types, t: nat, parent: Work, i: nat)
    requires parent.id in ts.structs && Walk(ts, t, parent.index) == Some(parent.id)
    requires i < Width(ts, parent.id) && Embedded(ts, ts.structs[parent.id][i])
    ensures Walk(ts, t, parent.index + [i]) == Some(Target(ts.structs[parent.id][i]).id)
  {
    var path := parent.index + [i];
    assert path[..|path| - 1] == parent.index;
  }

  lemma WalkEdge(ts: Types, t: nat, q: seq<nat>)
    requires q != [] && Walk(ts, t, q).Some?
    ensures EdgeInto(ts, LastEdge(ts, t, q), Walk(ts, t, q).value)
  {
  }

  lemma SkipRanked(ts: Types, t: nat, r: nat, next: seq<Work>, edges: set<(nat, nat)>, path: seq<nat>, s: nat, i: nat)
    requires Ranked(ts, t, r, next, edges) && Upto(next, path, i) && forall v :: !EdgeInto(ts, (s, i), v)
    ensures Ranked(ts, t, r, next, edges + {(s, i)}) && Upto(next, path, i + 1)
  {
    hide Walk, EdgeInto, Recorded, IndexAtMost;
    forall q: seq<nat> | |q| == r > 0 && Walk(ts, t, q).Some? && LastEdge(ts, t, q) in edges + {(s, i)} ensures Recorded(ts, t, next, q) {
      WalkEdge(ts, t, q);
    }
  }

  /** A listed path precedes the one that field i adds. */
  lemma ListedEarlier(next: seq<Work>, path: seq<nat>, i: nat, k: nat)
    requires Upto(next, path, i) && k < |next| && next[k].index != []
    ensures IndexAtMost(next[k].index, path + [i])
  {
    var index := next[k].index;
    assert index == Front(index) + [index[|index| - 1]];
    IndexAppend(Front(index), path, index[|index| - 1], i);
  }

  /** Through the same field, the parent's first path comes first. */
  lemma FirstThrough(ts: Types, t: nat, parent: Work, i: nat, q: seq<nat>)
    requires Least(ts, t, parent.index) && Walk(ts, t, parent.index) == Some(parent.id) && |q| == |parent.index| + 1
    requires Walk(ts, t, q).Some? && LastEdge(ts, t, q) == (parent.id, i)
    ensures IndexAtMost(parent.index + [i], q)
  {
    hide Walk;
    assert q == Front(q) + [i];
    WalkFront(ts, t, q);
    IndexAppend(parent.index, Front(q), i, i);
  }

  lemma WalkFront(ts: Types, t: nat, q: seq<nat>)
    requires q != [] && Walk(ts, t, q).Some?
    ensures Walk(ts, t, Front(q)).Some?
  {
  }

  lemma RecordedMore(ts: Types, t: nat, next: seq<Work>, more: seq<Work>, q: seq<nat>)
    requires Recorded(ts, t, next, q) && next <= more
    ensures Recorded(ts, t, more, q)
  {
    hide Walk, IndexAtMost;
    var k :| 0 <= k < |next| && Walk(ts, t, q) == Some(next[k].id) && IndexAtMost(next[k].index, q);
    assert more[k] == next[k];
  }

  /** What the work list becomes when field i of the parent embeds struct v. */
  function WithWork(next: seq<Work>, v: nat, path: seq<nat>): seq<Work> {
    if v in Ids(next) then next else next + [Work(v, path)]
  }

  lemma RecordedNow(ts: Types, t: nat, r: nat, next: seq<Work>, parent: Work, i: nat, v: nat, q: seq<nat>)
    requires Upto(next, parent.index, i) && |parent.index| + 1 == r && (forall k :: 0 <= k < |next| ==> |next[k].index| == r)
    requires Least(ts, t, parent.index) && Walk(ts, t, parent.index) == Some(parent.id)
    requires |q| == r && Walk(ts, t, q) == Some(v) && LastEdge(ts, t, q) == (parent.id, i)
    ensures Recorded(ts, t, WithWork(next, v, parent.index + [i]), q)
  {
    hide Walk, Least, IndexAtMost;
    FirstThrough(ts, t, parent, i, q);
    var path := parent.index + [i];
    if v in Ids(next) {
      var k :| 0 <= k < |next| && next[k].id == v;
      ListedEarlier(next, parent.index, i, k);
      IndexTransitive(next[k].index, path, q);
    } else {
      assert WithWork(next, v, path)[|next|] == Work(v, path);
    }
  }

  lemma OrderEnlisted(next: seq<Work>, path: seq<nat>, i: nat, v: nat)
    requires Upto(next, path, i) && (forall k :: 0 <= k < |next| ==> next[k].index != [])
    requires forall a, b :: 0 <= a < b < |next| ==> next[a].id != next[b].id && IndexAtMost(next[a].index, next[b].index)
    ensures var after := WithWork(next, v, path + [i]);
            forall a, b :: 0 <= a < b < |after| ==> after[a].id != after[b].id && IndexAtMost(after[a].index, after[b].index)
  {
    hide IndexAtMost, Upto;
    var after := WithWork(next, v, path + [i]);
    forall a, b | 0 <= a < b < |after| ensures after[a].id != after[b].id && IndexAtMost(after[a].index, after[b].index) {
      if b == |next| { ListedEarlier(next, path, i, a); }
    }
  }

  lemma UptoEnlisted(next: seq<Work>, path: seq<nat>, i: nat, v: nat)
    requires Upto(next, path, i)
    ensures Upto(WithWork(next, v, path + [i]), path, i + 1)
  {
    assert Front(path + [i]) == path;
    IndexTotal(path, path);
    hide IndexAtMost;
  }

  lemma EnlistRanked(ts: Types, t: nat, r: nat, next: seq<Work>, edges: set<(nat, nat)>, parent: Work, i: nat, v: nat)
    requires Ranked(ts, t, r, next, edges) && Upto(next, parent.index, i) && |parent.index| + 1 == r
    requires (forall k :: 0 <= k < |next| ==> |next[k].index| == r) && EdgeInto(ts, (parent.id, i), v)
    requires Least(ts, t, parent.index) && Walk(ts, t, parent.index) == Some(parent.id)
    ensures Ranked(ts, t, r, WithWork(next, v, parent.index + [i]), edges + {(parent.id, i)})
    ensures Upto(WithWork(next, v, parent.index + [i]), parent.index, i + 1)
  {
    hide Walk, Least, IndexAtMost, Recorded, Upto, LastEdge;
    OrderEnlisted(next, parent.index, i, v);
    UptoEnlisted(next, parent.index, i, v);
    var after := WithWork(next, v, parent.index + [i]);
    assert next <= after;
    hide WithWork;
    forall q: seq<nat> | |q| == r > 0 && Walk(ts, t, q).Some? && LastEdge(ts, t, q) in edges + {(parent.id, i)} ensures Recorded(ts, t, after, q) {
      if LastEdge(ts, t, q) in edges {
        RecordedMore(ts, t, next, after, q);
      } else {
        WalkEdge(ts, t, q);
        RecordedNow(ts, t, r, next, parent, i, v, q);
      }
    }
  }

  /** The edges of one struct's first n fields. */
  function FirstEdges(s: nat, n: nat): set<(nat, nat)> {
    set i: nat | 0 <= i < n :: (s, i)
  }

  /** Members of a struct among its first n fields, as items. */
  function Members(ts: Types, parent: Work, twice: bool, n: nat): seq<Item>
    requires n <= Width(ts, parent.id)
  {
    if n == 0 then []
    else
      var f := ts.structs[parent.id][n - 1];
      var item := ItemOf(ts, f, parent.index + [n - 1]);
      Members(ts, parent, twice, n - 1) + if !Leaf(ts, f) then [] else if twice then [item, item] else [item]
  }

  lemma NoMembers(ts: Types, parent: Work, twice: bool, fields: seq<Item>)
    ensures fields == fields + Members(ts, parent, twice, 0)
  {
  }

  lemma NextMembers(ts: Types, parent: Work, twice: bool, i: nat, fields: seq<Item>)
    requires i < Width(ts, parent.id)
    ensures var f := ts.structs[parent.id][i];
            var item := ItemOf(ts, f, parent.index + [i]);
            fields + Members(ts, parent, twice, i + 1)
            == (fields + Members(ts, parent, twice, i)) + if !Leaf(ts, f) then [] else if twice then [item, item] else [item]
  {
    hide Leaf, ItemOf;
  }

  /** What expanding the first i fields of a struct has listed. */
  ghost predicate Expanded(ts: Types, t: nat, r: nat, parent: Work, i: nat, edges: set<(nat, nat)>, before: set<nat>,
                           next: seq<Work>, count: map<nat, nat>)
    requires i <= Width(ts, parent.id)
  {
    && Lists(ts, t, r, next, count, edges + FirstEdges(parent.id, i))
    && Ranked(ts, t, r, next, edges + FirstEdges(parent.id, i)) && Upto(next, parent.index, i)
    && Ids(next) == before + set k | 0 <= k < i && Embedded(ts, ts.structs[parent.id][k]) :: Target(ts.structs[parent.id][k]).id
  }

  lemma NothingExpanded(ts: Types, t: nat, r: nat, parent: Work, edges: set<(nat, nat)>, next: seq<Work>, count: map<nat, nat>)
    requires Lists(ts, t, r, next, count, edges) && Ranked(ts, t, r, next, edges) && Upto(next, parent.index, 0)
    ensures Expanded(ts, t, r, parent, 0, edges, Ids(next), next, count)
  {
    hide Lists, Ranked, Upto;
    assert edges + FirstEdges(parent.id, 0) == edges;
  }

  lemma AllExpanded(ts: Types, t: nat, r: nat, parent: Work, edges: set<(nat, nat)>, before: set<nat>, next: seq<Work>, count: map<nat, nat>)
    requires parent.id in ts.structs && Expanded(ts, t, r, parent, Width(ts, parent.id), edges, before, next, count)
    ensures Lists(ts, t, r, next, count, edges + FirstEdges(parent.id, Width(ts, parent.id))) && Ids(next) == before + Embeds(ts, parent.id)
    ensures Ranked(ts, t, r, next, edges + FirstEdges(parent.id, Width(ts, parent.id))) && Upto(next, parent.index, Width(ts, parent.id))
  {
    hide Lists, Ranked, Upto, Embedded;
  }

  lemma ListedAt(ts: Types, t: nat, r: nat, next: seq<Work>, count: map<nat, nat>, edges: set<(nat, nat)>)
    requires Lists(ts, t, r, next, count, edges)
    ensures forall k :: 0 <= k < |next| ==> |next[k].index| == r
  {
  }

  /** One field: a member is appended, an embedded struct is counted and listed once. */
  method ExpandField(ts: Types, ghost t: nat, ghost r: nat, parent: Work, i: nat, twice: bool, ghost edges: set<(nat, nat)>, ghost before: set<nat>,
                     fields: seq<Item>, next: seq<Work>, count: map<nat, nat>)
    returns (fields': seq<Item>, next': seq<Work>, count': map<nat, nat>)
    requires parent.id in ts.structs && |parent.index| + 1 == r && Walk(ts, t, parent.index) == Some(parent.id) && i < Width(ts, parent.id)
    requires Least(ts, t, parent.index)
    requires Expanded(ts, t, r, parent, i, edges, before, next, count) && forall k :: (parent.id, k) !in edges
    ensures Expanded(ts, t, r, parent, i + 1, edges, before, next', count')
    ensures var f := ts.structs[parent.id][i];
            var item := ItemOf(ts, f, parent.index + [i]);
            fields' == fields + if !Leaf(ts, f) then [] else if twice then [item, item] else [item]
  {
    hide Lists, Ranked, Upto, Least, BeforeComma, Count, Walk;
    fields', next', count' := fields, next, count;
    var f := ts.structs[parent.id][i];
    var path := parent.index + [i];
    ghost var done := edges + FirstEdges(parent.id, i);
    assert edges + FirstEdges(parent.id, i + 1) == done + {(parent.id, i)};
    assert (parent.id, i) !in done;
    if !Skipped(f) {
      var item := ItemOf(ts, f, path);
      if TagName(ts, f.tag) != "" || !f.anonymous || !Target(f).Struct? {
        SkipEdge(ts, t, r, next', count', done, (parent.id, i));
        SkipRanked(ts, t, r, next', done, parent.index, parent.id, i);
        fields' := fields' + [item];
        if twice { fields' := fields' + [item]; }
      } else {
        StepWalks(ts, t, parent, i);
        ListedAt(ts, t, r, next', count', done);
        EnlistRanked(ts, t, r, next', done, parent, i, Target(f).id);
        next', count' := Enlist(ts, t, r, done, (parent.id, i), Target(f).id, path, next', count');
      }
    } else {
      SkipEdge(ts, t, r, next', count', done, (parent.id, i));
      SkipRanked(ts, t, r, next', done, parent.index, parent.id, i);
    }
  }

  /** The field loop of jsonFields over one struct. */
  method Expand(ts: Types, ghost t: nat, ghost r: nat, parent: Work, twice: bool, ghost edges: set<(nat, nat)>,
                fields: seq<Item>, next: seq<Work>, count: map<nat, nat>)
    returns (fields': seq<Item>, next': seq<Work>, count': map<nat, nat>)
    requires parent.id in ts.structs && |parent.index| == r && Walk(ts, t, parent.index) == Some(parent.id) && Least(ts, t, parent.index)
    requires Lists(ts, t, r + 1, next, count, edges) && forall i :: (parent.id, i) !in edges
    requires Ranked(ts, t, r + 1, next, edges) && Upto(next, parent.index, 0)
    ensures fields' == fields + Members(ts, parent, twice, Width(ts, parent.id))
    ensures Lists(ts, t, r + 1, next', count', edges + FirstEdges(parent.id, Width(ts, parent.id)))
    ensures Ids(next') == Ids(next) + Embeds(ts, parent.id)
    ensures Ranked(ts, t, r + 1, next', edges + FirstEdges(parent.id, Width(ts, parent.id)))
    ensures Upto(next', parent.index, Width(ts, parent.id))
  {
    fields', next', count' := fields, next, count;
    NothingExpanded(ts, t, r + 1, parent, edges, next, count);
    NoMembers(ts, parent, twice, fields);
    assert Width(ts, parent.id) == |ts.structs[parent.id]|;
    hide *;
    for i := 0 to |ts.structs[parent.id]|
      invariant fields' == fields + Members(ts, parent, twice, i)
      invariant Expanded(ts, t, r + 1, parent, i, edges, Ids(next), next', count')
    {
      NextMembers(ts, parent, twice, i, fields);
      fields', next', count' := ExpandField(ts, t, r + 1, parent, i, twice, edges, Ids(next), fields', next', count');
    }
    AllExpanded(ts, t, r + 1, parent, edges, Ids(next), next', count');
  }

  // ---------- Gathering ----------

  /** The fields of exactly the visited structs have been collected. */
  ghost predicate Gathered(ts: Types, t: nat, fields: seq<Item>, visited: set<nat>) {
    && (forall f :: f in fields ==> Genuine(ts, t, f) && Home(ts, t, f).value in visited)
    && (forall n: nat, u :: u in visited && u in Fresh(ts, t, n) ==> Covered(ts, t, fields, u, n))
    && Copies(ts, t, fields)
  }

  lemma ItemGenuine(ts: Types, t: nat, parent: Work, i: nat)
    requires parent.id in ts.structs && Walk(ts, t, parent.index) == Some(parent.id) && parent.id in Fresh(ts, t, |parent.index|)
    requires Least(ts, t, parent.index) && i < Width(ts, parent.id) && Leaf(ts, ts.structs[parent.id][i])
    ensures var f := ItemOf(ts, ts.structs[parent.id][i], parent.index + [i]);
            && Genuine(ts, t, f) && Home(ts, t, f) == Some(parent.id) && |f.index| == |parent.index| + 1
            && Front(f.index) == parent.index && f.index[|f.index| - 1] == i
  {
    hide Walk, Fresh, Leaf, Least;
    var f := ItemOf(ts, ts.structs[parent.id][i], parent.index + [i]);
    assert Front(f.index) == parent.index;
  }

  lemma {:induction false} MembersGenuine(ts: Types, t: nat, parent: Work, twice: bool, n: nat)
    requires parent.id in ts.structs && Walk(ts, t, parent.index) == Some(parent.id) && n <= Width(ts, parent.id)
    requires parent.id in Fresh(ts, t, |parent.index|) && Least(ts, t, parent.index)
    ensures forall f :: f in Members(ts, parent, twice, n) ==>
              Genuine(ts, t, f) && Home(ts, t, f) == Some(parent.id) && |f.index| == |parent.index| + 1 && Front(f.index) == parent.index && f.index[|f.index| - 1] < n
  {
    hide Genuine, Home, Walk, Fresh, Leaf, ItemOf, Least;
    if n > 0 {
      MembersGenuine(ts, t, parent, twice, n - 1);
      if Leaf(ts, ts.structs[parent.id][n - 1]) { ItemGenuine(ts, t, parent, n - 1); }
    }
  }

  lemma {:induction false} MembersCover(ts: Types, parent: Work, twice: bool, n: nat, i: nat)
    requires i < n <= Width(ts, parent.id) && Leaf(ts, ts.structs[parent.id][i])
    ensures ItemOf(ts, ts.structs[parent.id][i], parent.index + [i]) in Members(ts, parent, twice, n)
  {
    if i < n - 1 { MembersCover(ts, parent, twice, n - 1, i); }
  }

  lemma CopiesAppended(early: seq<Item>, item: Item, kept: bool, twice: bool)
    requires item !in early && forall f :: f in early ==> (multiset(early)[f] > 1 <==> twice)
    ensures var all_ := early + if !kept then [] else if twice then [item, item] else [item];
            forall f :: f in all_ ==> (multiset(all_)[f] > 1 <==> twice)
  {
    var added := if !kept then [] else if twice then [item, item] else [item];
    forall f | f in early + added ensures multiset(early + added)[f] > 1 <==> twice {
      CopiesOf(early, added, f);
    }
  }

  lemma {:induction false} MembersCopies(ts: Types, parent: Work, twice: bool, n: nat)
    requires n <= Width(ts, parent.id)
    ensures forall f :: f in Members(ts, parent, twice, n) ==>
              && |f.index| == |parent.index| + 1 && f.index[|parent.index|] < n
              && (multiset(Members(ts, parent, twice, n))[f] > 1 <==> twice)
  {
    if n > 0 {
      MembersCopies(ts, parent, twice, n - 1);
      var f := ts.structs[parent.id][n - 1];
      var item := ItemOf(ts, f, parent.index + [n - 1]);
      assert item.index == parent.index + [n - 1];
      hide Leaf, ItemOf;
      CopiesAppended(Members(ts, parent, twice, n - 1), item, Leaf(ts, f), twice);
    }
  }

  lemma CoveredMore(ts: Types, t: nat, fields: seq<Item>, more: seq<Item>, u: nat, r: nat)
    requires Covered(ts, t, fields, u, r)
    ensures Covered(ts, t, fields + more, u, r)
  {
    forall i | 0 <= i < Width(ts, u) && Leaf(ts, ts.structs[u][i])
      ensures exists k :: 0 <= k < |fields + more| && Holds(ts, t, (fields + more)[k], r, u, i)
    {
      var k :| 0 <= k < |fields| && Holds(ts, t, fields[k], r, u, i);
      assert (fields + more)[k] == fields[k];
    }
  }

  lemma CoveredByMembers(ts: Types, t: nat, fields: seq<Item>, parent: Work, twice: bool)
    requires Walk(ts, t, parent.index) == Some(parent.id)
    ensures Covered(ts, t, fields + Members(ts, parent, twice, Width(ts, parent.id)), parent.id, |parent.index|)
  {
    var n := Width(ts, parent.id);
    var members := Members(ts, parent, twice, n);
    var all_ := fields + members;
    forall i | 0 <= i < n && Leaf(ts, ts.structs[parent.id][i])
      ensures exists k :: 0 <= k < |all_| && Holds(ts, t, all_[k], |parent.index|, parent.id, i)
    {
      MembersCover(ts, parent, twice, n, i);
      var item := ItemOf(ts, ts.structs[parent.id][i], parent.index + [i]);
      var k :| 0 <= k < |members| && members[k] == item;
      assert all_[|fields| + k] == item;
      assert item.index[..|parent.index|] == parent.index;
    }
  }

  lemma CopiesOf(fields: seq<Item>, members: seq<Item>, f: Item)
    ensures multiset(fields + members)[f] == multiset(fields)[f] + multiset(members)[f]
    ensures f !in fields ==> multiset(fields)[f] == 0
    ensures f !in members ==> multiset(members)[f] == 0
  {
    assert multiset(fields + members) == multiset(fields) + multiset(members);
  }

  lemma CopiesAdded(ts: Types, t: nat, fields: seq<Item>, members: seq<Item>, parent: Work, twice: bool)
    requires Copies(ts, t, fields) && twice == Repeated(ts, t, |parent.index|, parent.id)
    requires forall f :: f in fields ==> Home(ts, t, f) != Some(parent.id)
    requires forall f :: f in members ==>
               Home(ts, t, f) == Some(parent.id) && |f.index| == |parent.index| + 1 && (multiset(members)[f] > 1 <==> twice)
    ensures Copies(ts, t, fields + members)
  {
    forall f | f in fields + members
      ensures Home(ts, t, f).Some? && (multiset(fields + members)[f] > 1 <==> Repeated(ts, t, |f.index| - 1, Home(ts, t, f).value))
    {
      CopiesOf(fields, members, f);
    }
  }

  lemma CoverAdded(ts: Types, t: nat, fields: seq<Item>, visited: set<nat>, parent: Work, twice: bool)
    requires Walk(ts, t, parent.index) == Some(parent.id) && parent.id in Fresh(ts, t, |parent.index|)
    requires forall n: nat, u :: u in visited && u in Fresh(ts, t, n) ==> Covered(ts, t, fields, u, n)
    ensures forall n: nat, u :: u in visited + {parent.id} && u in Fresh(ts, t, n) ==>
              Covered(ts, t, fields + Members(ts, parent, twice, Width(ts, parent.id)), u, n)
  {
    var members := Members(ts, parent, twice, Width(ts, parent.id));
    forall n: nat, u | u in visited + {parent.id} && u in Fresh(ts, t, n) ensures Covered(ts, t, fields + members, u, n) {
      if u in visited {
        hide *;
        CoveredMore(ts, t, fields, members, u, n);
      } else {
        FreshIsShortest(ts, t, n, |parent.index|, u);
        FreshIsShortest(ts, t, |parent.index|, n, u);
        CoveredByMembers(ts, t, fields, parent, twice);
      }
    }
  }

  lemma GatherNext(ts: Types, t: nat, fields: seq<Item>, visited: set<nat>, parent: Work, twice: bool)
    requires Gathered(ts, t, fields, visited) && parent.id !in visited && parent.id in ts.structs
    requires Walk(ts, t, parent.index) == Some(parent.id) && parent.id in Fresh(ts, t, |parent.index|)
    requires twice == Repeated(ts, t, |parent.index|, parent.id) && Least(ts, t, parent.index)
    ensures Gathered(ts, t, fields + Members(ts, parent, twice, Width(ts, parent.id)), visited + {parent.id})
  {
    hide Fresh, Genuine, Home, Walk, Least, Repeated, Covered, Members, Width, Copies;
    var members := Members(ts, parent, twice, Width(ts, parent.id));
    MembersGenuine(ts, t, parent, twice, Width(ts, parent.id));
    MembersCopies(ts, parent, twice, Width(ts, parent.id));
    CopiesAdded(ts, t, fields, members, parent, twice);
    CoverAdded(ts, t, fields, visited, parent, twice);
  }

  // ---------- One level ----------

  /** The work list of level r: the structs found at exactly r steps, with counters that
      say which of them were found repeatedly. */
  ghost predicate AtLevel(ts: Types, t: nat, r: nat, current: seq<Work>, count: map<nat, nat>) {
    && (forall k :: 0 <= k < |current| ==> |current[k].index| == r && Walk(ts, t, current[k].index) == Some(current[k].id))
    && (forall a, b :: 0 <= a < b < |current| ==> current[a].id != current[b].id && IndexAtMost(current[a].index, current[b].index))
    && (forall k :: 0 <= k < |current| && current[k].id in Fresh(ts, t, r) ==> Least(ts, t, current[k].index))
    && Ids(current) <= Reach(ts, t, r) <= Below(ts, t, r) + Ids(current)
    && (forall v :: v in Fresh(ts, t, r) ==> (Count(count, v) > 1 <==> Repeated(ts, t, r, v)))
  }

  function EmbedsOfAll(ts: Types, from: set<nat>): set<nat> {
    set u, v | u in from && v in Embeds(ts, u) :: v
  }

  /** Part of a level: `seen` are the structs of its work list already handled. */
  ghost predicate InLevel(ts: Types, t: nat, r: nat, before: set<nat>, seen: set<nat>,
                          fields: seq<Item>, visited: set<nat>, next: seq<Work>, count: map<nat, nat>) {
    && visited == before + seen && Gathered(ts, t, fields, visited)
    && Lists(ts, t, r + 1, next, count, EdgesOf(ts, seen - before))
    && Ranked(ts, t, r + 1, next, EdgesOf(ts, seen - before))
    && Ids(next) == EmbedsOfAll(ts, seen - before)
  }

  method Visit(ts: Types, ghost t: nat, ghost r: nat, ghost before: set<nat>, ghost seen: set<nat>, parent: Work, twice: bool,
               fields: seq<Item>, visited: set<nat>, next: seq<Work>, count: map<nat, nat>)
    returns (fields': seq<Item>, visited': set<nat>, next': seq<Work>, count': map<nat, nat>)
    requires InLevel(ts, t, r, before, seen, fields, visited, next, count)
    requires parent.id !in visited && parent.id in ts.structs && parent.id in Fresh(ts, t, r)
    requires |parent.index| == r && Walk(ts, t, parent.index) == Some(parent.id) && twice == Repeated(ts, t, r, parent.id)
    requires Least(ts, t, parent.index) && Upto(next, parent.index, 0)
    ensures InLevel(ts, t, r, before, seen + {parent.id}, fields', visited', next', count')
    ensures Upto(next', parent.index, Width(ts, parent.id))
  {
    GatherNext(ts, t, fields, visited, parent, twice);
    MoreEdges(ts, seen - before, parent.id);
    assert seen + {parent.id} - before == (seen - before) + {parent.id};
    visited' := visited + {parent.id};
    fields', next', count' := Expand(ts, t, r, parent, twice, EdgesOf(ts, seen - before), fields, next, count);
  }

  lemma NothingSeen(ts: Types, t: nat, r: nat, visited: set<nat>, fields: seq<Item>)
    requires visited == Below(ts, t, r) && Gathered(ts, t, fields, visited)
    ensures InLevel(ts, t, r, visited, {}, fields, visited, [], map[])
  {
  }

  /** An embedding already visited at an earlier level, or earlier in this one. */
  lemma SeenAgain(ts: Types, t: nat, r: nat, before: set<nat>, seen: set<nat>, s: nat,
                  fields: seq<Item>, visited: set<nat>, next: seq<Work>, count: map<nat, nat>)
    requires InLevel(ts, t, r, before, seen, fields, visited, next, count) && s in visited
    ensures InLevel(ts, t, r, before, seen + {s}, fields, visited, next, count)
  {
    assert seen + {s} - before == seen - before;
  }

  /** Everything listed was found before any of the work still to do. */
  predicate Ahead(next: seq<Work>, current: seq<Work>, k: nat) {
    forall j :: k <= j < |current| ==> Upto(next, current[j].index, 0)
  }

  lemma UptoNext(next: seq<Work>, path: seq<nat>, i: nat, later: seq<nat>)
    requires Upto(next, path, i) && IndexAtMost(path, later) && path != later && |later| == |path|
    ensures Upto(next, later, 0)
  {
    hide IndexAtMost;
    forall k | 0 <= k < |next| && next[k].index != [] ensures IndexAtMost(Front(next[k].index), later) && Front(next[k].index) != later {
      IndexTransitive(Front(next[k].index), path, later);
      IndexTotal(path, later);
    }
  }

  lemma AheadNext(ts: Types, t: nat, r: nat, current: seq<Work>, count: map<nat, nat>, next: seq<Work>, k: nat, i: nat)
    requires AtLevel(ts, t, r, current, count) && k < |current| && Upto(next, current[k].index, i)
    ensures Ahead(next, current, k + 1)
  {
    hide Upto, IndexAtMost, Walk, Least, Fresh, Reach, Below, Repeated;
    forall j | k + 1 <= j < |current| ensures Upto(next, current[j].index, 0) {
      assert current[k].id != current[j].id;
      UptoNext(next, current[k].index, i, current[j].index);
    }
  }

  lemma AheadHead(next: seq<Work>, current: seq<Work>, k: nat)
    requires Ahead(next, current, k) && k < |current|
    ensures Upto(next, current[k].index, 0) && Ahead(next, current, k + 1)
  {
    hide Upto;
  }

  lemma NothingAhead(current: seq<Work>)
    ensures Ahead([], current, 0)
  {
  }

  method Level(ts: Types, ghost t: nat, ghost r: nat, current: seq<Work>, count: map<nat, nat>, visited: set<nat>, fields: seq<Item>)
    returns (fields': seq<Item>, visited': set<nat>, next: seq<Work>, nextCount: map<nat, nat>)
    requires Closed(ts) && t in ts.structs && AtLevel(ts, t, r, current, count)
    requires visited == Below(ts, t, r) && Gathered(ts, t, fields, visited)
    ensures InLevel(ts, t, r, visited, Ids(current), fields', visited', next, nextCount)
  {
    fields', visited', next, nextCount := fields, visited, [], map[];
    NothingSeen(ts, t, r, visited, fields);
    NoIds(current);
    NothingAhead(current);
    hide *;
    for k := 0 to |current|
      invariant InLevel(ts, t, r, visited, Ids(current[..k]), fields', visited', next, nextCount)
      invariant Ahead(next, current, k)
    {
      AheadHead(next, current, k);
      var parent := current[k];
      IdsNext(current, k);
      ghost var seen := Ids(current[..k]);
      if parent.id !in visited' {
        ParentFresh(ts, t, r, current, count, k);
        fields', visited', next, nextCount :=
          Visit(ts, t, r, visited, seen, parent, Count(count, parent.id) > 1, fields', visited', next, nextCount);
        AheadNext(ts, t, r, current, count, next, k, Width(ts, parent.id));
      } else {
        SeenAgain(ts, t, r, visited, seen, parent.id, fields', visited', next, nextCount);
      }
    }
    assert current[..|current|] == current;
  }

  // ---------- All levels ----------

  lemma NextReach(ts: Types, t: nat, r: nat, current: set<nat>)
    requires current <= Reach(ts, t, r) <= Below(ts, t, r) + current
    ensures current - Below(ts, t, r) == Fresh(ts, t, r)
    ensures Below(ts, t, r) + current == Below(ts, t, r + 1)
    ensures EmbedsOfAll(ts, Fresh(ts, t, r)) <= Reach(ts, t, r + 1)
    ensures Reach(ts, t, r + 1) <= Below(ts, t, r + 1) + EmbedsOfAll(ts, Fresh(ts, t, r))
  {
    hide Embeds;
    assert current - Below(ts, t, r) == Fresh(ts, t, r);
    forall v | v in Reach(ts, t, r + 1) ensures v in Below(ts, t, r + 1) || v in EmbedsOfAll(ts, Fresh(ts, t, r)) {
      var u, w :| u in Reach(ts, t, r) && w in Embeds(ts, u) && w == v;
      if u in Below(ts, t, r) { EmbedsBelow(ts, t, r, u); }
    }
  }

  /** A path to a struct of the next level ends with an edge of this one. */
  lemma EdgeOfLevel(ts: Types, t: nat, r: nat, q: seq<nat>)
    requires |q| == r + 1 && Walk(ts, t, q).Some? && Walk(ts, t, q).value in Fresh(ts, t, r + 1)
    ensures LastEdge(ts, t, q) in EdgesOf(ts, Fresh(ts, t, r))
  {
    var u := Walk(ts, t, Front(q)).value;
    WalkReaches(ts, t, Front(q));
    WalkEdge(ts, t, q);
    assert Walk(ts, t, q).value in Embeds(ts, u);
    if u in Below(ts, t, r) { EmbedsBelow(ts, t, r, u); }
  }

  /** So the work list of a level holds the first path to each of its structs. */
  lemma FoundFirst(ts: Types, t: nat, r: nat, next: seq<Work>, k: nat)
    requires Ranked(ts, t, r + 1, next, EdgesOf(ts, Fresh(ts, t, r))) && k < |next| && next[k].id in Fresh(ts, t, r + 1)
    requires |next[k].index| == r + 1 && Walk(ts, t, next[k].index) == Some(next[k].id)
    ensures Least(ts, t, next[k].index)
  {
    hide Walk, Fresh, EdgesOf, IndexAtMost;
    forall q: seq<nat> | |q| == r + 1 && Walk(ts, t, q) == Some(next[k].id) ensures IndexAtMost(next[k].index, q) {
      EdgeOfLevel(ts, t, r, q);
      assert Recorded(ts, t, next, q);
    }
  }

  lemma NextLevel(ts: Types, t: nat, r: nat, current: seq<Work>, count: map<nat, nat>, next: seq<Work>, nextCount: map<nat, nat>)
    requires AtLevel(ts, t, r, current, count)
    requires Lists(ts, t, r + 1, next, nextCount, EdgesOf(ts, Ids(current) - Below(ts, t, r)))
    requires Ids(next) == EmbedsOfAll(ts, Ids(current) - Below(ts, t, r))
    requires Ranked(ts, t, r + 1, next, EdgesOf(ts, Ids(current) - Below(ts, t, r)))
    ensures Below(ts, t, r) + Ids(current) == Below(ts, t, r + 1)
    ensures AtLevel(ts, t, r + 1, next, nextCount)
  {
    hide Reach, Below, Fresh, EmbedsOfAll, EdgesOf, EdgesInto, Walk, Ids, Least, IndexAtMost, Recorded;
    NextReach(ts, t, r, Ids(current));
    forall k | 0 <= k < |next| && next[k].id in Fresh(ts, t, r + 1) ensures Least(ts, t, next[k].index) {
      FoundFirst(ts, t, r, next, k);
    }
  }

  lemma StillBelow(ts: Types, t: nat, r: nat, n: nat)
    requires Reach(ts, t, r) <= Below(ts, t, r) && Reach(ts, t, n) <= Below(ts, t, r)
    ensures Reach(ts, t, n + 1) <= Below(ts, t, r)
  {
    forall v | v in Reach(ts, t, n + 1) ensures v in Below(ts, t, r) {
      var u :| u in Reach(ts, t, n) && v in Embeds(ts, u);
      EmbedsBelow(ts, t, r, u);
      assert Below(ts, t, r + 1) == Below(ts, t, r) + Reach(ts, t, r);
    }
  }

  /** Once a level adds nothing, nothing lies deeper. */
  lemma {:induction false} NothingDeeper(ts: Types, t: nat, r: nat, n: nat)
    requires Reach(ts, t, r) <= Below(ts, t, r)
    ensures Reach(ts, t, n) <= Below(ts, t, r)
    decreases n
  {
    if n < r {
      BelowHas(ts, t, n, r);
    } else if n > r {
      NothingDeeper(ts, t, r, n - 1);
      StillBelow(ts, t, r, n - 1);
    }
  }

  lemma FirstLevel(ts: Types, t: nat)
    ensures AtLevel(ts, t, 0, [Work(t, [])], map[t := 1])
    ensures Gathered(ts, t, [], {})
  {
    var first := [Work(t, [])];
    assert first[0].id == t;
    assert Ids(first) == {t};
  }

  lemma GatheredAll(ts: Types, t: nat, r: nat, fields: seq<Item>)
    requires Reach(ts, t, r) <= Below(ts, t, r) && Gathered(ts, t, fields, Below(ts, t, r))
    ensures Collection(ts, t, fields)
  {
    forall n: nat, u | u in Fresh(ts, t, n) ensures Covered(ts, t, fields, u, n) {
      NothingDeeper(ts, t, r, n);
    }
  }

  /** A finished level: its structs are visited, and the next work list is the level below. */
  lemma LevelDone(ts: Types, t: nat, r: nat, current: seq<Work>, count: map<nat, nat>, before: set<nat>,
                  fields: seq<Item>, visited: set<nat>, next: seq<Work>, nextCount: map<nat, nat>)
    requires Closed(ts) && t in ts.structs && AtLevel(ts, t, r, current, count) && before == Below(ts, t, r)
    requires InLevel(ts, t, r, before, Ids(current), fields, visited, next, nextCount)
    ensures AtLevel(ts, t, r + 1, next, nextCount) && visited == Below(ts, t, r + 1) && Gathered(ts, t, fields, visited)
    ensures before <= visited && visited - before <= ts.structs.Keys
    ensures visited == before ==> next == []
  {
    NextLevel(ts, t, r, current, count, next, nextCount);
    ReachKnown(ts, t, r);
    IdsOfSome(next);
    if visited == before {
      assert Ids(current) - before == {};
    }
  }

  lemma NothingLeft(ts: Types, t: nat, r: nat, count: map<nat, nat>)
    requires AtLevel(ts, t, r, [], count)
    ensures Reach(ts, t, r) <= Below(ts, t, r)
  {
    assert Ids([]) == {};
  }

  /** The breadth-first loop. It ends on recursive struct graphs because a round either
      visits a new struct or leaves nothing to expand. */
  method Collect(ts: Types, t: nat) returns (fields: seq<Item>)
    requires Closed(ts) && t in ts.structs
    ensures Collection(ts, t, fields)
  {
    var next := [Work(t, [])];
    var nextCount: map<nat, nat> := map[t := 1];
    var visited: set<nat> := {};
    fields := [];
    ghost var r: nat := 0;
    FirstLevel(ts, t);
    hide Closed, AtLevel, Gathered, InLevel, Reach, Collection;
    while next != []
      invariant AtLevel(ts, t, r, next, nextCount) && visited == Below(ts, t, r) && Gathered(ts, t, fields, visited)
      invariant visited <= ts.structs.Keys
      decreases ts.structs.Keys - visited, |next|
    {
      ghost var current, count, before := next, nextCount, visited;
      fields, visited, next, nextCount := Level(ts, t, r, next, nextCount, visited, fields);
      LevelDone(ts, t, r, current, count, before, fields, visited, next, nextCount);
      r := r + 1;
    }
    NothingLeft(ts, t, r, nextCount);
    GatheredAll(ts, t, r, fields);
  }

  lemma NoIds(work: seq<Work>)
    ensures Ids(work[..0]) == {}
  {
  }

  lemma IdsOfSome(work: seq<Work>)
    ensures work != [] ==> Ids(work) != {}
  {
    if work != [] { assert work[0].id in Ids(work); }
  }

  lemma IdsNext(work: seq<Work>, k: nat)
    requires k < |work|
    ensures Ids(work[..k + 1]) == Ids(work[..k]) + {work[k].id}
  {
    assert work[..k + 1] == work[..k] + [work[k]];
    assert work[..k + 1][k] == work[k];
    forall i | 0 <= i < k ensures work[i].id in Ids(work[..k + 1]) {
      assert work[..k + 1][i] == work[i];
    }
  }

  lemma ParentFresh(ts: Types, t: nat, r: nat, current: seq<Work>, count: map<nat, nat>, k: nat)
    requires Closed(ts) && t in ts.structs && AtLevel(ts, t, r, current, count) && k < |current| && current[k].id !in Below(ts, t, r)
    ensures current[k].id in Fresh(ts, t, r) && current[k].id in ts.structs && Least(ts, t, current[k].index)
  {
    assert current[k].id in Ids(current);
    ReachKnown(ts, t, r);
  }

  lemma MoreEdges(ts: Types, expanded: set<nat>, s: nat)
    ensures EdgesOf(ts, expanded + {s}) == EdgesOf(ts, expanded) + FirstEdges(s, Width(ts, s))
    ensures EmbedsOfAll(ts, expanded + {s}) == EmbedsOfAll(ts, expanded) + Embeds(ts, s)
  {
  }
}
