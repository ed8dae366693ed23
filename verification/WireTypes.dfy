/** Destination types of strict decoding and the embedding graph of their structs
    (wire/fields.go). */
module WireTypes {
  import opened Common

  datatype Type =
    | Struct(id: nat)
    | Pointer(elem: Type)
    | Map(elem: Type)
    | Slice(elem: Type)
    | Array(length: nat, elem: Type)
    | Interface
    | Custom
    | Scalar

  /** A struct field: its Go name, its `json` tag, and its declared type. */
  datatype Field = Field(goName: string, exported: bool, anonymous: bool, tag: string, typ: Type)

  /** Every struct type in sight, by id; `word` is unicode.IsLetter or unicode.IsDigit, and
      `custom` tells the structs that implement an unmarshaler. Other types that do are Custom. */
  datatype Types = Types(structs: map<nat, seq<Field>>, word: char -> bool, custom: nat -> bool)

  /** Struct fields only mention structs in sight. */
  predicate Closed(ts: Types) {
    forall s, i :: s in ts.structs && 0 <= i < |ts.structs[s]| && Target(ts.structs[s][i]).Struct? ==> Target(ts.structs[s][i]).id in ts.structs
  }

  function Target(f: Field): Type {
    if f.typ.Pointer? then f.typ.elem else f.typ
  }

  // ---------- Tags ----------

  function BeforeComma(tag: string): string {
    if tag == [] || tag[0] == ',' then "" else [tag[0]] + BeforeComma(tag[1..])
  }

  predicate TagRune(ts: Types, c: char) {
    ts.word(c) || c in "!#$%&()*+-./:;<=>?@[]^_{|}~ "
  }

  function TagName(ts: Types, tag: string): string {
    var name := BeforeComma(tag);
    if forall i :: 0 <= i < |name| ==> TagRune(ts, name[i]) then name else ""
  }

  /** The name of a tag ends at its first comma. */
  lemma {:induction false} BeforeFirstComma(tag: string, k: nat)
    requires k <= |tag| && (k < |tag| ==> tag[k] == ',') && forall i :: 0 <= i < k ==> tag[i] != ','
    ensures BeforeComma(tag) == tag[..k]
  {
    if k > 0 {
      BeforeFirstComma(tag[1..], k - 1);
      assert [tag[0]] + tag[1..][..k - 1] == tag[..k];
    }
  }

  /** The printable characters a name may not hold; of the others, letters and digits may. */
  predicate Unnameable(c: char) {
    c in {'"', '\'', ',', '\\', '`'}
  }

  lemma TagRunes(ts: Types, c: char)
    requires !Alphanumeric(c)
    ensures TagRune(ts, c) <==> ts.word(c) || (' ' <= c <= '~' && !Unnameable(c))
  {
  }

  /** A tag names its field by what stands before the first comma, if every character of that
      is a letter, a digit or nameable, and otherwise not at all. */
  lemma TagNameIs(ts: Types, tag: string, k: nat)
    requires k <= |tag| && (k < |tag| ==> tag[k] == ',') && forall i :: 0 <= i < k ==> tag[i] != ','
    requires forall c :: Alphanumeric(c) ==> ts.word(c)
    ensures TagName(ts, tag) ==
            if forall i :: 0 <= i < k ==> ts.word(tag[i]) || (' ' <= tag[i] <= '~' && !Unnameable(tag[i])) then tag[..k] else ""
  {
    BeforeFirstComma(tag, k);
    hide TagRune, BeforeComma, Alphanumeric;
    forall i | 0 <= i < k ensures TagRune(ts, tag[i]) <==> ts.word(tag[i]) || (' ' <= tag[i] <= '~' && !Unnameable(tag[i])) {
      TagRuneIs(ts, tag[i]);
    }
    assert forall i :: 0 <= i < k ==> tag[..k][i] == tag[i];
  }

  lemma TagRuneIs(ts: Types, c: char)
    requires forall c :: Alphanumeric(c) ==> ts.word(c)
    ensures TagRune(ts, c) <==> ts.word(c) || (' ' <= c <= '~' && !Unnameable(c))
  {
    if !Alphanumeric(c) { TagRunes(ts, c); }
  }

  predicate Skipped(f: Field) {
    (!f.exported && (!f.anonymous || !Target(f).Struct?)) || f.tag == "-"
  }

  /** A field whose struct's own fields are promoted. */
  predicate Embedded(ts: Types, f: Field) {
    !Skipped(f) && TagName(ts, f.tag) == "" && f.anonymous && Target(f).Struct?
  }

  /** A field that is itself a member of the record. */
  predicate Leaf(ts: Types, f: Field) {
    !Skipped(f) && !Embedded(ts, f)
  }

  /** A struct, or a pointer to one. */
  predicate StructBehind(t: Type) {
    t.Struct? || (t.Pointer? && t.elem.Struct?)
  }

  /** Which fields are embedded, and which are members. */
  lemma FieldRoles(ts: Types, f: Field)
    ensures Embedded(ts, f) <==> f.anonymous && StructBehind(f.typ) && f.tag != "-" && TagName(ts, f.tag) == ""
    ensures Leaf(ts, f) <==>
            && f.tag != "-" && (f.exported || (f.anonymous && StructBehind(f.typ)))
            && (TagName(ts, f.tag) != "" || !f.anonymous || !StructBehind(f.typ))
    ensures Embedded(ts, f) ==> f.typ == Struct(Target(f).id) || f.typ == Pointer(Struct(Target(f).id))
  {
    hide TagName;
  }

  datatype Item = Item(name: string, typ: Type, index: seq<nat>, tagged: bool)

  function ItemOf(ts: Types, f: Field, index: seq<nat>): Item {
    var name := TagName(ts, f.tag);
    Item(if name == "" then f.goName else name, f.typ, index, name != "")
  }

  /** A member is called by its tag's name where it has one, and otherwise by its Go name. */
  lemma ItemIs(ts: Types, f: Field, index: seq<nat>, name: string)
    ensures ItemOf(ts, f, index) == Item(name, f.typ, index, true) <==> name != "" && TagName(ts, f.tag) == name
    ensures ItemOf(ts, f, index) == Item(name, f.typ, index, false) <==> TagName(ts, f.tag) == "" && f.goName == name
  {
    hide TagName;
  }

  // ---------- Positions ----------

  /** slices.Compare(a, b) <= 0. */
  predicate IndexAtMost(a: seq<nat>, b: seq<nat>) {
    a == [] || (b != [] && (a[0] < b[0] || (a[0] == b[0] && IndexAtMost(a[1..], b[1..]))))
  }

  /** At the first difference the smaller position decides; a prefix comes first. */
  lemma {:induction false} IndexIs(a: seq<nat>, b: seq<nat>)
    ensures IndexAtMost(a, b) <==>
            a <= b || exists k :: 0 <= k < |a| && k < |b| && a[..k] == b[..k] && a[k] < b[k]
  {
    if a != [] && b != [] {
      assert a == [a[0]] + a[1..] && b == [b[0]] + b[1..];
      if a[0] == b[0] {
        IndexIs(a[1..], b[1..]);
        assert a <= b <==> a[1..] <= b[1..];
        if k :| 0 <= k < |a[1..]| && k < |b[1..]| && a[1..][..k] == b[1..][..k] && a[1..][k] < b[1..][k] {
          assert a[..k + 1] == [a[0]] + a[1..][..k] && b[..k + 1] == [b[0]] + b[1..][..k];
        }
        if k :| 0 <= k < |a| && k < |b| && a[..k] == b[..k] && a[k] < b[k] {
          assert k > 0 && a[1..][..k - 1] == a[..k][1..] && b[1..][..k - 1] == b[..k][1..];
        }
      } else {
        if k :| 0 <= k < |a| && k < |b| && a[..k] == b[..k] && a[k] < b[k] {
          assert k > 0 ==> a[..k][0] == b[..k][0];
        }
        assert a[..0] == b[..0];
      }
    }
  }

  lemma {:induction false} IndexTotal(a: seq<nat>, b: seq<nat>)
    ensures IndexAtMost(a, b) || IndexAtMost(b, a)
    ensures IndexAtMost(a, b) && IndexAtMost(b, a) ==> a == b
  {
    if a != [] && b != [] {
      IndexTotal(a[1..], b[1..]);
      assert a == [a[0]] + a[1..] && b == [b[0]] + b[1..];
    }
  }

  lemma {:induction false} IndexTransitive(a: seq<nat>, b: seq<nat>, c: seq<nat>)
    requires IndexAtMost(a, b) && IndexAtMost(b, c)
    ensures IndexAtMost(a, c)
  {
    if a != [] && a[0] == b[0] == c[0] {
      IndexTransitive(a[1..], b[1..], c[1..]);
    }
  }

  lemma {:induction false} IndexAppend(a: seq<nat>, b: seq<nat>, i: nat, j: nat)
    requires |a| == |b| && IndexAtMost(a, b) && (a == b ==> i <= j)
    ensures IndexAtMost(a + [i], b + [j])
  {
    if a != [] {
      assert (a + [i])[1..] == a[1..] + [i] && (b + [j])[1..] == b[1..] + [j];
      if a[0] == b[0] {
        assert a == [a[0]] + a[1..] && b == [b[0]] + b[1..];
        IndexAppend(a[1..], b[1..], i, j);
      }
    }
  }

  // ---------- The embedding graph ----------

  /** The structs embedded by one struct. */
  function Embeds(ts: Types, s: nat): set<nat> {
    if s in ts.structs
    then set i | 0 <= i < |ts.structs[s]| && Embedded(ts, ts.structs[s][i]) :: Target(ts.structs[s][i]).id
    else {}
  }

  /** The structs at the end of an embedding path of exactly n steps from t. */
  function Reach(ts: Types, t: nat, n: nat): set<nat> {
    if n == 0 then {t} else set u, v | u in Reach(ts, t, n - 1) && v in Embeds(ts, u) :: v
  }

  /** … of fewer than n steps. */
  function Below(ts: Types, t: nat, n: nat): set<nat> {
    if n == 0 then {} else Below(ts, t, n - 1) + Reach(ts, t, n - 1)
  }

  /** Where a path of field positions leads through embedded structs. */
  function Walk(ts: Types, t: nat, path: seq<nat>): Option<nat> {
    if path == [] then Some(t)
    else
      var s := Walk(ts, t, path[..|path| - 1]);
      var i := path[|path| - 1];
      if s.None? || s.value !in ts.structs || i >= |ts.structs[s.value]| || !Embedded(ts, ts.structs[s.value][i]) then None
      else Some(Target(ts.structs[s.value][i]).id)
  }

  /** The first of all paths of its length to where it leads. */
  ghost predicate Least(ts: Types, t: nat, path: seq<nat>) {
    Walk(ts, t, path).Some? && forall q: seq<nat> :: |q| == |path| && Walk(ts, t, q) == Walk(ts, t, path) ==> IndexAtMost(path, q)
  }

  lemma OneLeast(ts: Types, t: nat, a: seq<nat>, b: seq<nat>)
    requires Least(ts, t, a) && Least(ts, t, b) && |a| == |b| && Walk(ts, t, a) == Walk(ts, t, b)
    ensures a == b
  {
    IndexTotal(a, b);
  }

  lemma {:induction false} WalkReaches(ts: Types, t: nat, path: seq<nat>)
    requires Walk(ts, t, path).Some?
    ensures Walk(ts, t, path).value in Reach(ts, t, |path|)
    decreases |path|
  {
    if path != [] {
      WalkReaches(ts, t, path[..|path| - 1]);
      var s, i := Walk(ts, t, path[..|path| - 1]).value, path[|path| - 1];
      assert Target(ts.structs[s][i]).id in Embeds(ts, s);
    }
  }

  lemma {:induction false} BelowHas(ts: Types, t: nat, i: nat, n: nat)
    requires i < n
    ensures Reach(ts, t, i) <= Below(ts, t, n)
    decreases n
  {
    if i < n - 1 { BelowHas(ts, t, i, n - 1); }
  }

  lemma {:induction false} BelowFrom(ts: Types, t: nat, n: nat, u: nat) returns (i: nat)
    requires u in Below(ts, t, n)
    ensures i < n && u in Reach(ts, t, i)
    decreases n
  {
    if u in Reach(ts, t, n - 1) { i := n - 1; } else { i := BelowFrom(ts, t, n - 1, u); }
  }

  lemma {:induction false} ReachKnown(ts: Types, t: nat, n: nat)
    requires Closed(ts) && t in ts.structs
    ensures Reach(ts, t, n) <= ts.structs.Keys
  {
    if n > 0 { ReachKnown(ts, t, n - 1); }
  }

  lemma EmbedsReach(ts: Types, t: nat, n: nat, u: nat)
    requires u in Reach(ts, t, n)
    ensures Embeds(ts, u) <= Reach(ts, t, n + 1)
  {
  }

  /** What an earlier level embeds lies no deeper than the current one. */
  lemma EmbedsBelow(ts: Types, t: nat, n: nat, u: nat)
    requires u in Below(ts, t, n)
    ensures Embeds(ts, u) <= Below(ts, t, n + 1)
  {
    hide *;
    var i := BelowFrom(ts, t, n, u);
    EmbedsReach(ts, t, i, u);
    BelowHas(ts, t, i + 1, n + 1);
  }

  /** The structs whose shortest embedding path has exactly n steps. */
  function Fresh(ts: Types, t: nat, n: nat): set<nat> {
    Reach(ts, t, n) - Below(ts, t, n)
  }

  lemma FreshIsShortest(ts: Types, t: nat, n: nat, m: nat, u: nat)
    requires u in Fresh(ts, t, n) && u in Reach(ts, t, m)
    ensures n <= m
  {
    if m < n { BelowHas(ts, t, m, n); }
  }

  lemma WalkOn(ts: Types, t: nat, front: seq<nat>, s: nat, i: nat)
    requires Walk(ts, t, front) == Some(s) && s in ts.structs && i < |ts.structs[s]| && Embedded(ts, ts.structs[s][i])
    ensures Walk(ts, t, front + [i]) == Some(Target(ts.structs[s][i]).id)
  {
    hide Embedded;
    assert (front + [i])[..|front|] == front;
  }

  lemma EmbeddedAt(ts: Types, s: nat, u: nat) returns (i: nat)
    requires u in Embeds(ts, s)
    ensures s in ts.structs && i < |ts.structs[s]| && Embedded(ts, ts.structs[s][i]) && Target(ts.structs[s][i]).id == u
  {
    i :| 0 <= i < |ts.structs[s]| && Embedded(ts, ts.structs[s][i]) && Target(ts.structs[s][i]).id == u;
  }

  /** A walk exists for everything reached. */
  lemma {:induction false} ReachWalks(ts: Types, t: nat, n: nat, u: nat) returns (path: seq<nat>)
    requires u in Reach(ts, t, n)
    ensures |path| == n && Walk(ts, t, path) == Some(u)
  {
    if n == 0 {
      path := [];
    } else {
      hide Embeds, Walk, Embedded;
      var s :| s in Reach(ts, t, n - 1) && u in Embeds(ts, s);
      var i := EmbeddedAt(ts, s, u);
      var front := ReachWalks(ts, t, n - 1, s);
      WalkOn(ts, t, front, s, i);
      path := front + [i];
    }
  }

  /** The level of a struct is the length of its shortest walk. */
  lemma FreshIs(ts: Types, t: nat, n: nat, u: nat)
    ensures u in Fresh(ts, t, n) <==>
            && (exists path :: |path| == n && Walk(ts, t, path) == Some(u))
            && forall path :: |path| < n ==> Walk(ts, t, path) != Some(u)
  {
    if u in Fresh(ts, t, n) {
      var path := ReachWalks(ts, t, n, u);
      forall q | |q| < n ensures Walk(ts, t, q) != Some(u) {
        if Walk(ts, t, q) == Some(u) {
          WalkReaches(ts, t, q);
          BelowHas(ts, t, |q|, n);
        }
      }
    }
    if path :| |path| == n && Walk(ts, t, path) == Some(u) && u !in Fresh(ts, t, n) {
      WalkReaches(ts, t, path);
      var m := BelowFrom(ts, t, n, u);
      var q := ReachWalks(ts, t, m, u);
    }
  }
}
