/** Shared vocabulary: optional values, the byte order on text, and sorting. */
module Common {

  datatype Option<+T> = None | Some(value: T)

  /** The order Go's `<` gives two strings; on Unicode scalars it agrees with the
      order of their UTF-8 bytes. */
  predicate Less(a: string, b: string) {
    if b == [] then false
    else if a == [] then true
    else a[0] < b[0] || (a[0] == b[0] && Less(a[1..], b[1..]))
  }

  predicate AtMost(a: string, b: string) {
    a == b || Less(a, b)
  }

  lemma {:induction false} LessTransitive(a: string, b: string, c: string)
    requires Less(a, b) && Less(b, c)
    ensures Less(a, c)
  {
    if a != [] && a[0] == b[0] == c[0] {
      LessTransitive(a[1..], b[1..], c[1..]);
    }
  }

  lemma {:induction false} LessTotal(a: string, b: string)
    ensures Less(a, b) || a == b || Less(b, a)
    ensures !(Less(a, b) && Less(b, a)) && (Less(a, b) ==> a != b)
  {
    if a != [] && b != [] {
      LessTotal(a[1..], b[1..]);
      assert a[0] == b[0] && a[1..] == b[1..] ==> a == [a[0]] + a[1..] == b;
    }
  }

  /** At the first difference the smaller character decides; a prefix comes first. */
  lemma {:induction false} LessIs(a: string, b: string)
    ensures Less(a, b) <==> exists k :: 0 <= k < |b| && k <= |a| && a[..k] == b[..k] && (k == |a| || a[k] < b[k])
  {
    if a != [] && b != [] && a[0] == b[0] {
      LessIs(a[1..], b[1..]);
      if Less(a, b) {
        var k :| 0 <= k < |b[1..]| && k <= |a[1..]| && a[1..][..k] == b[1..][..k] && (k == |a[1..]| || a[1..][k] < b[1..][k]);
        assert a[..k + 1] == [a[0]] + a[1..][..k] && b[..k + 1] == [b[0]] + b[1..][..k];
      }
      if k :| 0 <= k < |b| && k <= |a| && a[..k] == b[..k] && (k == |a| || a[k] < b[k]) {
        assert k > 0 && a[1..][..k - 1] == a[..k][1..] && b[1..][..k - 1] == b[..k][1..];
      }
    } else if b != [] {
      assert a[..0] == b[..0];
      PrefixHeads(a, b);
    }
  }

  lemma PrefixHeads(a: string, b: string)
    ensures forall k :: 0 < k <= |a| && k <= |b| && a[..k] == b[..k] ==> a[0] == b[0]
  {
    forall k | 0 < k <= |a| && k <= |b| && a[..k] == b[..k] ensures a[0] == b[0] {
      assert a[..k][0] == b[..k][0];
    }
  }

  /** `identifier` of browsercontract and udonreport:
      ^[A-Za-z0-9][A-Za-z0-9_.:-]{0,127}$ */
  predicate Identifier(s: string) {
    && 1 <= |s| <= 128
    && Alphanumeric(s[0])
    && forall i :: 0 <= i < |s| ==> Alphanumeric(s[i]) || s[i] in "_.:-"
  }

  /** authority.Identifier. */
  predicate AuthorityId(s: string) {
    1 <= |s| <= 128 && forall i :: 0 <= i < |s| ==> Alphanumeric(s[i]) || s[i] in "-_."
  }

  predicate Alphanumeric(c: char) {
    'A' <= c <= 'Z' || 'a' <= c <= 'z' || '0' <= c <= '9'
  }

  /** 64 lower-case hexadecimal digits. */
  predicate DigestText(s: string) {
    |s| == 64 && forall i :: 0 <= i < |s| ==> '0' <= s[i] <= '9' || 'a' <= s[i] <= 'f'
  }

  predicate Distinct<T(==)>(s: seq<T>) {
    forall i, j :: 0 <= i < j < |s| ==> s[i] != s[j]
  }

  /** The length of a text's UTF-8 encoding, which Go's `len` gives. */
  function ByteLength(s: string): nat {
    if s == [] then 0
    else
      var n := s[0] as int;
      (if n < 0x80 then 1 else if n < 0x800 then 2 else if n < 0x10000 then 3 else 4) + ByteLength(s[1..])
  }

  // ---------- Sorting by a total preorder ----------

  ghost predicate Preorder<T(!new)>(leq: (T, T) -> bool) {
    && (forall a, b :: leq(a, b) || leq(b, a))
    && (forall a, b, c :: leq(a, b) && leq(b, c) ==> leq(a, c))
  }

  ghost predicate Sorted<T>(leq: (T, T) -> bool, s: seq<T>) {
    forall i, j :: 0 <= i < j < |s| ==> leq(s[i], s[j])
  }

  function Insert<T>(leq: (T, T) -> bool, x: T, s: seq<T>): (r: seq<T>)
    ensures multiset(r) == multiset{x} + multiset(s)
  {
    if s == [] then [x]
    else if leq(x, s[0]) then [x] + s
    else
      assert s == [s[0]] + s[1..];
      [s[0]] + Insert(leq, x, s[1..])
  }

  function Sort<T>(leq: (T, T) -> bool, s: seq<T>): (r: seq<T>)
    ensures multiset(r) == multiset(s) && |r| == |s|
  {
    if s == [] then []
    else
      assert s == [s[0]] + s[1..];
      var r := Insert(leq, s[0], Sort(leq, s[1..]));
      assert |multiset(r)| == |r| && |multiset(s)| == |s|;
      r
  }

  lemma {:induction false} InsertSorted<T(!new)>(leq: (T, T) -> bool, x: T, s: seq<T>)
    requires Preorder(leq) && Sorted(leq, s)
    ensures Sorted(leq, Insert(leq, x, s))
  {
    if s != [] && !leq(x, s[0]) {
      InsertSorted(leq, x, s[1..]);
      var tail := Insert(leq, x, s[1..]);
      forall k | 0 <= k < |tail| ensures leq(s[0], tail[k]) {
        assert tail[k] in multiset(tail);
        assert tail[k] == x || tail[k] in s[1..];
      }
    } else if s != [] {
      forall k | 0 <= k < |s| ensures leq(x, s[k]) {
        assert k == 0 || leq(s[0], s[k]);
      }
    }
  }

  lemma {:induction false} SortSorted<T(!new)>(leq: (T, T) -> bool, s: seq<T>)
    requires Preorder(leq)
    ensures Sorted(leq, Sort(leq, s))
  {
    if s != [] {
      SortSorted(leq, s[1..]);
      InsertSorted(leq, s[0], Sort(leq, s[1..]));
    }
  }

  lemma SortedHeads<T(!new)>(leq: (T, T) -> bool, a: seq<T>, b: seq<T>)
    requires a != [] && b != [] && Sorted(leq, a) && Sorted(leq, b) && a[0] in b && b[0] in a
    ensures a[0] == b[0] || (leq(a[0], b[0]) && leq(b[0], a[0]))
  {
  }

  lemma TailMultiset<T>(a: seq<T>)
    requires a != []
    ensures multiset(a[1..]) == multiset(a) - multiset{a[0]}
  {
    assert a == [a[0]] + a[1..];
  }

  /** Two sorted arrangements of the same elements are equal when the order never
      ties two different elements of them. */
  lemma {:induction false} SortedUnique<T(!new)>(leq: (T, T) -> bool, a: seq<T>, b: seq<T>)
    requires Sorted(leq, a) && Sorted(leq, b) && multiset(a) == multiset(b)
    requires forall x, y :: x in a && y in a && leq(x, y) && leq(y, x) ==> x == y
    ensures a == b
  {
    assert |multiset(a)| == |a| && |multiset(b)| == |b|;
    if a != [] {
      assert a[0] in multiset(b) && b[0] in multiset(a);
      SortedHeads(leq, a, b);
      TailMultiset(a);
      TailMultiset(b);
      SortedUnique(leq, a[1..], b[1..]);
      assert a == [a[0]] + a[1..] && b == [b[0]] + b[1..];
    }
  }

  lemma SortPermuted<T(!new)>(leq: (T, T) -> bool, a: seq<T>, b: seq<T>)
    requires Preorder(leq) && multiset(a) == multiset(b)
    requires forall x, y :: x in a && y in a && leq(x, y) && leq(y, x) ==> x == y
    ensures Sort(leq, a) == Sort(leq, b)
  {
    SortSorted(leq, a);
    SortSorted(leq, b);
    forall x | x in Sort(leq, a) ensures x in a {
      assert x in multiset(Sort(leq, a));
    }
    SortedUnique(leq, Sort(leq, a), Sort(leq, b));
  }

  lemma SortOfSorted<T(!new)>(leq: (T, T) -> bool, a: seq<T>)
    requires Preorder(leq) && Sorted(leq, a)
    requires forall x, y :: x in a && y in a && leq(x, y) && leq(y, x) ==> x == y
    ensures Sort(leq, a) == a
  {
    SortSorted(leq, a);
    forall x | x in Sort(leq, a) ensures x in a {
      assert x in multiset(Sort(leq, a));
    }
    SortedUnique(leq, Sort(leq, a), a);
  }

  /** Where the order tells all elements apart, sorting gives the one ordered arrangement. */
  lemma SortIs<T(!new)>(leq: (T, T) -> bool, given: seq<T>, sorted: seq<T>)
    requires Preorder(leq) && forall x, y :: x in given && y in given && leq(x, y) && leq(y, x) ==> x == y
    ensures sorted == Sort(leq, given) <==> multiset(sorted) == multiset(given) && Sorted(leq, sorted)
  {
    hide Sort;
    SortSorted(leq, given);
    if multiset(sorted) == multiset(given) && Sorted(leq, sorted) {
      forall x | x in sorted ensures x in given {
        assert x in multiset(sorted);
      }
      SortedUnique(leq, sorted, Sort(leq, given));
    }
  }

  // ---------- Sorting the elements of a set ----------

  lemma AtMostOrders()
    ensures Preorder(AtMost)
  {
    forall a: string, b: string ensures AtMost(a, b) || AtMost(b, a) {
      LessTotal(a, b);
    }
    forall a: string, b: string, c: string | AtMost(a, b) && AtMost(b, c) ensures AtMost(a, c) {
      if a != b && b != c { LessTransitive(a, b, c); }
    }
  }

  /** One enumeration of the elements, as a loop over a map's keys meets them. */
  ghost function Enumeration(s: set<string>): (r: seq<string>)
    ensures Distinct(r) && forall x :: x in r <==> x in s
    decreases |s|
  {
    if s == {} then []
    else
      var x :| x in s;
      Enumeration(s - {x}) + [x]
  }

  ghost function SortedSet(s: set<string>): seq<string> {
    Sort(AtMost, Enumeration(s))
  }

  lemma DistinctMultiset(a: seq<string>, b: seq<string>)
    requires Distinct(a) && Distinct(b) && forall x :: x in a <==> x in b
    ensures multiset(a) == multiset(b)
  {
    forall x ensures multiset(a)[x] == multiset(b)[x] {
      CountOf(a, x);
      CountOf(b, x);
    }
  }

  /** Sorted, every enumeration is the same. */
  lemma EnumerationsSort(a: seq<string>, s: set<string>)
    requires Distinct(a) && forall x :: x in a <==> x in s
    ensures Sort(AtMost, a) == SortedSet(s)
  {
    hide Less;
    DistinctMultiset(a, Enumeration(s));
    AtMostOrders();
    forall x, y | AtMost(x, y) && AtMost(y, x) ensures x == y { LessTotal(x, y); }
    hide AtMost, Distinct, Sort;
    SortPermuted(AtMost, a, Enumeration(s));
  }

  /** It lists exactly the elements, strictly increasing. */
  lemma SortedSetIs(s: set<string>)
    ensures forall x :: x in SortedSet(s) <==> x in s
    ensures forall i, j :: 0 <= i < j < |SortedSet(s)| ==> Less(SortedSet(s)[i], SortedSet(s)[j])
  {
    var a, r := Enumeration(s), SortedSet(s);
    hide Less, Sort;
    forall x ensures x in r <==> x in s {
      assert x in r <==> x in multiset(r);
      assert x in a <==> x in multiset(a);
    }
    AtMostOrders();
    SortSorted(AtMost, a);
    forall i, j | 0 <= i < j < |r| ensures Less(r[i], r[j]) {
      CountOf(r, r[i]);
      CountOf(a, r[i]);
      assert AtMost(r[i], r[j]);
    }
  }

  // ---------- Sums ----------

  function Total<T>(size: T -> nat, s: seq<T>): nat {
    if s == [] then 0 else Total(size, s[..|s| - 1]) + size(s[|s| - 1])
  }

  lemma {:induction false} TotalGrows<T>(size: T -> nat, s: seq<T>, i: nat)
    requires i <= |s|
    ensures Total(size, s[..i]) <= Total(size, s)
    decreases |s|
  {
    if i < |s| {
      TotalGrows(size, s[..|s| - 1], i);
      assert s[..|s| - 1][..i] == s[..i];
    } else {
      assert s[..i] == s;
    }
  }

  lemma TotalNext<T>(size: T -> nat, s: seq<T>, i: nat)
    requires i < |s|
    ensures Total(size, s[..i + 1]) == Total(size, s[..i]) + size(s[i]) <= Total(size, s)
  {
    assert s[..i + 1][..i] == s[..i] && s[..i + 1][i] == s[i];
    TotalGrows(size, s, i + 1);
  }

  lemma {:induction false} TotalAtMost<T>(size: T -> nat, s: seq<T>, bound: nat)
    requires forall x :: x in s ==> size(x) <= bound
    ensures Total(size, s) <= bound * |s|
  {
    if s != [] {
      TotalAtMost(size, s[..|s| - 1], bound);
      assert bound * |s| == bound * (|s| - 1) + bound;
    }
  }

  // ---------- Counting ----------

  lemma SubsetSize<T>(a: set<T>, b: set<T>)
    requires a <= b
    ensures |a| <= |b|
  {
    assert b == a + (b - a);
  }

  lemma SubsetOfSameSize<T>(a: set<T>, b: set<T>)
    requires a <= b && |a| == |b|
    ensures a == b
  {
    assert |b - a| == |b| - |a|;
  }

  /** How often an element occurs in a sequence. */
  lemma CountOf<T>(s: seq<T>, x: T)
    ensures x in s <==> multiset(s)[x] > 0
    ensures multiset(s)[x] > 1 <==> exists i, j :: 0 <= i < j < |s| && s[i] == x && s[j] == x
  {
    if i, j :| 0 <= i < j < |s| && s[i] == x && s[j] == x {
      assert s == s[..j] + s[j..];
      assert multiset(s) == multiset(s[..j]) + multiset(s[j..]);
      assert s[..j][i] == x && s[j..][0] == x;
      assert x in multiset(s[..j]) && x in multiset(s[j..]);
    } else if x in s {
      var i :| 0 <= i < |s| && s[i] == x;
      assert s == s[..i] + [x] + s[i + 1..];
      assert multiset(s) == multiset(s[..i]) + multiset([x]) + multiset(s[i + 1..]);
      assert x !in s[..i] && x !in s[i + 1..];
    }
  }
}
