/** What the scan accepts, said of every object in a value rather than by recursion through
    it (wire/json.go). */
module WirePositions {
  import opened Common
  import opened WireTypes
  import opened WireDominance
  import opened WireScanner

  // ---------- Where a value is decoded ----------

  /** `dest` is where a value of this type is decoded: behind all pointers, and nowhere
      without a type or with a decoder of its own. */
  predicate DecodedAt(w: World, t: Option<Type>, dest: Option<Type>) {
    if t.None? then dest.None? else TypeDecodedAt(w, t.value, dest)
  }

  predicate TypeDecodedAt(w: World, t: Type, dest: Option<Type>) {
    match t
    case Pointer(elem) => TypeDecodedAt(w, elem, dest)
    case Custom => dest.None?
    case Struct(id) => if w.custom(id) then dest.None? else dest == Some(t)
    case _ => dest == Some(t)
  }

  /** The type of an object's member: a map's element, or that of the record field its key names. */
  predicate ChildType(w: World, dest: Option<Type>, key: string, child: Option<Type>) {
    if dest.Some? && dest.value.Map? then child == Some(dest.value.elem)
    else if dest.Some? && dest.value.Struct? then
      var record := w.record(dest.value.id);
      if exists i: nat :: i < |record| && Names(record, w.fold, key, Some(i))
      then exists i: nat :: i < |record| && Names(record, w.fold, key, Some(i)) && child == Some(record[i].typ)
      else child.None?
    else child.None?
  }

  /** The type of an array's element: none past the end of a fixed array. */
  predicate PartType(dest: Option<Type>, index: nat, child: Option<Type>) {
    if dest.Some? && dest.value.Slice? then child == Some(dest.value.elem)
    else if dest.Some? && dest.value.Array? && index < dest.value.length then child == Some(dest.value.elem)
    else child.None?
  }

  lemma {:induction false} DecodedAtIs(w: World, t: Type, dest: Option<Type>)
    ensures TypeDecodedAt(w, t, dest) <==> dest == Destination(w, Some(t))
  {
    if t.Pointer? { DecodedAtIs(w, t.elem, dest); }
  }

  lemma DecodedOnce(w: World, t: Option<Type>, dest: Option<Type>)
    ensures DecodedAt(w, t, dest) <==> dest == Destination(w, t)
  {
    if t.Some? { DecodedAtIs(w, t.value, dest); }
  }

  lemma ChildTypeIs(w: World, dest: Option<Type>, key: string, child: Option<Type>)
    ensures ChildType(w, dest, key, child) <==> child == MemberType(w, dest, key)
  {
    if dest.Some? && dest.value.Struct? {
      var record := w.record(dest.value.id);
      var i := Selected(record, key, w.fold);
      SelectedNames(record, key, w.fold, i);
      forall k: nat | Names(record, w.fold, key, Some(k)) ensures i == Some(k) {
        SelectedNames(record, key, w.fold, Some(k));
      }
      hide Selected, Names;
      if i.Some? { assert Names(record, w.fold, key, Some(i.value)); }
    } else {
      NoRecord(w, key);
    }
  }

  lemma NoRecord(w: World, key: string)
    ensures Selected([], key, w.fold).None?
  {
  }

  // ---------- Objects in a value ----------

  /** The object with members ms occurs in the value j of type t, decoded at dest. */
  ghost predicate Occurs(w: World, t: Option<Type>, j: Json, dest: Option<Type>, ms: Members)
    decreases j
  {
    match j
    case Quoted(_) => false
    case Plain => false
    case Object(all_) => exists here :: DecodedAt(w, t, here) && ((dest == here && ms == all_) || InMembers(w, here, all_, dest, ms))
    case Sequence(es) => exists here :: DecodedAt(w, t, here) && InElements(w, here, es, dest, ms)
  }

  ghost predicate InMembers(w: World, here: Option<Type>, all_: Members, dest: Option<Type>, ms: Members)
    decreases all_
  {
    all_.Member? &&
    (InMembers(w, here, all_.init, dest, ms) || exists child :: ChildType(w, here, all_.key, child) && Occurs(w, child, all_.value, dest, ms))
  }

  ghost predicate InElements(w: World, here: Option<Type>, es: Elements, dest: Option<Type>, ms: Members)
    decreases es
  {
    es.Element? &&
    (InElements(w, here, es.init, dest, ms) || exists child :: PartType(here, Length(es.init), child) && Occurs(w, child, es.value, dest, ms))
  }

  /** No key twice, and no record field named by two keys. */
  ghost predicate NothingTwice(w: World, dest: Option<Type>, keys: seq<string>) {
    forall a, b :: 0 <= a < b < |keys| ==>
      && keys[a] != keys[b]
      && (dest.Some? && dest.value.Struct? ==>
            forall i: nat :: !(Names(w.record(dest.value.id), w.fold, keys[a], Some(i)) && Names(w.record(dest.value.id), w.fold, keys[b], Some(i))))
  }

  lemma NothingTwiceIs(w: World, dest: Option<Type>, keys: seq<string>)
    ensures NothingTwice(w, dest, keys) <==> Distinct(keys) && FieldsOnce(w, dest, keys)
  {
    if dest.Some? && dest.value.Struct? {
      var record := w.record(dest.value.id);
      forall key, i: nat ensures Names(record, w.fold, key, Some(i)) <==> Selected(record, key, w.fold) == Some(i) {
        SelectedNames(record, key, w.fold, Some(i));
      }
      hide Names, Selected;
      forall a, b | 0 <= a < b < |keys|
        ensures (exists i: nat :: Names(record, w.fold, keys[a], Some(i)) && Names(record, w.fold, keys[b], Some(i)))
                <==> Selected(record, keys[a], w.fold).Some? && Selected(record, keys[a], w.fold) == Selected(record, keys[b], w.fold)
      {
        var first := Selected(record, keys[a], w.fold);
        if first.Some? && first == Selected(record, keys[b], w.fold) {
          assert Names(record, w.fold, keys[a], Some(first.value)) && Names(record, w.fold, keys[b], Some(first.value));
        }
      }
    } else {
      forall k | 0 <= k < |keys| ensures Selected(Record(w, dest), keys[k], w.fold).None? {
        NoRecord(w, keys[k]);
      }
    }
  }

  /** A value is clean exactly when no object in it has anything twice. */
  lemma {:induction false} CleanEverywhere(w: World, t: Option<Type>, j: Json)
    ensures Clean(w, t, j) <==> forall dest, ms :: Occurs(w, t, j, dest, ms) ==> NothingTwice(w, dest, Keys(ms))
    decreases j
  {
    hide NothingTwice, Distinct, FieldsOnce, DecodedAt, Destination, Keys;
    var here := Destination(w, t);
    forall dest ensures DecodedAt(w, t, dest) <==> dest == here {
      DecodedOnce(w, t, dest);
    }
    match j {
      case Object(all_) =>
        NothingTwiceIs(w, here, Keys(all_));
        MembersEverywhere(w, here, all_);
        assert DecodedAt(w, t, here);
        assert Occurs(w, t, j, here, all_);
        assert forall dest, ms :: InMembers(w, here, all_, dest, ms) ==> Occurs(w, t, j, dest, ms);
      case Sequence(es) =>
        ElementsEverywhere(w, here, es);
        assert forall dest, ms :: InElements(w, here, es, dest, ms) <==> Occurs(w, t, j, dest, ms);
      case _ =>
    }
  }

  lemma {:induction false} MembersEverywhere(w: World, here: Option<Type>, all_: Members)
    ensures MembersClean(w, here, all_) <==> forall dest, ms :: InMembers(w, here, all_, dest, ms) ==> NothingTwice(w, dest, Keys(ms))
    decreases all_
  {
    hide NothingTwice, ChildType, MemberType, Clean, Occurs, Keys;
    if all_.Member? {
      MembersEverywhere(w, here, all_.init);
      var child := MemberType(w, here, all_.key);
      forall c ensures ChildType(w, here, all_.key, c) <==> c == child {
        ChildTypeIs(w, here, all_.key, c);
      }
      CleanEverywhere(w, child, all_.value);
      assert forall dest, ms :: Occurs(w, child, all_.value, dest, ms) ==> InMembers(w, here, all_, dest, ms);
    }
  }

  lemma {:induction false} ElementsEverywhere(w: World, here: Option<Type>, es: Elements)
    ensures ElementsClean(w, here, es) <==> forall dest, ms :: InElements(w, here, es, dest, ms) ==> NothingTwice(w, dest, Keys(ms))
    decreases es
  {
    hide NothingTwice, Clean, Occurs, Keys;
    if es.Element? {
      ElementsEverywhere(w, here, es.init);
      var child := ElementType(here, Length(es.init));
      assert forall c :: PartType(here, Length(es.init), c) <==> c == child;
      hide PartType, ElementType;
      CleanEverywhere(w, child, es.value);
      assert forall dest, ms :: Occurs(w, child, es.value, dest, ms) ==> InElements(w, here, es, dest, ms);
    }
  }

  /** Exactly or folded, the key matches field i of the record and no other. */
  predicate MatchesOnly(record: seq<Item>, fold: (string, string) -> bool, key: string, i: nat) {
    && i < |record| && (record[i].name == key || fold(record[i].name, key))
    && forall k :: 0 <= k < |record| && k != i ==> record[k].name != key && !fold(record[k].name, key)
  }

  /** In an accepted value no object at a struct has two keys that match only one field. */
  lemma NoFieldTwice(w: World, t: Option<Type>, j: Json, id: nat, ms: Members, a: nat, b: nat, i: nat)
    requires Acceptable(w, t, 0, 0, j) && Occurs(w, t, j, Some(Struct(id)), ms) && a < b < |Keys(ms)|
    ensures Keys(ms)[a] != Keys(ms)[b]
    ensures !(MatchesOnly(w.record(id), w.fold, Keys(ms)[a], i) && MatchesOnly(w.record(id), w.fold, Keys(ms)[b], i))
  {
    hide Occurs, Clean, Names;
    CleanEverywhere(w, t, j);
    var record, keys := w.record(id), Keys(ms);
    assert NothingTwice(w, Some(Struct(id)), keys);
    if MatchesOnly(record, w.fold, keys[a], i) { OnlyMatch(record, w.fold, keys[a], i); }
    if MatchesOnly(record, w.fold, keys[b], i) { OnlyMatch(record, w.fold, keys[b], i); }
  }

  lemma OnlyMatch(record: seq<Item>, fold: (string, string) -> bool, key: string, i: nat)
    requires MatchesOnly(record, fold, key, i)
    ensures Names(record, fold, key, Some(i))
  {
  }

  /** What rejectDuplicateJSONKeys accepts, in full. */
  lemma AcceptedIs(w: World, t: Option<Type>, j: Json)
    ensures Acceptable(w, t, 0, 0, j) <==>
            && (forall dest, ms :: Occurs(w, t, j, dest, ms) ==> NothingTwice(w, dest, Keys(ms)))
            && Height(j) <= 64 && Count(j) <= 100000
  {
    hide Occurs, Clean, NothingTwice;
    CleanEverywhere(w, t, j);
  }

  // ---------- The two budgets ----------

  /** n arrays inside one another. */
  function Nested(n: nat): Json {
    if n == 0 then Plain else Sequence(Element(NoElements, Nested(n - 1)))
  }

  /** n objects inside one another. */
  function NestedObjects(n: nat): Json {
    if n == 0 then Plain else Object(Member(NoMembers, "k", NestedObjects(n - 1)))
  }

  function Atoms(n: nat): Elements {
    if n == 0 then NoElements else Element(Atoms(n - 1), Plain)
  }

  lemma Wrapped(j: Json)
    ensures Height(Sequence(Element(NoElements, j))) == 1 + Height(j) && Count(Sequence(Element(NoElements, j))) == 1 + Count(j)
    ensures Height(Object(Member(NoMembers, "k", j))) == 1 + Height(j) && Count(Object(Member(NoMembers, "k", j))) == 1 + Count(j)
  {
    assert ElementHeight(NoElements) == 0 && MemberHeight(NoMembers) == 0;
    assert ElementCount(NoElements) == 0 && MemberCount(NoMembers) == 0;
  }

  lemma {:induction false} NestedSize(n: nat)
    ensures Height(Nested(n)) == n && Count(Nested(n)) == n + 1 && Height(NestedObjects(n)) == n && Count(NestedObjects(n)) == n + 1
  {
    if n > 0 {
      hide Height, Count;
      NestedSize(n - 1);
      Wrapped(Nested(n - 1));
      Wrapped(NestedObjects(n - 1));
    }
  }

  lemma {:induction false} AtomsSize(n: nat)
    ensures ElementHeight(Atoms(n)) == 0 && ElementCount(Atoms(n)) == n
  {
    if n > 0 { AtomsSize(n - 1); }
  }

  lemma {:induction false} NestedClean(w: World, n: nat)
    ensures Clean(w, None, Nested(n)) && Clean(w, None, NestedObjects(n))
  {
    if n > 0 {
      NestedClean(w, n - 1);
      NoRecord(w, "k");
      assert Keys(Member(NoMembers, "k", NestedObjects(n - 1))) == ["k"];
    }
  }

  lemma {:induction false} AtomsClean(w: World, n: nat)
    ensures ElementsClean(w, None, Atoms(n))
  {
    if n > 0 { AtomsClean(w, n - 1); }
  }

  /** Sixty-four containers may be nested and no more; a hundred thousand values counted and
      no more. */
  lemma Budgets(w: World, n: nat)
    ensures Acceptable(w, None, 0, 0, Nested(n)) <==> n <= 64
    ensures Acceptable(w, None, 0, 0, NestedObjects(n)) <==> n <= 64
    ensures Acceptable(w, None, 0, 0, Sequence(Atoms(n))) <==> n < 100000
  {
    hide Clean, Height, Count, Nested, NestedObjects, Atoms, ElementsClean, ElementHeight, ElementCount;
    NestedSize(n);
    NestedClean(w, n);
    AtomsSize(n);
    AtomsClean(w, n);
    SequenceOfAtoms(w, n);
  }

  lemma SequenceOfAtoms(w: World, n: nat)
    ensures Clean(w, None, Sequence(Atoms(n))) <==> ElementsClean(w, None, Atoms(n))
    ensures Height(Sequence(Atoms(n))) == 1 + ElementHeight(Atoms(n)) && Count(Sequence(Atoms(n))) == 1 + ElementCount(Atoms(n))
  {
  }
}
