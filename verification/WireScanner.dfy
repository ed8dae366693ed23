/** The duplicate-rejecting scan that precedes strict decoding (wire/json.go), on the
    tokens a JSON decoder delivers, with destinations given by their types. */
module WireScanner {
  import opened Common
  import opened WireTypes
  import opened WireDominance

  const MAX_NODES: nat := 100000
  const MAX_DEPTH: nat := 64

  datatype Token = Begin(braces: bool) | End(braces: bool) | Str(text: string) | Atom

  /** A JSON value; objects and arrays list their parts in order, the last outermost. */
  datatype Json = Quoted(text: string) | Plain | Object(members: Members) | Sequence(elements: Elements)
  datatype Members = NoMembers | Member(init: Members, key: string, value: Json)
  datatype Elements = NoElements | Element(init: Elements, value: Json)

  function Tokens(j: Json): seq<Token> {
    match j
    case Quoted(text) => [Str(text)]
    case Plain => [Atom]
    case Object(ms) => [Begin(true)] + MemberTokens(ms) + [End(true)]
    case Sequence(es) => [Begin(false)] + ElementTokens(es) + [End(false)]
  }

  function MemberTokens(ms: Members): seq<Token> {
    match ms
    case NoMembers => []
    case Member(init, key, value) => MemberTokens(init) + [Str(key)] + Tokens(value)
  }

  function ElementTokens(es: Elements): seq<Token> {
    match es
    case NoElements => []
    case Element(init, value) => ElementTokens(init) + Tokens(value)
  }

  // ---------- What is accepted ----------

  /** The number of values, the value itself included. */
  function Count(j: Json): nat {
    match j
    case Quoted(_) => 1
    case Plain => 1
    case Object(ms) => 1 + MemberCount(ms)
    case Sequence(es) => 1 + ElementCount(es)
  }

  function MemberCount(ms: Members): nat {
    if ms.NoMembers? then 0 else MemberCount(ms.init) + Count(ms.value)
  }

  function ElementCount(es: Elements): nat {
    if es.NoElements? then 0 else ElementCount(es.init) + Count(es.value)
  }

  function Max(a: nat, b: nat): nat {
    if a < b then b else a
  }

  /** The number of nested containers. */
  function Height(j: Json): nat {
    match j
    case Quoted(_) => 0
    case Plain => 0
    case Object(ms) => 1 + MemberHeight(ms)
    case Sequence(es) => 1 + ElementHeight(es)
  }

  function MemberHeight(ms: Members): nat {
    if ms.NoMembers? then 0 else Max(MemberHeight(ms.init), Height(ms.value))
  }

  function ElementHeight(es: Elements): nat {
    if es.NoElements? then 0 else Max(ElementHeight(es.init), Height(es.value))
  }

  function Length(es: Elements): nat {
    if es.NoElements? then 0 else Length(es.init) + 1
  }

  function Keys(ms: Members): seq<string> {
    if ms.NoMembers? then [] else Keys(ms.init) + [ms.key]
  }

  /** Record fields by struct, Unicode case folding, and the structs that decode themselves. */
  datatype World = World(record: nat -> seq<Item>, fold: (string, string) -> bool, custom: nat -> bool)

  /** jsonDestination, by type: pointers are followed, custom decoders are opaque, though the
      fields of a struct with one are still promoted where it is embedded. */
  function Destination(w: World, t: Option<Type>): Option<Type> {
    if t.None? then None else Pointee(w, t.value)
  }

  function Pointee(w: World, t: Type): Option<Type> {
    match t
    case Pointer(elem) => Pointee(w, elem)
    case Custom => None
    case Struct(id) => if w.custom(id) then None else Some(t)
    case _ => Some(t)
  }

  function Record(w: World, dest: Option<Type>): seq<Item> {
    if dest.Some? && dest.value.Struct? then w.record(dest.value.id) else []
  }

  function MemberType(w: World, dest: Option<Type>, key: string): Option<Type> {
    if dest.Some? && dest.value.Map? then Some(dest.value.elem)
    else
      var i := Selected(Record(w, dest), key, w.fold);
      if i.Some? then Some(Record(w, dest)[i.value].typ) else None
  }

  function ElementType(dest: Option<Type>, index: nat): Option<Type> {
    if dest.None? then None
    else if dest.value.Slice? || (dest.value.Array? && index < dest.value.length) then Some(dest.value.elem)
    else None
  }

  /** No two keys select the same record field, by exact or folded match. */
  predicate FieldsOnce(w: World, dest: Option<Type>, keys: seq<string>) {
    forall a, b :: 0 <= a < b < |keys| ==>
      var first := Selected(Record(w, dest), keys[a], w.fold);
      first.Some? ==> first != Selected(Record(w, dest), keys[b], w.fold)
  }

  /** Nowhere in the value does an object repeat a key or select a record field twice. */
  predicate Clean(w: World, t: Option<Type>, j: Json)
    decreases j
  {
    match j
    case Quoted(_) => true
    case Plain => true
    case Object(ms) =>
      Distinct(Keys(ms)) && FieldsOnce(w, Destination(w, t), Keys(ms)) && MembersClean(w, Destination(w, t), ms)
    case Sequence(es) => ElementsClean(w, Destination(w, t), es)
  }

  predicate MembersClean(w: World, dest: Option<Type>, ms: Members)
    decreases ms
  {
    ms.Member? ==> MembersClean(w, dest, ms.init) && Clean(w, MemberType(w, dest, ms.key), ms.value)
  }

  predicate ElementsClean(w: World, dest: Option<Type>, es: Elements)
    decreases es
  {
    es.Element? ==> ElementsClean(w, dest, es.init) && Clean(w, ElementType(dest, Length(es.init)), es.value)
  }

  predicate Acceptable(w: World, t: Option<Type>, depth: nat, nodes: nat, j: Json) {
    Clean(w, t, j) && depth + Height(j) <= MAX_DEPTH && nodes + Count(j) <= MAX_NODES
  }

  predicate MembersAcceptable(w: World, dest: Option<Type>, depth: nat, nodes: nat, ms: Members) {
    && Distinct(Keys(ms)) && FieldsOnce(w, dest, Keys(ms)) && MembersClean(w, dest, ms)
    && depth + MemberHeight(ms) <= MAX_DEPTH && nodes + MemberCount(ms) <= MAX_NODES
  }

  predicate ElementsAcceptable(w: World, dest: Option<Type>, depth: nat, nodes: nat, es: Elements) {
    ElementsClean(w, dest, es) && depth + ElementHeight(es) <= MAX_DEPTH && nodes + ElementCount(es) <= MAX_NODES
  }

  // ---------- Parts of a list ----------

  /** The members ms are the first members of all_. */
  predicate Starts(ms: Members, all_: Members) {
    ms == all_ || (all_.Member? && Starts(ms, all_.init))
  }

  predicate StartsWith(es: Elements, all_: Elements) {
    es == all_ || (all_.Element? && StartsWith(es, all_.init))
  }

  lemma {:induction false} NextMember(ms: Members, all_: Members) returns (next: Members)
    requires Starts(ms, all_) && ms != all_
    ensures next.Member? && next.init == ms && Starts(next, all_)
  {
    if all_.init == ms { next := all_; } else { next := NextMember(ms, all_.init); }
  }

  lemma {:induction false} NextElement(es: Elements, all_: Elements) returns (next: Elements)
    requires StartsWith(es, all_) && es != all_
    ensures next.Element? && next.init == es && StartsWith(next, all_)
  {
    if all_.init == es { next := all_; } else { next := NextElement(es, all_.init); }
  }

  lemma {:induction false} StartTokens(ms: Members, all_: Members)
    requires Starts(ms, all_)
    ensures MemberTokens(ms) <= MemberTokens(all_)
  {
    if ms != all_ { StartTokens(ms, all_.init); }
  }

  lemma {:induction false} StartElementTokens(es: Elements, all_: Elements)
    requires StartsWith(es, all_)
    ensures ElementTokens(es) <= ElementTokens(all_)
  {
    if es != all_ { StartElementTokens(es, all_.init); }
  }

  lemma {:induction false} StartAcceptable(w: World, dest: Option<Type>, depth: nat, nodes: nat, ms: Members, all_: Members)
    requires Starts(ms, all_) && MembersAcceptable(w, dest, depth, nodes, all_)
    ensures MembersAcceptable(w, dest, depth, nodes, ms)
  {
    if ms != all_ {
      assert Keys(all_)[..|Keys(all_.init)|] == Keys(all_.init);
      forall a, b | 0 <= a < b < |Keys(all_.init)| ensures Keys(all_.init)[a] != Keys(all_.init)[b] {
        assert Keys(all_)[a] == Keys(all_.init)[a] && Keys(all_)[b] == Keys(all_.init)[b];
      }
      assert FieldsOnce(w, dest, Keys(all_.init)) by {
        forall a, b | 0 <= a < b < |Keys(all_.init)| && Selected(Record(w, dest), Keys(all_.init)[a], w.fold).Some?
          ensures Selected(Record(w, dest), Keys(all_.init)[a], w.fold) != Selected(Record(w, dest), Keys(all_.init)[b], w.fold)
        {
          assert Keys(all_)[a] == Keys(all_.init)[a] && Keys(all_)[b] == Keys(all_.init)[b];
        }
      }
      StartAcceptable(w, dest, depth, nodes, ms, all_.init);
    }
  }

  lemma {:induction false} StartElementsAcceptable(w: World, dest: Option<Type>, depth: nat, nodes: nat, es: Elements, all_: Elements)
    requires StartsWith(es, all_) && ElementsAcceptable(w, dest, depth, nodes, all_)
    ensures ElementsAcceptable(w, dest, depth, nodes, es)
  {
    if es != all_ { StartElementsAcceptable(w, dest, depth, nodes, es, all_.init); }
  }

  // ---------- The scan ----------

  /** What has been read of an object: its members so far and the seen maps. */
  ghost predicate Reading(w: World, dest: Option<Type>, ms: Members, seen: set<string>, fields: set<nat>) {
    && (forall key :: key in seen <==> key in Keys(ms))
    && (forall i :: i in fields <==> exists a :: 0 <= a < |Keys(ms)| && Selected(Record(w, dest), Keys(ms)[a], w.fold) == Some(i))
  }

  /** The key after ms keeps the object clean exactly when neither map has seen it. */
  lemma KeyAdmitted(w: World, dest: Option<Type>, ms: Members, key: string, seen: set<string>, fields: set<nat>)
    requires Reading(w, dest, ms, seen, fields) && Distinct(Keys(ms)) && FieldsOnce(w, dest, Keys(ms))
    ensures var i := Selected(Record(w, dest), key, w.fold);
            Distinct(Keys(ms) + [key]) && FieldsOnce(w, dest, Keys(ms) + [key]) <==> key !in seen && (i.Some? ==> i.value !in fields)
  {
    var keys, i := Keys(ms), Selected(Record(w, dest), key, w.fold);
    if key in seen {
      var a :| 0 <= a < |keys| && keys[a] == key;
      assert (keys + [key])[a] == (keys + [key])[|keys|];
    } else if i.Some? && i.value in fields {
      var a :| 0 <= a < |keys| && Selected(Record(w, dest), keys[a], w.fold) == Some(i.value);
      assert (keys + [key])[a] == keys[a] && (keys + [key])[|keys|] == key;
    }
  }

  lemma ReadingNext(w: World, dest: Option<Type>, ms: Members, next: Members, seen: set<string>, fields: set<nat>)
    requires Reading(w, dest, ms, seen, fields) && next.Member? && next.init == ms
    ensures var i := Selected(Record(w, dest), next.key, w.fold);
            Reading(w, dest, next, seen + {next.key}, if i.Some? then fields + {i.value} else fields)
  {
    var keys, i := Keys(ms), Selected(Record(w, dest), next.key, w.fold);
    assert Keys(next) == keys + [next.key];
    assert forall a :: 0 <= a < |keys| ==> Keys(next)[a] == keys[a];
    assert Keys(next)[|keys|] == next.key;
  }

  /** These tokens come next. */
  ghost predicate Next(tokens: seq<Token>, at: nat, ts: seq<Token>) {
    at + |ts| <= |tokens| && tokens[at..at + |ts|] == ts
  }

  lemma NextPrefix(tokens: seq<Token>, at: nat, ts: seq<Token>, more: seq<Token>)
    requires Next(tokens, at, more) && ts <= more
    ensures Next(tokens, at, ts)
  {
    assert tokens[at..at + |ts|] == tokens[at..at + |more|][..|ts|];
  }

  lemma NextSuffix(tokens: seq<Token>, at: nat, a: seq<Token>, b: seq<Token>)
    requires Next(tokens, at, a + b)
    ensures Next(tokens, at, a) && Next(tokens, at + |a|, b)
  {
    assert tokens[at..at + |a|] == tokens[at..at + |a + b|][..|a|];
    assert tokens[at + |a|..at + |a| + |b|] == tokens[at..at + |a + b|][|a|..];
  }

  lemma NextJoin(tokens: seq<Token>, at: nat, a: seq<Token>, b: seq<Token>)
    requires Next(tokens, at, a) && Next(tokens, at + |a|, b)
    ensures Next(tokens, at, a + b)
  {
    assert tokens[at..at + |a| + |b|] == tokens[at..at + |a|] + tokens[at + |a|..at + |a| + |b|];
  }

  lemma NextHead(tokens: seq<Token>, at: nat, ts: seq<Token>)
    requires Next(tokens, at, ts) && ts != []
    ensures at < |tokens| && tokens[at] == ts[0]
  {
    assert tokens[at..at + |ts|][0] == tokens[at];
  }

  /** A value that comes next is known by its first token, and leaves its parts next. */
  lemma Opening(tokens: seq<Token>, at: nat, j: Json)
    requires Next(tokens, at, Tokens(j))
    ensures at < |tokens| && tokens[at] == Tokens(j)[0] && !tokens[at].End?
    ensures tokens[at].Str? ==> j == Quoted(tokens[at].text)
    ensures tokens[at].Atom? ==> j.Plain?
    ensures tokens[at] == Begin(true) ==> j.Object? && Next(tokens, at + 1, MemberTokens(j.members) + [End(true)])
    ensures tokens[at] == Begin(false) ==> j.Sequence? && Next(tokens, at + 1, ElementTokens(j.elements) + [End(false)])
  {
    NextHead(tokens, at, Tokens(j));
    if j.Object? {
      assert Tokens(j) == [Begin(true)] + (MemberTokens(j.members) + [End(true)]);
      NextSuffix(tokens, at, [Begin(true)], MemberTokens(j.members) + [End(true)]);
    } else if j.Sequence? {
      assert Tokens(j) == [Begin(false)] + (ElementTokens(j.elements) + [End(false)]);
      NextSuffix(tokens, at, [Begin(false)], ElementTokens(j.elements) + [End(false)]);
    }
  }

  lemma OneToken(tokens: seq<Token>, at: nat, w: World, t: Option<Type>, depth: nat, nodes: nat, j: Json)
    requires at < |tokens| && depth <= MAX_DEPTH && nodes < MAX_NODES
    requires (j.Quoted? && tokens[at] == Str(j.text)) || (j.Plain? && tokens[at] == Atom)
    ensures Next(tokens, at, Tokens(j)) && |Tokens(j)| == 1 && Count(j) == 1 && Acceptable(w, t, depth, nodes, j)
  {
    assert tokens[at..at + 1] == [tokens[at]];
  }

  lemma ClosedObject(tokens: seq<Token>, at: nat, ms: Members)
    requires at < |tokens| && tokens[at] == Begin(true) && Next(tokens, at + 1, MemberTokens(ms) + [End(true)])
    ensures Next(tokens, at, Tokens(Json.Object(ms))) && |Tokens(Json.Object(ms))| == |MemberTokens(ms)| + 2
  {
    assert tokens[at..at + 1] == [Begin(true)];
    NextJoin(tokens, at, [Begin(true)], MemberTokens(ms) + [End(true)]);
    assert Tokens(Json.Object(ms)) == [Begin(true)] + (MemberTokens(ms) + [End(true)]);
  }

  lemma ClosedSequence(tokens: seq<Token>, at: nat, es: Elements)
    requires at < |tokens| && tokens[at] == Begin(false) && Next(tokens, at + 1, ElementTokens(es) + [End(false)])
    ensures Next(tokens, at, Tokens(Json.Sequence(es))) && |Tokens(Json.Sequence(es))| == |ElementTokens(es)| + 2
  {
    assert tokens[at..at + 1] == [Begin(false)];
    NextJoin(tokens, at, [Begin(false)], ElementTokens(es) + [End(false)]);
    assert Tokens(Json.Sequence(es)) == [Begin(false)] + (ElementTokens(es) + [End(false)]);
  }

  lemma ContainerAcceptable(w: World, t: Option<Type>, depth: nat, nodes: nat, ms: Members, es: Elements)
    ensures Acceptable(w, t, depth, nodes, Json.Object(ms)) <==>
            depth < MAX_DEPTH && MembersAcceptable(w, Destination(w, t), depth + 1, nodes + 1, ms)
    ensures Acceptable(w, t, depth, nodes, Json.Sequence(es)) <==>
            depth < MAX_DEPTH && ElementsAcceptable(w, Destination(w, t), depth + 1, nodes + 1, es)
  {
  }

  /** The type a key's value is scanned at, and the record field it selects, if not yet taken. */
  method SelectMember(w: World, dest: Option<Type>, key: string, fields: set<nat>) returns (ok: bool, child: Option<Type>, fields': set<nat>)
    ensures var i := Selected(Record(w, dest), key, w.fold);
            && (ok <==> (i.Some? ==> i.value !in fields))
            && (ok ==> child == MemberType(w, dest, key) && fields' == if i.Some? then fields + {i.value} else fields)
  {
    ok, child, fields' := true, None, fields;
    if dest.Some? && dest.value.Map? {
      child := Some(dest.value.elem);
    } else {
      var record := Record(w, dest);
      var index := JsonFieldIndex(record, key, w.fold);
      if index.Some? {
        if index.value in fields { return false, None, fields; }
        fields' := fields + {index.value};
        child := Some(record[index.value].typ);
      }
    }
  }

  /** What the whole object asks of its next member, given the ones before it. */
  lemma MemberDemands(w: World, dest: Option<Type>, depth: nat, nodes: nat, c: Members, all_: Members)
    requires Starts(c, all_) && c.Member? && MembersAcceptable(w, dest, depth, nodes, all_)
    ensures Distinct(Keys(c.init) + [c.key]) && FieldsOnce(w, dest, Keys(c.init) + [c.key])
    ensures Acceptable(w, MemberType(w, dest, c.key), depth, nodes + MemberCount(c.init), c.value)
  {
    StartAcceptable(w, dest, depth, nodes, c, all_);
  }

  lemma MemberAccepted(w: World, dest: Option<Type>, depth: nat, nodes: nat, ms: Members, key: string, value: Json)
    requires MembersAcceptable(w, dest, depth, nodes, ms)
    requires Distinct(Keys(ms) + [key]) && FieldsOnce(w, dest, Keys(ms) + [key])
    requires Acceptable(w, MemberType(w, dest, key), depth, nodes + MemberCount(ms), value)
    ensures MembersAcceptable(w, dest, depth, nodes, Member(ms, key, value))
  {
  }

  lemma PrefixAcceptable(w: World, dest: Option<Type>, depth: nat, nodes: nat, ms: Members)
    requires MembersAcceptable(w, dest, depth, nodes, ms)
    ensures Distinct(Keys(ms)) && FieldsOnce(w, dest, Keys(ms)) && nodes + MemberCount(ms) <= MAX_NODES
  {
  }

  lemma MemberRead(tokens: seq<Token>, start: nat, ms: Members, key: string, value: Json)
    requires Next(tokens, start, MemberTokens(ms))
    requires var pos := start + |MemberTokens(ms)|; pos < |tokens| && tokens[pos] == Str(key) && Next(tokens, pos + 1, Tokens(value))
    ensures Next(tokens, start, MemberTokens(Member(ms, key, value)))
    ensures |MemberTokens(Member(ms, key, value))| == |MemberTokens(ms)| + 1 + |Tokens(value)|
  {
    var pos := start + |MemberTokens(ms)|;
    assert tokens[pos..pos + 1] == [Str(key)];
    NextJoin(tokens, start, MemberTokens(ms), [Str(key)]);
    NextJoin(tokens, start, MemberTokens(ms) + [Str(key)], Tokens(value));
  }

  lemma MembersEnd(tokens: seq<Token>, start: nat, ms: Members)
    requires Next(tokens, start, MemberTokens(ms))
    requires var pos := start + |MemberTokens(ms)|; pos < |tokens| && tokens[pos] == End(true)
    ensures Next(tokens, start, MemberTokens(ms) + [End(true)])
  {
    var pos := start + |MemberTokens(ms)|;
    assert tokens[pos..pos + 1] == [End(true)];
    NextJoin(tokens, start, MemberTokens(ms), [End(true)]);
  }

  lemma ElementAccepted(w: World, dest: Option<Type>, depth: nat, nodes: nat, es: Elements, value: Json)
    requires ElementsAcceptable(w, dest, depth, nodes, es)
    requires Acceptable(w, ElementType(dest, Length(es)), depth, nodes + ElementCount(es), value)
    ensures ElementsAcceptable(w, dest, depth, nodes, Element(es, value))
  {
  }

  lemma TokensOfElement(es: Elements, value: Json)
    ensures ElementTokens(Element(es, value)) == ElementTokens(es) + Tokens(value)
  {
  }

  lemma ElementsEnd(tokens: seq<Token>, start: nat, es: Elements)
    requires Next(tokens, start, ElementTokens(es))
    requires var pos := start + |ElementTokens(es)|; pos < |tokens| && tokens[pos] == End(false)
    ensures Next(tokens, start, ElementTokens(es) + [End(false)])
  {
    var pos := start + |ElementTokens(es)|;
    assert tokens[pos..pos + 1] == [End(false)];
    NextJoin(tokens, start, ElementTokens(es), [End(false)]);
  }

  lemma {:induction false} NothingStartsWith(all_: Elements)
    ensures StartsWith(NoElements, all_)
  {
    if all_.Element? { NothingStartsWith(all_.init); }
  }

  lemma NoElementRead(w: World, dest: Option<Type>, depth: nat, nodes: nat, tokens: seq<Token>, start: nat, given: Option<Elements>)
    requires start <= |tokens| && depth <= MAX_DEPTH && nodes <= MAX_NODES
    ensures Next(tokens, start, ElementTokens(NoElements)) && ElementCount(NoElements) == 0 && |ElementTokens(NoElements)| == 0
    ensures ElementsAcceptable(w, dest, depth, nodes, NoElements)
    ensures given.Some? ==> StartsWith(NoElements, given.value)
  {
    if given.Some? { NothingStartsWith(given.value); }
  }

  lemma {:induction false} NothingStarts(all_: Members)
    ensures Starts(NoMembers, all_)
  {
    if all_.Member? { NothingStarts(all_.init); }
  }

  lemma NothingRead(w: World, dest: Option<Type>, depth: nat, nodes: nat, tokens: seq<Token>, start: nat, given: Option<Members>)
    requires start <= |tokens| && depth <= MAX_DEPTH && nodes <= MAX_NODES
    ensures Next(tokens, start, MemberTokens(NoMembers)) && MemberCount(NoMembers) == 0 && |MemberTokens(NoMembers)| == 0
    ensures MembersAcceptable(w, dest, depth, nodes, NoMembers) && Reading(w, dest, NoMembers, {}, {})
    ensures given.Some? ==> Starts(NoMembers, given.value)
  {
    if given.Some? { NothingStarts(given.value); }
  }

  lemma ElementDemands(w: World, dest: Option<Type>, depth: nat, nodes: nat, c: Elements, all_: Elements)
    requires StartsWith(c, all_) && c.Element? && ElementsAcceptable(w, dest, depth, nodes, all_)
    ensures Acceptable(w, ElementType(dest, Length(c.init)), depth, nodes + ElementCount(c.init), c.value)
  {
    StartElementsAcceptable(w, dest, depth, nodes, c, all_);
  }

  /** After the members read so far comes the end of the object or another member. */
  lemma AfterMembers(tokens: seq<Token>, start: nat, ms: Members, all_: Members)
    requires Next(tokens, start, MemberTokens(all_) + [End(true)]) && Starts(ms, all_)
    ensures var pos := start + |MemberTokens(ms)|; pos < |tokens| && (if ms == all_ then tokens[pos] == End(true) else tokens[pos].Str?)
  {
    NextSuffix(tokens, start, MemberTokens(all_), [End(true)]);
    if ms == all_ {
      NextHead(tokens, start + |MemberTokens(ms)|, [End(true)]);
    } else {
      var c := MemberAhead(tokens, start, ms, all_);
      NextHead(tokens, start + |MemberTokens(ms)|, [Str(c.key)]);
    }
  }

  lemma MemberAhead(tokens: seq<Token>, start: nat, ms: Members, all_: Members) returns (c: Members)
    requires Next(tokens, start, MemberTokens(all_)) && Starts(ms, all_) && ms != all_
    ensures c.Member? && c.init == ms && Starts(c, all_)
    ensures Next(tokens, start + |MemberTokens(ms)|, [Str(c.key)]) && Next(tokens, start + |MemberTokens(ms)| + 1, Tokens(c.value))
  {
    c := NextMember(ms, all_);
    StartTokens(c, all_);
    NextPrefix(tokens, start, MemberTokens(c), MemberTokens(all_));
    NextSuffix(tokens, start, MemberTokens(ms) + [Str(c.key)], Tokens(c.value));
    NextSuffix(tokens, start, MemberTokens(ms), [Str(c.key)]);
  }

  /** While an object is not finished, its next member comes next. */
  lemma UpcomingMember(tokens: seq<Token>, start: nat, ms: Members, all_: Members) returns (c: Members)
    requires Next(tokens, start, MemberTokens(all_) + [End(true)]) && Starts(ms, all_)
    requires var pos := start + |MemberTokens(ms)|; pos < |tokens| ==> !tokens[pos].End?
    ensures c.Member? && c.init == ms && Starts(c, all_)
    ensures Next(tokens, start + |MemberTokens(ms)|, [Str(c.key)]) && Next(tokens, start + |MemberTokens(ms)| + 1, Tokens(c.value))
  {
    AfterMembers(tokens, start, ms, all_);
    NextSuffix(tokens, start, MemberTokens(all_), [End(true)]);
    c := MemberAhead(tokens, start, ms, all_);
  }

  lemma LastMember(tokens: seq<Token>, start: nat, ms: Members, all_: Members)
    requires Next(tokens, start, MemberTokens(all_) + [End(true)]) && Starts(ms, all_)
    requires var pos := start + |MemberTokens(ms)|; pos < |tokens| ==> tokens[pos].End?
    ensures ms == all_ && Next(tokens, start + |MemberTokens(ms)|, [End(true)])
  {
    AfterMembers(tokens, start, ms, all_);
    NextSuffix(tokens, start, MemberTokens(all_), [End(true)]);
  }

  lemma AfterElements(tokens: seq<Token>, start: nat, es: Elements, all_: Elements)
    requires Next(tokens, start, ElementTokens(all_) + [End(false)]) && StartsWith(es, all_)
    ensures var pos := start + |ElementTokens(es)|; pos < |tokens| && (if es == all_ then tokens[pos] == End(false) else !tokens[pos].End?)
  {
    NextSuffix(tokens, start, ElementTokens(all_), [End(false)]);
    if es == all_ {
      NextHead(tokens, start + |ElementTokens(es)|, [End(false)]);
    } else {
      var c := ElementAhead(tokens, start, es, all_);
      Opening(tokens, start + |ElementTokens(es)|, c.value);
    }
  }

  lemma ElementAhead(tokens: seq<Token>, start: nat, es: Elements, all_: Elements) returns (c: Elements)
    requires Next(tokens, start, ElementTokens(all_)) && StartsWith(es, all_) && es != all_
    ensures c.Element? && c.init == es && StartsWith(c, all_) && Next(tokens, start + |ElementTokens(es)|, Tokens(c.value))
  {
    c := NextElement(es, all_);
    StartElementTokens(c, all_);
    NextPrefix(tokens, start, ElementTokens(c), ElementTokens(all_));
    NextSuffix(tokens, start, ElementTokens(es), Tokens(c.value));
  }

  lemma UpcomingElement(tokens: seq<Token>, start: nat, es: Elements, all_: Elements) returns (c: Elements)
    requires Next(tokens, start, ElementTokens(all_) + [End(false)]) && StartsWith(es, all_)
    requires var pos := start + |ElementTokens(es)|; pos < |tokens| ==> !tokens[pos].End?
    ensures c.Element? && c.init == es && StartsWith(c, all_) && Next(tokens, start + |ElementTokens(es)|, Tokens(c.value))
  {
    AfterElements(tokens, start, es, all_);
    NextSuffix(tokens, start, ElementTokens(all_), [End(false)]);
    c := ElementAhead(tokens, start, es, all_);
  }

  lemma LastElement(tokens: seq<Token>, start: nat, es: Elements, all_: Elements)
    requires Next(tokens, start, ElementTokens(all_) + [End(false)]) && StartsWith(es, all_)
    requires var pos := start + |ElementTokens(es)|; pos < |tokens| ==> tokens[pos].End?
    ensures es == all_ && Next(tokens, start + |ElementTokens(es)|, [End(false)])
  {
    AfterElements(tokens, start, es, all_);
    NextSuffix(tokens, start, ElementTokens(all_), [End(false)]);
  }

  class Decoder {
    const tokens: seq<Token>
    var pos: nat
    var nodes: nat

    constructor (tokens: seq<Token>)
      ensures this.tokens == tokens && pos == 0 && nodes == 0
    {
      this.tokens := tokens;
      pos, nodes := 0, 0;
    }

    predicate More()
      reads this
    {
      pos < |tokens| && !tokens[pos].End?
    }

    /** scanJSONValue. `given` is the value that comes next, if one does. */
    method Value(w: World, t: Option<Type>, depth: nat, ghost given: Option<Json>) returns (ok: bool, ghost found: Json)
      requires pos <= |tokens| && depth <= MAX_DEPTH && (given.Some? ==> Next(tokens, pos, Tokens(given.value)))
      modifies this
      ensures old(pos) <= pos <= |tokens| && (ok ==> old(pos) < pos)
      ensures ok ==> Next(tokens, old(pos), Tokens(found)) && pos == old(pos) + |Tokens(found)| && nodes == old(nodes) + Count(found)
      ensures ok ==> Acceptable(w, t, depth, old(nodes), found)
      ensures given.Some? && ok ==> found == given.value
      ensures given.Some? && !ok ==> !Acceptable(w, t, depth, old(nodes), given.value)
      decreases |tokens| - pos, 1
    {
      hide Tokens, MemberTokens, ElementTokens, Next, MembersAcceptable, ElementsAcceptable, Destination;
      nodes := nodes + 1;
      ok, found := false, Plain;
      if given.Some? { Opening(tokens, pos, given.value); }
      if nodes > MAX_NODES || pos >= |tokens| { return; }
      var token := tokens[pos];
      pos := pos + 1;
      match token {
        case Str(text) =>
          ok, found := true, Quoted(text);
          OneToken(tokens, old(pos), w, t, depth, old(nodes), found);
        case Atom =>
          ok := true;
          OneToken(tokens, old(pos), w, t, depth, old(nodes), found);
        case End(_) =>
        case Begin(braces) =>
          if depth >= MAX_DEPTH { return; }
          ok, found := Container(w, t, depth, braces, given);
      }
    }

    /** The value whose opening delimiter has just been read. */
    method Container(w: World, t: Option<Type>, depth: nat, braces: bool, ghost given: Option<Json>) returns (ok: bool, ghost found: Json)
      requires 1 <= pos <= |tokens| && tokens[pos - 1] == Begin(braces) && 1 <= nodes <= MAX_NODES && depth < MAX_DEPTH
      requires given.Some? ==> Next(tokens, pos - 1, Tokens(given.value))
      modifies this
      ensures old(pos) <= pos <= |tokens|
      ensures ok ==> Next(tokens, old(pos) - 1, Tokens(found)) && pos == old(pos) - 1 + |Tokens(found)| && nodes == old(nodes) - 1 + Count(found)
      ensures ok ==> Acceptable(w, t, depth, old(nodes) - 1, found)
      ensures given.Some? && ok ==> found == given.value
      ensures given.Some? && !ok ==> !Acceptable(w, t, depth, old(nodes) - 1, given.value)
      decreases |tokens| - pos, 4
    {
      hide Tokens, MemberTokens, ElementTokens, Next, MembersAcceptable, ElementsAcceptable, Destination, Acceptable;
      if given.Some? { Opening(tokens, pos - 1, given.value); }
      var dest := Destination(w, t);
      if braces {
        ghost var ms;
        ghost var parts := if given.Some? then Some(given.value.members) else None;
        ok, ms := Object(w, dest, depth + 1, parts);
        found := Json.Object(ms);
        ContainerAcceptable(w, t, depth, old(nodes) - 1, if given.Some? then parts.value else ms, NoElements);
        if ok { ClosedObject(tokens, old(pos) - 1, ms); }
      } else {
        ghost var es;
        ghost var parts := if given.Some? then Some(given.value.elements) else None;
        ok, es := Sequence(w, dest, depth + 1, parts);
        found := Json.Sequence(es);
        ContainerAcceptable(w, t, depth, old(nodes) - 1, NoMembers, if given.Some? then parts.value else es);
        if ok { ClosedSequence(tokens, old(pos) - 1, es); }
      }
    }

    /** The members ms have been read and accepted since start. */
    ghost predicate Scanned(start: nat, before: nat, w: World, dest: Option<Type>, depth: nat, ms: Members, given: Option<Members>)
      reads this
    {
      && pos == start + |MemberTokens(ms)| && Next(tokens, start, MemberTokens(ms)) && depth <= MAX_DEPTH && nodes == before + MemberCount(ms)
      && MembersAcceptable(w, dest, depth, before, ms)
      && (given.Some? ==> Starts(ms, given.value) && Next(tokens, start, MemberTokens(given.value) + [End(true)]))
    }

    /** One round of the member loop. */
    method OneMember(w: World, dest: Option<Type>, depth: nat, seen: set<string>, fields: set<nat>,
                     ghost start: nat, ghost before: nat, ghost ms: Members, ghost given: Option<Members>)
      returns (ok: bool, seen': set<string>, fields': set<nat>, ghost next: Members)
      requires Scanned(start, before, w, dest, depth, ms, given) && Reading(w, dest, ms, seen, fields) && More()
      modifies this
      ensures old(pos) <= pos <= |tokens| && (ok ==> old(pos) < pos)
      ensures ok ==> Scanned(start, before, w, dest, depth, next, given) && Reading(w, dest, next, seen', fields')
      ensures given.Some? && !ok ==> !MembersAcceptable(w, dest, depth, before, given.value)
      decreases |tokens| - pos, 2
    {
      hide Tokens, MemberTokens, Next, MembersAcceptable, Acceptable, Reading, Selected, Keys, Distinct, FieldsOnce, Record, MemberType;
      ok, seen', fields', next := false, seen, fields, ms;
      ghost var c := ms;
      if given.Some? {
        c := UpcomingMember(tokens, start, ms, given.value);
        NextHead(tokens, pos, [Str(c.key)]);
        if MembersAcceptable(w, dest, depth, before, given.value) {
          MemberDemands(w, dest, depth, before, c, given.value);
        }
      }
      var token := tokens[pos];
      pos := pos + 1;
      if !token.Str? { return; }
      var key := token.text;
      PrefixAcceptable(w, dest, depth, before, ms);
      KeyAdmitted(w, dest, ms, key, seen, fields);
      if key in seen { return; }
      seen' := seen + {key};
      var fresh_, child;
      fresh_, child, fields' := SelectMember(w, dest, key, fields);
      if !fresh_ { return; }
      ghost var value;
      ok, value := Value(w, child, depth, if given.Some? then Some(c.value) else None);
      if ok {
        next := Member(ms, key, value);
        MemberAccepted(w, dest, depth, before, ms, key, value);
        ReadingNext(w, dest, ms, next, seen, fields);
        MemberRead(tokens, start, ms, key, value);
      }
    }

    method Object(w: World, dest: Option<Type>, depth: nat, ghost given: Option<Members>) returns (ok: bool, ghost found: Members)
      requires pos <= |tokens| && (given.Some? ==> Next(tokens, pos, MemberTokens(given.value) + [End(true)]))
      requires depth <= MAX_DEPTH && nodes <= MAX_NODES
      modifies this
      ensures old(pos) <= pos <= |tokens|
      ensures ok ==> Next(tokens, old(pos), MemberTokens(found) + [End(true)]) && pos == old(pos) + |MemberTokens(found)| + 1
      ensures ok ==> nodes == old(nodes) + MemberCount(found) && MembersAcceptable(w, dest, depth, old(nodes), found)
      ensures given.Some? && ok ==> found == given.value
      ensures given.Some? && !ok ==> !MembersAcceptable(w, dest, depth, old(nodes), given.value)
      decreases |tokens| - pos, 3
    {
      hide Tokens, MemberTokens, Next, MembersAcceptable, Acceptable, Reading, Keys, Distinct, FieldsOnce;
      ghost var start, before := pos, nodes;
      ok, found := false, NoMembers;
      NothingRead(w, dest, depth, before, tokens, start, given);
      var seen: set<string>, fields: set<nat> := {}, {};
      while More()
        invariant start <= pos <= |tokens| && Scanned(start, before, w, dest, depth, found, given)
        invariant Reading(w, dest, found, seen, fields)
        decreases |tokens| - pos
      {
        var admitted;
        admitted, seen, fields, found := OneMember(w, dest, depth, seen, fields, start, before, found, given);
        if !admitted { return; }
      }
      if given.Some? {
        LastMember(tokens, start, found, given.value);
        NextHead(tokens, pos, [End(true)]);
      }
      if pos >= |tokens| || tokens[pos] != End(true) { return; }
      assert tokens[pos..pos + 1] == [End(true)];
      pos := pos + 1;
      ok := true;
      MembersEnd(tokens, start, found);
    }

    ghost predicate ScannedElements(start: nat, before: nat, w: World, dest: Option<Type>, depth: nat, es: Elements, given: Option<Elements>)
      reads this
    {
      && pos == start + |ElementTokens(es)| && Next(tokens, start, ElementTokens(es)) && depth <= MAX_DEPTH && nodes == before + ElementCount(es)
      && ElementsAcceptable(w, dest, depth, before, es)
      && (given.Some? ==> StartsWith(es, given.value) && Next(tokens, start, ElementTokens(given.value) + [End(false)]))
    }

    method Sequence(w: World, dest: Option<Type>, depth: nat, ghost given: Option<Elements>) returns (ok: bool, ghost found: Elements)
      requires pos <= |tokens| && (given.Some? ==> Next(tokens, pos, ElementTokens(given.value) + [End(false)]))
      requires depth <= MAX_DEPTH && nodes <= MAX_NODES
      modifies this
      ensures old(pos) <= pos <= |tokens|
      ensures ok ==> Next(tokens, old(pos), ElementTokens(found) + [End(false)]) && pos == old(pos) + |ElementTokens(found)| + 1
      ensures ok ==> nodes == old(nodes) + ElementCount(found) && ElementsAcceptable(w, dest, depth, old(nodes), found)
      ensures given.Some? && ok ==> found == given.value
      ensures given.Some? && !ok ==> !ElementsAcceptable(w, dest, depth, old(nodes), given.value)
      decreases |tokens| - pos, 3
    {
      hide Tokens, ElementTokens, Next, ElementsAcceptable, Acceptable;
      ghost var start, before := pos, nodes;
      ok, found := false, NoElements;
      NoElementRead(w, dest, depth, before, tokens, start, given);
      var index := 0;
      while More()
        invariant start <= pos <= |tokens| && ScannedElements(start, before, w, dest, depth, found, given) && index == Length(found)
        decreases |tokens| - pos
      {
        ghost var c := found;
        if given.Some? {
          c := UpcomingElement(tokens, start, found, given.value);
          if ElementsAcceptable(w, dest, depth, before, given.value) { ElementDemands(w, dest, depth, before, c, given.value); }
        }
        var admitted;
        ghost var value, at := Plain, pos;
        admitted, value := Value(w, ElementType(dest, index), depth, if given.Some? then Some(c.value) else None);
        if !admitted { return; }
        ElementAccepted(w, dest, depth, before, found, value);
        NextJoin(tokens, start, ElementTokens(found), Tokens(value));
        TokensOfElement(found, value);
        found := Element(found, value);
        index := index + 1;
      }
      if given.Some? {
        LastElement(tokens, start, found, given.value);
        NextHead(tokens, pos, [End(false)]);
      }
      if pos >= |tokens| || tokens[pos] != End(false) { return; }
      ElementsEnd(tokens, start, found);
      pos := pos + 1;
      ok := true;
    }
  }

  // ---------- One stream, one value ----------

  lemma {:induction false} SameValue(tokens: seq<Token>, at: nat, a: Json, b: Json)
    requires Next(tokens, at, Tokens(a)) && Next(tokens, at, Tokens(b))
    ensures a == b
    decreases |tokens| - at, 0
  {
    Opening(tokens, at, a);
    Opening(tokens, at, b);
    if a.Object? {
      NothingStarts(a.members);
      NothingStarts(b.members);
      SameRest(tokens, at + 1, NoMembers, a.members, b.members);
    } else if a.Sequence? {
      NothingStartsWith(a.elements);
      NothingStartsWith(b.elements);
      SameElements(tokens, at + 1, NoElements, a.elements, b.elements);
    }
  }

  lemma {:induction false} SameRest(tokens: seq<Token>, start: nat, ms: Members, a: Members, b: Members)
    requires Next(tokens, start, MemberTokens(a) + [End(true)]) && Next(tokens, start, MemberTokens(b) + [End(true)])
    requires Starts(ms, a) && Starts(ms, b)
    ensures a == b
    decreases |tokens| - start - |MemberTokens(ms)|, 1
  {
    hide Tokens, Next;
    var pos := start + |MemberTokens(ms)|;
    if pos < |tokens| && !tokens[pos].End? {
      var c := UpcomingMember(tokens, start, ms, a);
      var d := UpcomingMember(tokens, start, ms, b);
      NextHead(tokens, pos, [Str(c.key)]);
      NextHead(tokens, pos, [Str(d.key)]);
      SameValue(tokens, pos + 1, c.value, d.value);
      SameRest(tokens, start, c, a, b);
    } else {
      LastMember(tokens, start, ms, a);
      LastMember(tokens, start, ms, b);
    }
  }

  lemma {:induction false} SameElements(tokens: seq<Token>, start: nat, es: Elements, a: Elements, b: Elements)
    requires Next(tokens, start, ElementTokens(a) + [End(false)]) && Next(tokens, start, ElementTokens(b) + [End(false)])
    requires StartsWith(es, a) && StartsWith(es, b)
    ensures a == b
    decreases |tokens| - start - |ElementTokens(es)|, 1
  {
    var pos := start + |ElementTokens(es)|;
    if pos < |tokens| && !tokens[pos].End? {
      var c := UpcomingElement(tokens, start, es, a);
      var d := UpcomingElement(tokens, start, es, b);
      Opening(tokens, pos, c.value);
      SameValue(tokens, pos, c.value, d.value);
      SameElements(tokens, start, c, a, b);
    } else {
      LastElement(tokens, start, es, a);
      LastElement(tokens, start, es, b);
    }
  }

  /** rejectDuplicateJSONKeys: the stream holds exactly one value, and that value repeats
      no key, selects no record field twice and stays within both budgets. */
  method RejectDuplicateJSONKeys(w: World, t: Option<Type>, tokens: seq<Token>) returns (ok: bool)
    ensures forall j :: Tokens(j) == tokens ==> (ok <==> Acceptable(w, t, 0, 0, j))
    ensures ok ==> exists j :: Tokens(j) == tokens
  {
    hide Tokens, Acceptable;
    ghost var given: Option<Json> := None;
    if j :| Tokens(j) == tokens { given := Some(j); }
    var dec := new Decoder(tokens);
    assert tokens[0..|tokens|] == tokens;
    ghost var found;
    ok, found := dec.Value(w, t, 0, given);
    ok := ok && dec.pos == |tokens|;
    forall j | Tokens(j) == tokens ensures given == Some(j) {
      SameValue(tokens, 0, j, given.value);
    }
    if ok { assert Tokens(found) == tokens; }
  }

  /** The field cache, filled for every struct in sight. */
  method Records(ts: Types) returns (records: map<nat, seq<Item>>)
    requires Closed(ts)
    ensures records.Keys == ts.structs.Keys && forall s :: s in records ==> IsRecord(ts, s, records[s])
  {
    hide Closed, IsRecord;
    records := map[];
    var left := ts.structs.Keys;
    while left != {}
      invariant left <= ts.structs.Keys && records.Keys == ts.structs.Keys - left
      invariant forall s :: s in records ==> IsRecord(ts, s, records[s])
      decreases |left|
    {
      var s :| s in left;
      var record := JsonFields(ts, s);
      records := records[s := record];
      left := left - {s};
    }
  }

  /** The scan of a destination type, with the record fields jsonFields gives its structs. */
  method Scan(ts: Types, fold: (string, string) -> bool, t: Type, tokens: seq<Token>) returns (ok: bool, w: World)
    requires Closed(ts)
    ensures w.fold == fold && w.custom == ts.custom && forall s :: s in ts.structs ==> IsRecord(ts, s, w.record(s))
    ensures forall j :: Tokens(j) == tokens ==> (ok <==> Acceptable(w, Some(t), 0, 0, j))
    ensures ok ==> exists j :: Tokens(j) == tokens
  {
    hide Closed, IsRecord, Tokens, Acceptable;
    var records := Records(ts);
    w := World((s: nat) => if s in records then records[s] else [], fold, ts.custom);
    ok := RejectDuplicateJSONKeys(w, Some(t), tokens);
  }
}
