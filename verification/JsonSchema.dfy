/** JSON values, the schema keywords that projection understands, and projection itself
    (literalContract, lookupLiteral and childContract in packagev3/expression_contracts.go). */
module JsonSchema {
  import opened Common
  import opened Text

  datatype Value =
    | Null
    | Bool(truth: bool)
    | Number(number: real)
    | Str(text: string)
    | Arr(items: seq<Value>)
    | Obj(members: map<string, Value>)

  /** What the model takes from outside. `other` is the meaning of the keywords that
      projection does not interpret, for a value under an object of a schema document: it
      sees the document, as a reference does, and the whole object, as keywords do that
      depend on their neighbours. `dynamicText` recognises a runtime reference; `fits` is
      the size bound on a literal's encoding. */
  datatype Library = Library(
    other: (Value, map<string, Value>, Value) -> bool,
    dynamicText: string -> bool,
    fits: Value -> bool)

  // ---------- Instances ----------

  predicate HasType(name: string, v: Value) {
    match v
    case Null => name == "null"
    case Bool(_) => name == "boolean"
    case Number(n) => name == "number" || (name == "integer" && n.Floor as real == n)
    case Str(_) => name == "string"
    case Arr(_) => name == "array"
    case Obj(_) => name == "object"
  }

  /** listValues: the strings of an array, and nothing of any other value. */
  function Strings(v: Value): set<string> {
    if v.Arr? then set i | 0 <= i < |v.items| && v.items[i].Str? :: v.items[i].text else {}
  }

  predicate TypeOk(t: Value, v: Value) {
    if t.Str? then HasType(t.text, v) else exists name :: name in Strings(t) && HasType(name, v)
  }

  /** JSON Schema 2020-12 on the keywords projection reads: type and const (Validation,
      sections 6.1.1 and 6.1.3), required (6.5.3), properties and additionalProperties
      (Core, sections 10.3.2.1 and 10.3.2.3), for a subschema of the document `root`. */
  predicate Satisfies(l: Library, root: Value, schema: Value, v: Value)
    decreases schema
  {
    match schema
    case Bool(b) => b
    case Obj(m) =>
      && ("const" in m ==> v == m["const"])
      && ("type" in m ==> TypeOk(m["type"], v))
      && ("required" in m && v.Obj? ==> Strings(m["required"]) <= v.members.Keys)
      && ("properties" in m && m["properties"].Obj? && v.Obj? ==>
            forall k :: k in m["properties"].members && k in v.members ==> Satisfies(l, root, m["properties"].members[k], v.members[k]))
      && ("additionalProperties" in m && "patternProperties" !in m && v.Obj? ==>
            forall k :: k in v.members && !("properties" in m && m["properties"].Obj? && k in m["properties"].members) ==>
              Satisfies(l, root, m["additionalProperties"], v.members[k]))
      && (m.Keys <= READ_KEYWORDS || l.other(root, m, v))
    case _ => false
  }

  const READ_KEYWORDS: set<string> := {"const", "type", "required", "properties", "additionalProperties"}

  /** The value is an instance of the schema as a document of its own. */
  predicate Meets(l: Library, schema: Value, v: Value) {
    Satisfies(l, schema, schema, v)
  }

  const NEVER := Bool(false)

  function Constant(v: Value): Value {
    Obj(map["const" := v])
  }

  lemma ConstantSatisfied(l: Library, c: Value, v: Value)
    ensures Meets(l, Constant(c), v) <==> v == c
  {
  }

  // ---------- Literals ----------

  /** Whether a runtime reference occurs anywhere in reviewed data. */
  predicate Dynamic(l: Library, v: Value)
    decreases v
  {
    match v
    case Str(text) => l.dynamicText(text)
    case Arr(items) => exists i :: 0 <= i < |items| && Dynamic(l, items[i])
    case Obj(m) => exists k :: k in m && Dynamic(l, m[k])
    case _ => false
  }

  /** Data is dynamic exactly when a path leads to a text that is. */
  lemma {:induction false} DynamicIs(l: Library, v: Value)
    ensures Dynamic(l, v) <==> exists path, text :: Lookup(v, path) == Some(Str(text)) && l.dynamicText(text)
    decreases v
  {
    forall path, text | Lookup(v, path) == Some(Str(text)) && l.dynamicText(text) ensures Dynamic(l, v) {
      DynamicFound(l, v, path, text);
    }
    if Dynamic(l, v) { DynamicPath(l, v); }
  }

  lemma {:induction false} DynamicFound(l: Library, v: Value, path: seq<string>, text: string)
    requires Lookup(v, path) == Some(Str(text)) && l.dynamicText(text)
    ensures Dynamic(l, v)
    decreases |path|
  {
    if path != [] {
      match v {
        case Obj(m) => DynamicFound(l, m[path[0]], path[1..], text);
        case Arr(items) => DynamicFound(l, items[Numeral(path[0])], path[1..], text);
      }
    }
  }

  lemma {:induction false} DynamicPath(l: Library, v: Value)
    requires Dynamic(l, v)
    ensures exists path, text :: Lookup(v, path) == Some(Str(text)) && l.dynamicText(text)
    decreases v
  {
    match v {
      case Str(text) =>
        assert Lookup(v, []) == Some(Str(text));
      case Arr(items) =>
        var i :| 0 <= i < |items| && Dynamic(l, items[i]);
        DynamicPath(l, items[i]);
        var path, text :| Lookup(items[i], path) == Some(Str(text)) && l.dynamicText(text);
        NumeralOfDecimal(i);
        assert CanonicalIndex(Decimal(i), |items|);
        assert ([Decimal(i)] + path)[1..] == path;
        assert Lookup(v, [Decimal(i)] + path) == Some(Str(text));
      case Obj(m) =>
        var k :| k in m && Dynamic(l, m[k]);
        DynamicPath(l, m[k]);
        var path, text :| Lookup(m[k], path) == Some(Str(text)) && l.dynamicText(text);
        assert ([k] + path)[1..] == path;
        assert Lookup(v, [k] + path) == Some(Str(text));
    }
  }

  /** A declared or projected contract: a schema, or nothing known. */
  datatype Contract = Unproved | Known(schema: Value)

  function LiteralContract(l: Library, v: Value): Contract {
    if Dynamic(l, v) || !l.fits(Constant(v)) then Unproved else Known(Constant(v))
  }

  predicate CanonicalIndex(part: string, n: nat) {
    && part != [] && (forall i :: 0 <= i < |part| ==> IsDigit(part[i]))
    && Numeral(part) < n && Decimal(Numeral(part)) == part
  }

  function Lookup(v: Value, parts: seq<string>): Option<Value>
    decreases |parts|
  {
    if parts == [] then Some(v)
    else match v
      case Obj(m) => if parts[0] in m then Lookup(m[parts[0]], parts[1..]) else None
      case Arr(items) => if CanonicalIndex(parts[0], |items|) then Lookup(items[Numeral(parts[0])], parts[1..]) else None
      case _ => None
  }

  /** One step of a lookup: a member by its name, an item by its decimal position, and nothing
      else. */
  lemma LookupStep(v: Value, part: string, found: Value)
    ensures Lookup(v, [part]) == Some(found) <==>
            || (v.Obj? && part in v.members && v.members[part] == found)
            || (v.Arr? && exists i: nat :: i < |v.items| && part == Decimal(i) && v.items[i] == found)
  {
    assert [part][1..] == [];
    if v.Arr? {
      if i: nat :| i < |v.items| && part == Decimal(i) && v.items[i] == found {
        NumeralOfDecimal(i);
        assert CanonicalIndex(part, |v.items|);
      }
    }
  }

  lemma {:induction false} LookupJoined(v: Value, p: seq<string>, q: seq<string>)
    ensures Lookup(v, p + q) == (if Lookup(v, p).Some? then Lookup(Lookup(v, p).value, q) else None)
    decreases |p|
  {
    if p == [] {
      assert p + q == q;
    } else {
      assert (p + q)[1..] == p[1..] + q && (p + q)[0] == p[0];
      match v {
        case Obj(m) => if p[0] in m { LookupJoined(m[p[0]], p[1..], q); }
        case Arr(items) => if CanonicalIndex(p[0], |items|) { LookupJoined(items[Numeral(p[0])], p[1..], q); }
        case _ =>
      }
    }
  }

  /** The loop of lookupLiteral. */
  method LookupLiteral(value: Value, parts: seq<string>) returns (r: Option<Value>)
    ensures r == Lookup(value, parts)
  {
    var v := value;
    for i := 0 to |parts|
      invariant Lookup(value, parts) == Lookup(v, parts[i..])
    {
      match v {
        case Obj(m) =>
          if parts[i] !in m { return None; }
          v := m[parts[i]];
        case Arr(items) =>
          if !CanonicalIndex(parts[i], |items|) { return None; }
          v := items[Numeral(parts[i])];
        case _ => return None;
      }
    }
    return Some(v);
  }

  // ---------- Projection ----------

  /** One step into an object schema that has no const: the child schema, `false` for a
      member the schema forbids, or nothing proved. */
  function Member(m: map<string, Value>, part: string): Contract {
    if !(m.Keys <= {"type", "properties", "required", "additionalProperties"}) then Unproved
    else if "type" !in m || m["type"] != Str("object") || "properties" !in m || !m["properties"].Obj? then Unproved
    else if part !in m["properties"].members then
      if "additionalProperties" in m && m["additionalProperties"] == Bool(false) then Known(NEVER) else Unproved
    else if "required" in m && part in Strings(m["required"]) then Known(m["properties"].members[part])
    else Unproved
  }

  /** The schema lists this name among the required ones. */
  predicate Requires(m: map<string, Value>, part: string) {
    "required" in m && m["required"].Arr? && exists i :: 0 <= i < |m["required"].items| && m["required"].items[i] == Str(part)
  }

  predicate Forbids(m: map<string, Value>, part: string) {
    Member(m, part).Known? && "properties" in m && m["properties"].Obj? && part !in m["properties"].members
  }

  function ProjectConst(l: Library, m: map<string, Value>, parts: seq<string>): Contract
    requires "const" in m
  {
    if !Meets(l, Obj(m), m["const"]) then Unproved
    else match Lookup(m["const"], parts)
      case None => Known(NEVER)
      case Some(v) => LiteralContract(l, v)
  }

  function Project(l: Library, root: Value, parts: seq<string>): Contract
    decreases |parts|
  {
    if parts == [] then Known(root)
    else if !root.Obj? then Unproved
    else if "const" in root.members then ProjectConst(l, root.members, parts)
    else
      var child := Member(root.members, parts[0]);
      if child.Unproved? || Forbids(root.members, parts[0]) then child
      else Project(l, child.schema, parts[1..])
  }

  function ChildContract(l: Library, c: Contract, parts: seq<string>): Contract {
    if c.Unproved? then Unproved else Project(l, c.schema, parts)
  }

  /** An object schema with no other keyword than these four, and its properties. */
  predicate PlainObject(s: Value) {
    && s.Obj? && (forall k :: k in s.members ==> k == "type" || k == "properties" || k == "required" || k == "additionalProperties")
    && "type" in s.members && s.members["type"] == Str("object") && "properties" in s.members && s.members["properties"].Obj?
  }

  /** Exactly how far projection gets: into required properties of plain object schemas, to
      `false` where one forbids the name, into the data of a constant that meets its own
      schema, and nowhere else. */
  lemma ProjectExactly(l: Library, s: Value, part: string, rest: seq<string>)
    ensures Project(l, s, []) == Known(s)
    ensures s.Obj? && "const" in s.members ==>
              Project(l, s, [part] + rest) ==
              (if !Meets(l, s, s.members["const"]) then Unproved
               else match Lookup(s.members["const"], [part] + rest)
                 case None => Known(Bool(false))
                 case Some(v) => if Dynamic(l, v) || !l.fits(Obj(map["const" := v])) then Unproved else Known(Obj(map["const" := v])))
    ensures !(s.Obj? && "const" in s.members) ==>
              Project(l, s, [part] + rest) ==
              (if PlainObject(s) && part in s.members["properties"].members && Requires(s.members, part)
               then Project(l, s.members["properties"].members[part], rest)
               else if PlainObject(s) && part !in s.members["properties"].members
                       && "additionalProperties" in s.members && s.members["additionalProperties"] == Bool(false)
               then Known(Bool(false)) else Unproved)
  {
    assert ([part] + rest)[0] == part && ([part] + rest)[1..] == rest;
    hide Satisfies, Lookup, Dynamic;
    if s.Obj? { RequiresIs(s.members, part); }
    hide Requires, Strings;
  }

  lemma RequiresIs(m: map<string, Value>, part: string)
    ensures Requires(m, part) <==> "required" in m && part in Strings(m["required"])
  {
  }

  /** The types of the six kinds of values; an integer is a number without a fraction. */
  lemma TypesAre(v: Value)
    ensures HasType("null", v) <==> v == Null
    ensures HasType("boolean", v) <==> v.Bool?
    ensures HasType("string", v) <==> v.Str?
    ensures HasType("array", v) <==> v.Arr?
    ensures HasType("object", v) <==> v.Obj?
    ensures HasType("number", v) <==> v.Number?
    ensures HasType("integer", v) <==> v.Number? && exists n :: Whole(v.number, n)
    ensures !HasType("", v) && !HasType("any", v)
  {
    assert |"null"| == 4 && |"boolean"| == 7 && |"string"| == 6 && |"array"| == 5 && |"object"| == 6 && |"number"| == 6 && |"integer"| == 7 && |"any"| == 3;
    assert "string"[0] == 's' && "object"[0] == 'o' && "number"[0] == 'n' && "boolean"[0] == 'b' && "integer"[0] == 'i';
    if v.Number? {
      if n :| Whole(v.number, n) { assert v.number.Floor == n; }
      assert v.number.Floor as real == v.number ==> Whole(v.number, v.number.Floor);
    }
  }

  predicate Whole(x: real, n: int) {
    x == n as real
  }

  /** The loop of childContract. */
  method ChildContractLoop(l: Library, c: Contract, parts: seq<string>) returns (r: Contract)
    ensures r == ChildContract(l, c, parts)
  {
    if c.Unproved? { return Unproved; }
    if |parts| == 0 { return c; }
    var root := c.schema;
    for i := 0 to |parts|
      invariant Project(l, c.schema, parts) == Project(l, root, parts[i..])
    {
      assert parts[i..][1..] == parts[i + 1..];
      if !root.Obj? { return Unproved; }
      var m := root.members;
      if "const" in m {
        if !Meets(l, root, m["const"]) { return Unproved; }
        var found := LookupLiteral(m["const"], parts[i..]);
        if found.None? { return Known(NEVER); }
        return LiteralContract(l, found.value);
      }
      if exists k :: k in m && k !in {"type", "properties", "required", "additionalProperties"} { return Unproved; }
      if "type" !in m || m["type"] != Str("object") || "properties" !in m || !m["properties"].Obj? { return Unproved; }
      if parts[i] !in m["properties"].members {
        return if "additionalProperties" in m && m["additionalProperties"] == Bool(false) then Known(NEVER) else Unproved;
      }
      if "required" !in m || parts[i] !in Strings(m["required"]) { return Unproved; }
      root := m["properties"].members[parts[i]];
    }
    return Known(root);
  }

  /** What a contract promises of an optional value: `false` that there is none, any
      other schema that there is one and that it satisfies the schema. */
  predicate Promises(l: Library, c: Value, v: Option<Value>) {
    if c == NEVER then v.None? else v.Some? && Meets(l, c, v.value)
  }

  // ---------- Schemas that stand alone ----------

  const REFERENCES: set<string> := {"$ref", "$dynamicRef", "$recursiveRef"}

  /** No reference keyword anywhere in the schema; data below const and enum and the names
      of properties are not keywords. */
  predicate StandsAlone(s: Value)
    decreases s
  {
    match s
    case Obj(m) =>
      && m.Keys !! REFERENCES
      && forall k :: k in m ==>
           || k in {"const", "enum"}
           || (if k == "properties" && m[k].Obj? then forall n :: n in m[k].members ==> StandsAlone(m[k].members[n]) else StandsAlone(m[k]))
    case Arr(items) => forall i :: 0 <= i < |items| ==> StandsAlone(items[i])
    case _ => true
  }

  /** Only references look at the document around an object. */
  ghost predicate LocalMeaning(l: Library) {
    forall a, b, m, v :: StandsAlone(Obj(m)) ==> l.other(a, m, v) == l.other(b, m, v)
  }

  /** So a schema that stands alone means the same in every document. */
  lemma {:induction false} DocumentImmaterial(l: Library, a: Value, b: Value, s: Value, v: Value)
    requires LocalMeaning(l) && StandsAlone(s) && Satisfies(l, a, s, v)
    ensures Satisfies(l, b, s, v)
    decreases s
  {
    if s.Obj? {
      var m := s.members;
      if "properties" in m && m["properties"].Obj? && v.Obj? {
        forall k | k in m["properties"].members && k in v.members ensures Satisfies(l, b, m["properties"].members[k], v.members[k]) {
          DocumentImmaterial(l, a, b, m["properties"].members[k], v.members[k]);
        }
      }
      if "additionalProperties" in m && "patternProperties" !in m && v.Obj? {
        forall k | k in v.members && !("properties" in m && m["properties"].Obj? && k in m["properties"].members)
          ensures Satisfies(l, b, m["additionalProperties"], v.members[k])
        {
          DocumentImmaterial(l, a, b, m["additionalProperties"], v.members[k]);
        }
      }
    }
  }

  lemma ConstantStandsAlone(v: Value)
    ensures StandsAlone(Constant(v)) && StandsAlone(NEVER)
  {
  }

  /** Projecting a schema that stands alone gives one that does. */
  lemma {:induction false} ProjectionStandsAlone(l: Library, root: Value, parts: seq<string>)
    requires StandsAlone(root) && Project(l, root, parts).Known?
    ensures StandsAlone(Project(l, root, parts).schema)
    decreases |parts|
  {
    if parts != [] {
      var m := root.members;
      if "const" in m {
        var found := Lookup(m["const"], parts);
        if found.Some? { ConstantStandsAlone(found.value); }
      } else if !Forbids(m, parts[0]) {
        ProjectionStandsAlone(l, Member(m, parts[0]).schema, parts[1..]);
      }
    }
  }

  lemma MemberSound(l: Library, root: Value, m: map<string, Value>, part: string, v: Value)
    requires "const" !in m && Satisfies(l, root, Obj(m), v) && Member(m, part).Known?
    ensures v.Obj?
    ensures Forbids(m, part) ==> part !in v.members
    ensures !Forbids(m, part) ==> part in v.members && Satisfies(l, root, Member(m, part).schema, v.members[part])
  {
  }

  /** Projecting from within a document. */
  lemma {:induction false} ProjectionWithin(l: Library, root: Value, s: Value, parts: seq<string>, v: Value)
    requires LocalMeaning(l) && Satisfies(l, root, s, v) && Project(l, s, parts).Known? && StandsAlone(Project(l, s, parts).schema)
    ensures Promises(l, Project(l, s, parts).schema, Lookup(v, parts))
    decreases |parts|
  {
    if parts == [] {
      DocumentImmaterial(l, root, s, s, v);
    } else {
      var m := s.members;
      if "const" in m {
        assert v == m["const"];
        var found := Lookup(v, parts);
        if found.Some? { ConstantSatisfied(l, found.value, found.value); }
      } else {
        MemberSound(l, root, m, parts[0], v);
        if !Forbids(m, parts[0]) {
          ProjectionWithin(l, root, Member(m, parts[0]).schema, parts[1..], v.members[parts[0]]);
        }
      }
    }
  }

  /** Projection is sound for every path and instance where the schema stands alone: a schema
      other than `false` means the instance has a value at that path satisfying it, and
      `false` means it has none. */
  lemma ProjectionSound(l: Library, root: Value, parts: seq<string>, v: Value)
    requires LocalMeaning(l) && StandsAlone(root) && Meets(l, root, v) && Project(l, root, parts).Known?
    ensures Promises(l, Project(l, root, parts).schema, Lookup(v, parts))
  {
    ProjectionStandsAlone(l, root, parts);
    ProjectionWithin(l, root, root, parts, v);
  }

  // ---------- A schema that does not ----------

  function TypeOnly(name: string): Value {
    Obj(map["type" := Str(name)])
  }

  /** An object schema that requires both of its properties. */
  function Both(x: string, xSchema: Value, y: string, ySchema: Value): Value {
    Obj(map["type" := Str("object"), "properties" := Obj(map[x := xSchema, y := ySchema]), "required" := Arr([Str(x), Str(y)])])
  }

  /** The type that the document's property c declares. */
  function TypeOfC(root: Value): Option<Value> {
    if root.Obj? && "properties" in root.members && root.members["properties"].Obj? && "c" in root.members["properties"].members
       && root.members["properties"].members["c"].Obj? && "type" in root.members["properties"].members["c"].members
    then Some(root.members["properties"].members["c"].members["type"]) else None
  }

  /** A library for the reference #/properties/c to a property that declares its type only. */
  function ReferenceToC(): Library {
    Library((root, m: map<string, Value>, v) => "$ref" in m ==> TypeOfC(root).Some? && TypeOk(TypeOfC(root).value, v), s => false, v => true)
  }

  function InnerSchema(): Value {
    Both("c", TypeOnly("string"), "d", Obj(map["$ref" := Str("#/properties/c")]))
  }

  /** Properties b and c; below b the reference means the integer c of the whole document. */
  function OuterSchema(): Value {
    Both("b", InnerSchema(), "c", TypeOnly("integer"))
  }

  function InnerInstance(): Value {
    Obj(map["c" := Str("x"), "d" := Number(1.0)])
  }

  function OuterInstance(): Value {
    Obj(map["b" := InnerInstance(), "c" := Number(1.0)])
  }

  lemma BothKeywords(x: string, xSchema: Value, y: string, ySchema: Value, v: Value)
    requires x != y && v.Obj?
    ensures var m := Both(x, xSchema, y, ySchema).members;
            && m.Keys == {"type", "properties", "required"} && m.Keys <= READ_KEYWORDS && "const" !in m && "additionalProperties" !in m
            && TypeOk(m["type"], v) && Strings(m["required"]) == {x, y} && m["properties"] == Obj(map[x := xSchema, y := ySchema])
  {
    var m := Both(x, xSchema, y, ySchema).members;
    assert m["required"].items[0] == Str(x) && m["required"].items[1] == Str(y);
  }

  lemma BothSatisfied(l: Library, root: Value, x: string, xSchema: Value, y: string, ySchema: Value, vx: Value, vy: Value)
    requires x != y
    ensures Satisfies(l, root, Both(x, xSchema, y, ySchema), Obj(map[x := vx, y := vy]))
            <==> Satisfies(l, root, xSchema, vx) && Satisfies(l, root, ySchema, vy)
  {
    hide TypeOk, Strings, Both;
    BothKeywords(x, xSchema, y, ySchema, Obj(map[x := vx, y := vy]));
    BothIs(x, xSchema, y, ySchema);
  }

  lemma BothIs(x: string, xSchema: Value, y: string, ySchema: Value)
    ensures Both(x, xSchema, y, ySchema).Obj?
  {
  }

  lemma BothProjects(l: Library, x: string, xSchema: Value, y: string, ySchema: Value)
    requires x != y
    ensures Project(l, Both(x, xSchema, y, ySchema), [x]) == Known(xSchema)
  {
    var m := Both(x, xSchema, y, ySchema).members;
    assert m["required"].items[0] == Str(x);
    assert Member(m, x) == Known(xSchema) && !Forbids(m, x);
    assert Project(l, xSchema, []) == Known(xSchema);
  }

  lemma ReferenceMeans(root: Value, v: Value)
    ensures Satisfies(ReferenceToC(), root, Obj(map["$ref" := Str("#/properties/c")]), v)
            <==> TypeOfC(root).Some? && TypeOk(TypeOfC(root).value, v)
  {
    hide TypeOfC, TypeOk;
    assert "$ref" !in READ_KEYWORDS;
  }

  lemma TypeMeans(l: Library, root: Value, name: string, v: Value)
    ensures Satisfies(l, root, TypeOnly(name), v) <==> HasType(name, v)
  {
  }

  /** What the inner instance is under any document. */
  lemma InnerMeans(root: Value)
    ensures Satisfies(ReferenceToC(), root, InnerSchema(), InnerInstance()) <==> TypeOfC(root).Some? && TypeOk(TypeOfC(root).value, Number(1.0))
  {
    hide Satisfies, TypeOfC, ReferenceToC, TypeOk, Both;
    assert "c"[0] != "d"[0];
    BothSatisfied(ReferenceToC(), root, "c", TypeOnly("string"), "d", Obj(map["$ref" := Str("#/properties/c")]), Str("x"), Number(1.0));
    ReferenceMeans(root, Number(1.0));
    TypeMeans(ReferenceToC(), root, "string", Str("x"));
  }

  lemma DocumentTypes()
    ensures TypeOfC(OuterSchema()) == Some(Str("integer")) && TypeOfC(InnerSchema()) == Some(Str("string"))
    ensures TypeOk(Str("integer"), Number(1.0)) && !TypeOk(Str("string"), Number(1.0)) && InnerSchema() != NEVER
  {
    assert "b"[0] != "c"[0] && "c"[0] != "d"[0];
  }

  lemma OuterMeets()
    ensures Meets(ReferenceToC(), OuterSchema(), OuterInstance())
  {
    hide Satisfies, TypeOfC, ReferenceToC, TypeOk, Both, InnerSchema, InnerInstance;
    DocumentTypes();
    InnerMeans(OuterSchema());
    assert "b"[0] != "c"[0];
    BothSatisfied(ReferenceToC(), OuterSchema(), "b", InnerSchema(), "c", TypeOnly("integer"), InnerInstance(), Number(1.0));
    TypeMeans(ReferenceToC(), OuterSchema(), "integer", Number(1.0));
  }

  lemma OuterProjects()
    ensures Project(ReferenceToC(), OuterSchema(), ["b"]) == Known(InnerSchema())
    ensures Lookup(OuterInstance(), ["b"]) == Some(InnerInstance())
  {
    hide Project, ReferenceToC, Both, InnerSchema, InnerInstance;
    assert "b"[0] != "c"[0];
    BothProjects(ReferenceToC(), "b", InnerSchema(), "c", TypeOnly("integer"));
    assert Lookup(InnerInstance(), []) == Some(InnerInstance());
  }

  lemma MeaningIsLocal()
    ensures LocalMeaning(ReferenceToC())
  {
    hide TypeOfC, TypeOk;
  }

  /** Projecting to b carries the reference along and drops the document it refers to: the
      instance has no value at b that satisfies what projection proves of it. */
  lemma ReferenceMisleads()
    ensures LocalMeaning(ReferenceToC()) && Meets(ReferenceToC(), OuterSchema(), OuterInstance())
    ensures Project(ReferenceToC(), OuterSchema(), ["b"]) == Known(InnerSchema())
    ensures !Promises(ReferenceToC(), InnerSchema(), Lookup(OuterInstance(), ["b"]))
  {
    hide Satisfies, LocalMeaning, Project, ReferenceToC, Both, InnerSchema, InnerInstance, OuterSchema, OuterInstance, TypeOfC, TypeOk, Lookup;
    MeaningIsLocal();
    DocumentTypes();
    OuterMeets();
    OuterProjects();
    InnerMeans(InnerSchema());
  }

  lemma ConstantProjects(l: Library, c: Value, q: seq<string>)
    requires q != []
    ensures Project(l, Constant(c), q)
            == match Lookup(c, q) case None => Known(NEVER) case Some(v) => LiteralContract(l, v)
  {
    ConstantSatisfied(l, c, c);
  }

  /** Projecting in two stages, when that is known, equals projecting along the joined path. */
  lemma {:induction false} ProjectionJoined(l: Library, root: Value, p: seq<string>, q: seq<string>)
    requires ChildContract(l, Project(l, root, p), q).Known?
    ensures Project(l, root, p + q) == ChildContract(l, Project(l, root, p), q)
    decreases |p|
  {
    if p == [] {
      assert p + q == q;
    } else if q == [] {
      assert p + q == p;
    } else {
      var m := root.members;
      assert (p + q)[0] == p[0] && (p + q)[1..] == p[1..] + q;
      if "const" in m {
        LookupJoined(m["const"], p, q);
        ConstantProjects(l, Lookup(m["const"], p).value, q);
      } else {
        ProjectionJoined(l, Member(m, p[0]).schema, p[1..], q);
      }
    }
  }
}
