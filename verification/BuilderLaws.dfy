/**
 Laws of the builder: every well-formed schema has a JSON form that builds to it, and which JSON
 builds at all, told from what its own parts build to.
 */
module BuilderLaws {
  import opened Basics
  import opened JsonValues
  import opened Schemas
  import opened SchemaReading
  import opened RoundTrips

  // ----- Writing a schema out in full -------------------------------------------------------

  function With(f: map<string, Json>, key: string, v: Option<Json>): map<string, Json> {
    if v.Some? then f[key := v.value] else f
  }

  function IntOf(n: Option<int64>): Option<Json> { if n.Some? then Some(Int(n.value)) else None }

  function DecOf(r: Option<real>): Option<Json> { if r.Some? then Some(Dec(r.value)) else None }

  function BoolOf(b: Option<bool>): Option<Json> { if b.Some? then Some(Bool(b.value)) else None }

  /** The names, in some order. */
  ghost function NameList(names: set<string>): (r: seq<Json>)
    ensures forall i | 0 <= i < |r| :: r[i].Str? && r[i].s in names
    ensures forall name | name in names :: Str(name) in r
  {
    if names == {} then [] else
    var name :| name in names;
    [Str(name)] + NameList(names - {name})
  }

  function Header(typeName: string, m: Mixin): map<string, Json> {
    map["type" := Str(typeName), "name" := Str(m.name), "description" := Str(m.description)]
  }

  function Bounds(f: map<string, Json>, min: Option<Json>, max: Option<Json>, exMin: Option<bool>, exMax: Option<bool>): map<string, Json> {
    With(With(With(With(f, "minimum", min), "maximum", max), "exclusiveMinimum", BoolOf(exMin)), "exclusiveMaximum", BoolOf(exMax))
  }

  /** Every attribute of the schema, those included that the Map methods drop; a `returns` of null is
      none at all. */
  ghost function Describe(s: Schema): (j: Json)
    ensures j.Obj?
    decreases s, 1
  {
    match s
    case AnySchema(m) => Obj(Header("any", m))
    case NullSchema(m) => Obj(Header("null", m))
    case BoolSchema(m) => Obj(Header("bool", m))
    case NumberSchema(m, min, max, exMin, exMax) => Obj(Bounds(Header("number", m), DecOf(min), DecOf(max), exMin, exMax))
    case IntegerSchema(m, min, max, exMin, exMax) => Obj(Bounds(Header("integer", m), IntOf(min), IntOf(max), exMin, exMax))
    case StringSchema(m, max, min) => Obj(With(With(Header("string", m), "maxLength", IntOf(max)), "minLength", IntOf(min)))
    case AnyOfSchema(m, choices) => Obj(Header("anyOf", m)["anyOf" := DescribeAll(s, choices)])
    case AllOfSchema(m, choices) => Obj(Header("allOf", m)["allOf" := DescribeAll(s, choices)])
    case NotSchema(m, child) => Obj(Header("not", m)["not" := Describe(child)])
    case ListSchema(m, item, min, max) =>
      Obj(With(With(Header("list", m)["items" := Describe(item)], "minItems", IntOf(min)), "maxItems", IntOf(max)))
    case TupleSchema(m, children, additional) =>
      Obj(With(Header("list", m)["items" := DescribeAll(s, children)], "additionalItems", DescribeSome(s, additional)))
    case ObjectSchema(m, properties, required, additional) =>
      Obj(With(Header("object", m)["properties" := DescribeProperties(s)]
                                  ["requires" := List(NameList(required.Keys))],
               "additionalProperties", DescribeSome(s, additional)))
    case MethodSchema(m, params, returns_, additional) =>
      Obj(With(Header("method", m)["params" := DescribeAll(s, params)]
                                  ["returns" := DescribeReturns(s)],
               "additionalParams", DescribeSome(s, additional)))
  }

  ghost function DescribeSome(parent: Schema, s: Option<Schema>): (r: Option<Json>)
    requires s.Some? ==> s.value < parent
    decreases parent, 0
  {
    if s.Some? then Some(Describe(s.value)) else None
  }

  ghost function DescribeReturns(s: Schema): Json
    requires s.MethodSchema?
    decreases s, 0
  {
    if s.returns_.Some? then Describe(s.returns_.value) else Null
  }

  ghost function DescribeProperties(s: Schema): (j: Json)
    requires s.ObjectSchema?
    ensures j.Obj? && j.fields.Keys == s.properties.Keys
    ensures forall p | p in s.properties :: j.fields[p] == Describe(s.properties[p])
    decreases s, 0
  {
    Obj(map p | p in s.properties :: Describe(s.properties[p]))
  }

  ghost function DescribeAll(parent: Schema, schemas: seq<Schema>): (j: Json)
    requires forall i | 0 <= i < |schemas| :: schemas[i] < parent
    ensures j.List? && |j.items| == |schemas| && forall i | 0 <= i < |schemas| :: j.items[i] == Describe(schemas[i])
    decreases parent, 0
  {
    List(seq(|schemas|, i requires 0 <= i < |schemas| => Describe(schemas[i])))
  }

  // ----- Every well-formed schema can be built ----------------------------------------------

  /** A typed map builds as its type says. */
  lemma TypedBuilds(f: map<string, Json>)
    requires "type" in f
    ensures Build(Obj(f)) == BuildAs(Obj(f), f["type"])
  {
    assert Typed(f, GuessType(f.Keys)) == f;
  }

  lemma HeaderBuilds(f: map<string, Json>, typeName: string, kind: Kind, m: Mixin)
    requires "type" in f && f["type"] == Str(typeName) && KindOf(Str(typeName)) == Some(kind)
    requires "name" in f && f["name"] == Str(m.name) && "description" in f && f["description"] == Str(m.description)
    ensures Build(Obj(f)) == BuildKind(Obj(f), kind, m)
  {
    TypedBuilds(f);
    assert MixinReadable(f) && ReadMixin(f) == m;
    assert BuildAs(Obj(f), f["type"]) == BuildKind(Obj(f), kind, m);
  }

  lemma {:induction false} DescribedBuilds(s: Schema)
    requires WellFormed(s)
    ensures Build(Describe(s)) == Some(s)
    decreases s, 1
  {
    match s
    case NumberSchema(_, _, _, _, _) => DescribedNumberBuilds(s);
    case IntegerSchema(_, _, _, _, _) => DescribedIntegerBuilds(s);
    case StringSchema(_, _, _) => DescribedStringBuilds(s);
    case AnyOfSchema(_, choices) => DescribedChoicesBuild(s, choices);
    case AllOfSchema(_, choices) => DescribedChoicesBuild(s, choices);
    case NotSchema(_, _) => DescribedNotBuilds(s);
    case ListSchema(_, _, _, _) => DescribedListBuilds(s);
    case TupleSchema(_, _, _) => DescribedTupleBuilds(s);
    case ObjectSchema(_, _, _, _) => DescribedObjectBuilds(s);
    case MethodSchema(_, _, _, _) => DescribedMethodBuilds(s);
    case _ => DescribedAtomBuilds(s);
  }

  lemma DescribedAtomBuilds(s: Schema)
    requires s.AnySchema? || s.NullSchema? || s.BoolSchema?
    ensures Build(Describe(s)) == Some(s)
  {
    match s
    case AnySchema(m) => HeaderBuilds(Header("any", m), "any", AnyKind, m);
    case NullSchema(m) => HeaderBuilds(Header("null", m), "null", NullKind, m);
    case BoolSchema(m) => HeaderBuilds(Header("bool", m), "bool", BoolKind, m);
  }

  predicate Entry(f: map<string, Json>, key: string, v: Option<Json>) {
    if v.Some? then key in f && f[key] == v.value else key !in f
  }

  lemma BoundsEntries(typeName: string, m: Mixin, min: Option<Json>, max: Option<Json>, exMin: Option<bool>, exMax: Option<bool>)
    ensures var f := Bounds(Header(typeName, m), min, max, exMin, exMax);
            && Entry(f, "type", Some(Str(typeName))) && Entry(f, "name", Some(Str(m.name)))
            && Entry(f, "description", Some(Str(m.description)))
            && Entry(f, "minimum", min) && Entry(f, "maximum", max)
            && Entry(f, "exclusiveMinimum", BoolOf(exMin)) && Entry(f, "exclusiveMaximum", BoolOf(exMax))
  {
  }

  lemma DescribedNumberBuilds(s: Schema)
    requires s.NumberSchema?
    ensures Build(Describe(s)) == Some(s)
  {
    var f := Bounds(Header("number", s.mixin), DecOf(s.minimum), DecOf(s.maximum), s.exclusiveMinimum, s.exclusiveMaximum);
    BoundsEntries("number", s.mixin, DecOf(s.minimum), DecOf(s.maximum), s.exclusiveMinimum, s.exclusiveMaximum);
    HeaderBuilds(f, "number", NumberKind, s.mixin);
    NumberFromEntries(f, s);
  }

  lemma NumberFromEntries(f: map<string, Json>, s: Schema)
    requires s.NumberSchema? && Entry(f, "minimum", DecOf(s.minimum)) && Entry(f, "maximum", DecOf(s.maximum))
    requires Entry(f, "exclusiveMinimum", BoolOf(s.exclusiveMinimum)) && Entry(f, "exclusiveMaximum", BoolOf(s.exclusiveMaximum))
    ensures BuildNumber(f, s.mixin) == s
  {
  }

  lemma IntegerFromEntries(f: map<string, Json>, s: Schema)
    requires s.IntegerSchema? && Entry(f, "minimum", IntOf(s.minInt)) && Entry(f, "maximum", IntOf(s.maxInt))
    requires Entry(f, "exclusiveMinimum", BoolOf(s.exclusiveMinimum)) && Entry(f, "exclusiveMaximum", BoolOf(s.exclusiveMaximum))
    ensures BuildInteger(f, s.mixin) == s
  {
  }

  lemma DescribedIntegerBuilds(s: Schema)
    requires s.IntegerSchema?
    ensures Build(Describe(s)) == Some(s)
  {
    var f := Bounds(Header("integer", s.mixin), IntOf(s.minInt), IntOf(s.maxInt), s.exclusiveMinimum, s.exclusiveMaximum);
    BoundsEntries("integer", s.mixin, IntOf(s.minInt), IntOf(s.maxInt), s.exclusiveMinimum, s.exclusiveMaximum);
    HeaderBuilds(f, "integer", IntegerKind, s.mixin);
    IntegerFromEntries(f, s);
  }

  lemma DescribedStringBuilds(s: Schema)
    requires s.StringSchema? && WellFormed(s)
    ensures Build(Describe(s)) == Some(s)
  {
    var f := Describe(s).fields;
    HeaderBuilds(f, "string", StringKind, s.mixin);
    assert BuildKind(Obj(f), StringKind, s.mixin) == Some(BuildString(f, s.mixin));
  }

  lemma {:induction false} DescribedChoicesBuild(s: Schema, choices: seq<Schema>)
    requires (s == AnyOfSchema(s.mixin, choices) || s == AllOfSchema(s.mixin, choices)) && WellFormed(s)
    ensures Build(Describe(s)) == Some(s)
    decreases s, 0, 1
  {
    AllDescribedBuild(s, choices);
    var all := DescribeAll(s, choices);
    if s.AnyOfSchema? {
      var f := Header("anyOf", s.mixin)["anyOf" := all];
      HeaderBuilds(f, "anyOf", AnyOfKind, s.mixin);
      assert BuildChoices(Obj(f), "anyOf") == Some(choices);
      assert Describe(s) == Obj(f);
    } else {
      var f := Header("allOf", s.mixin)["allOf" := all];
      HeaderBuilds(f, "allOf", AllOfKind, s.mixin);
      assert BuildChoices(Obj(f), "allOf") == Some(choices);
      assert Describe(s) == Obj(f);
    }
  }

  lemma {:induction false} DescribedNotBuilds(s: Schema)
    requires s.NotSchema? && WellFormed(s)
    ensures Build(Describe(s)) == Some(s)
    decreases s, 0, 1
  {
    DescribedBuilds(s.child);
    var f := Header("not", s.mixin)["not" := Describe(s.child)];
    assert Describe(s) == Obj(f);
    HeaderBuilds(f, "not", NotKind, s.mixin);
    assert BuildNot(Obj(f), s.mixin) == Some(s);
  }

  lemma ListEntries(m: Mixin, item: Json, min: Option<Json>, max: Option<Json>)
    ensures var f := With(With(Header("list", m)["items" := item], "minItems", min), "maxItems", max);
            && Entry(f, "type", Some(Str("list"))) && Entry(f, "name", Some(Str(m.name)))
            && Entry(f, "description", Some(Str(m.description)))
            && Entry(f, "items", Some(item)) && Entry(f, "minItems", min) && Entry(f, "maxItems", max)
  {
  }

  lemma {:induction false} DescribedListBuilds(s: Schema)
    requires s.ListSchema? && WellFormed(s)
    ensures Build(Describe(s)) == Some(s)
    decreases s, 0, 1
  {
    DescribedBuilds(s.item);
    var f := With(With(Header("list", s.mixin)["items" := Describe(s.item)], "minItems", IntOf(s.minItems)), "maxItems", IntOf(s.maxItems));
    assert Describe(s) == Obj(f);
    ListEntries(s.mixin, Describe(s.item), IntOf(s.minItems), IntOf(s.maxItems));
    HeaderBuilds(f, "list", ListKind, s.mixin);
    ListOfParts(Obj(f), s.mixin);
  }

  lemma {:induction false} AllDescribedBuild(parent: Schema, schemas: seq<Schema>)
    requires forall i | 0 <= i < |schemas| :: schemas[i] < parent && WellFormed(schemas[i])
    ensures BuildItems(DescribeAll(parent, schemas)) == Some(schemas)
    decreases parent, 0, 0
  {
    var j := DescribeAll(parent, schemas);
    forall i | 0 <= i < |schemas| ensures Build(j.items[i]) == Some(schemas[i]) { DescribedBuilds(schemas[i]); }
    ItemsRead(j);
    assert BuildItems(j).value == schemas;
  }

  lemma {:induction false} SomeDescribedBuilds(parent: Schema, s: Option<Schema>, d: Json, name: string)
    requires s.Some? ==> s.value < parent && WellFormed(s.value)
    requires d.Obj? && if s.Some? then name in d.fields && d.fields[name] == DescribeSome(parent, s).value else name !in d.fields
    ensures BuildAdditional(d, name) == Some(s)
    decreases parent, 0, 0
  {
    if s.Some? { DescribedBuilds(s.value); }
  }

  lemma {:induction false} DescribedTupleBuilds(s: Schema)
    requires s.TupleSchema? && WellFormed(s)
    ensures Build(Describe(s)) == Some(s)
    decreases s, 0, 1
  {
    var f := With(Header("list", s.mixin)["items" := DescribeAll(s, s.children)], "additionalItems", DescribeSome(s, s.additional));
    assert Describe(s) == Obj(f);
    HeaderBuilds(f, "list", ListKind, s.mixin);
    AllDescribedBuild(s, s.children);
    SomeDescribedBuilds(s, s.additional, Obj(f), "additionalItems");
    TupleOfParts(Obj(f), s.mixin);
  }

  lemma ObjectEntries(m: Mixin, properties: Json, required: Json, additional: Option<Json>)
    ensures var f := With(Header("object", m)["properties" := properties]["requires" := required], "additionalProperties", additional);
            && Entry(f, "type", Some(Str("object"))) && Entry(f, "name", Some(Str(m.name)))
            && Entry(f, "description", Some(Str(m.description)))
            && Entry(f, "properties", Some(properties)) && Entry(f, "requires", Some(required))
            && Entry(f, "additionalProperties", additional)
  {
  }

  lemma {:induction false} DescribedObjectBuilds(s: Schema)
    requires s.ObjectSchema? && WellFormed(s)
    ensures Build(Describe(s)) == Some(s)
    decreases s, 0, 1
  {
    var properties, required := DescribeProperties(s), List(NameList(s.required.Keys));
    var f := With(Header("object", s.mixin)["properties" := properties]["requires" := required],
                  "additionalProperties", DescribeSome(s, s.additional));
    assert Describe(s) == Obj(f);
    ObjectEntries(s.mixin, properties, required, DescribeSome(s, s.additional));
    HeaderBuilds(f, "object", ObjectKind, s.mixin);
    DescribedProperties(s);
    SomeDescribedBuilds(s, s.additional, Obj(f), "additionalProperties");
    NamesRead(s.required.Keys);
    assert Required(s.required.Keys) == s.required;
    ObjectOfParts(Obj(f), s.mixin);
  }

  lemma NamesRead(names: set<string>)
    ensures ReadNames(List(NameList(names))) == Some(names)
  {
    var r := NameList(names);
    assert (set i | 0 <= i < |r| :: r[i].s) == names by {
      forall name | name in names ensures name in (set i | 0 <= i < |r| :: r[i].s) {
        assert Str(name) in r;
        var i :| 0 <= i < |r| && r[i] == Str(name);
        assert r[i].s == name;
      }
    }
  }

  lemma {:induction false} DescribedProperties(s: Schema)
    requires s.ObjectSchema? && WellFormed(s)
    ensures BuildProperties(DescribeProperties(s)) == Some(s.properties)
    decreases s, 0, 0
  {
    forall p | p in s.properties ensures Build(Describe(s.properties[p])) == Some(s.properties[p]) {
      DescribedBuilds(s.properties[p]);
    }
    PropertiesFromReadings(DescribeProperties(s), s.properties);
  }

  lemma PropertiesFromReadings(j: Json, properties: map<string, Schema>)
    requires j.Obj? && j.fields.Keys == properties.Keys && UnmistakableNames(properties.Keys)
    requires forall p | p in properties :: Build(j.fields[p]) == Some(properties[p])
    ensures BuildProperties(j) == Some(properties)
  {
    PropertiesRead(j);
    assert BuildProperties(j).value == properties;
  }

  lemma {:induction false} DescribedMethodBuilds(s: Schema)
    requires s.MethodSchema? && WellFormed(s)
    ensures Build(Describe(s)) == Some(s)
    decreases s, 0, 1
  {
    var f := With(Header("method", s.mixin)["params" := DescribeAll(s, s.params)]["returns" := DescribeReturns(s)],
                  "additionalParams", DescribeSome(s, s.additional));
    assert Describe(s) == Obj(f);
    HeaderBuilds(f, "method", MethodKind, s.mixin);
    AllDescribedBuild(s, s.params);
    SomeDescribedBuilds(s, s.additional, Obj(f), "additionalParams");
    DescribedReturns(s);
    MethodOfParts(Obj(f), s.mixin);
  }

  lemma {:induction false} DescribedReturns(s: Schema)
    requires s.MethodSchema? && WellFormed(s)
    ensures BuildReturns(DescribeReturns(s)) == Some(s.returns_)
    decreases s, 0, 0
  {
    if s.returns_.Some? {
      DescribedBuilds(s.returns_.value);
      HasType(s.returns_.value);
      TypedReturns(Describe(s.returns_.value));
    }
  }

  lemma HasType(s: Schema)
    ensures "type" in Describe(s).fields
  {
  }

  lemma TypedReturns(d: Json)
    requires d.Obj? && "type" in d.fields
    ensures BuildReturns(d) == if Build(d).Some? then Some(Build(d)) else None
  {
    TypedBuilds(d.fields);
    assert Typed(d.fields, ReturnsGuess(d.fields.Keys)) == d.fields;
  }

  /** The builder returns exactly the well-formed schemas: each of them, with all its attributes, for
      some input. */
  lemma BuiltExactlyWellFormed(s: Schema)
    ensures WellFormed(s) <==> exists d :: Build(d) == Some(s)
  {
    if WellFormed(s) { DescribedBuilds(s); }
    if d :| Build(d) == Some(s) { BuiltIsWellFormed(d); }
  }

  // ----- Which JSON is a schema, and of what type -------------------------------------------

  /** The name of a simple type stands for the map with that type; no other string is a schema, nor
      is anything but a string or a map. */
  lemma SimpleNames(d: Json)
    ensures d.Str? ==>
              Build(d) == if d.s in {"string", "number", "integer", "bool", "null"} then Build(Obj(map["type" := d])) else None
    ensures !d.Str? && !d.Obj? ==> Build(d).None?
    ensures d.Str? && d.s in {"string", "number", "integer", "bool", "null"} ==> Build(d).Some?
  {
    if d.Str? && d.s in {"string", "number", "integer", "bool", "null"} {
      var f := map["type" := d];
      TypedBuilds(f);
      SimpleKinds(d.s);
      assert ReadMixin(f) == NoMixin;
      assert BuildAs(Obj(f), d) == BuildKind(Obj(f), KindOf(d).value, NoMixin);
      assert AttrInt(f, "maxLength") == AttrInt(f, "minLength") == AttrInt(f, "minimum") == AttrInt(f, "maximum") == None;
      assert AttrFloat(f, "minimum") == AttrFloat(f, "maximum") == None;
      assert AttrBool(f, "exclusiveMinimum") == AttrBool(f, "exclusiveMaximum") == None;
    }
  }

  lemma SimpleKinds(name: string)
    requires name in {"string", "number", "integer", "bool", "null"}
    ensures IsSimple(name) && KindOf(Str(name)).Some?
    ensures KindOf(Str(name)).value in {StringKind, NumberKind, IntegerKind, BoolKind, NullKind}
    ensures KindOf(Str(name)) == Some(KindOfSchema(SimpleSchema(name)))
  {
    assert SIMPLE_TYPES[0] == "string" && SIMPLE_TYPES[1] == "number" && SIMPLE_TYPES[2] == "integer";
    assert SIMPLE_TYPES[3] == "bool" && SIMPLE_TYPES[4] == "null";
  }

  /** A map without a type is the map with the type told by its other keys, the first that it has of
      `params`, `properties`, `anyOf`, `allOf` and `not`; with none of them it is no schema. */
  lemma GuessedTypes(f: map<string, Json>)
    requires "type" !in f
    ensures Build(Obj(f)) ==
            if "params" in f then Build(Obj(f["type" := Str("method")]))
            else if "properties" in f then Build(Obj(f["type" := Str("object")]))
            else if "anyOf" in f then Build(Obj(f["type" := Str("anyOf")]))
            else if "allOf" in f then Build(Obj(f["type" := Str("allOf")]))
            else if "not" in f then Build(Obj(f["type" := Str("not")]))
            else None
  {
    forall name: string ensures BuildAs(Obj(f), Str(name)) == Build(Obj(f["type" := Str(name)])) {
      TypedBuilds(f["type" := Str(name)]);
      BuildAlike(Obj(f), Obj(f["type" := Str(name)]), Str(name));
    }
  }

  const TYPE_NAMES: set<string> :=
    {"number", "integer", "bool", "any", "null", "string", "anyOf", "allOf", "not", "list", "object", "method"}

  predicate Named(f: map<string, Json>) {
    ("name" in f ==> f["name"].Str?) && ("description" in f ==> f["description"].Str?)
  }

  /** What builds has one of the twelve types, and a name and a description that are strings if they
      are there at all, which the schema has too. */
  lemma TypesAndNames(f: map<string, Json>)
    requires "type" in f && Build(Obj(f)).Some?
    ensures f["type"].Str? && f["type"].s in TYPE_NAMES && Named(f)
    ensures Build(Obj(f)).value.mixin == Mixin(if "name" in f then f["name"].s else "",
                                               if "description" in f then f["description"].s else "")
  {
    TypedBuilds(f);
    KindMixin(Obj(f), KindOf(f["type"]).value, ReadMixin(f));
  }

  lemma KindMixin(d: Json, kind: Kind, m: Mixin)
    requires d.Obj? && BuildKind(d, kind, m).Some?
    ensures BuildKind(d, kind, m).value.mixin == m
  {
    match kind
    case ListKind => if d.fields["items"].List? { TupleOfParts(d, m); } else { ListOfParts(d, m); }
    case ObjectKind => ObjectOfParts(d, m);
    case MethodKind => MethodOfParts(d, m);
    case _ =>
  }

  // ----- Which attributes count -------------------------------------------------------------

  /** The attributes that matter for a type, besides type, name and description. */
  function Relevant(typeName: string): set<string> {
    if typeName == "number" || typeName == "integer" then {"minimum", "maximum", "exclusiveMinimum", "exclusiveMaximum"}
    else if typeName == "string" then {"minLength", "maxLength"}
    else if typeName == "anyOf" || typeName == "allOf" || typeName == "not" then {typeName}
    else if typeName == "list" then {"items", "minItems", "maxItems", "additionalItems"}
    else if typeName == "object" then {"properties", "requires", "additionalProperties"}
    else if typeName == "method" then {"params", "returns", "additionalParams"}
    else {}
  }

  /** A bound, length or flag of the wrong form. */
  predicate Unreadable(typeName: string, key: string, v: Json) {
    if key == "exclusiveMinimum" || key == "exclusiveMaximum" then !v.Bool?
    else if typeName == "number" then (key == "minimum" || key == "maximum") && !v.Int? && !v.Dec?
    else if typeName == "integer" then
      (key == "minimum" || key == "maximum") && !(v.Int? && -9223372036854775808 <= v.i <= 9223372036854775807)
    else key in {"minLength", "maxLength", "minItems", "maxItems"} && !(v.Int? && 0 <= v.i <= 9223372036854775807)
  }

  /** An attribute that is none of its type's, or a bound that cannot be read, is as good as absent. */
  lemma OthersAreIgnored(f: map<string, Json>, key: string)
    requires "type" in f && f["type"].Str? && key in f && key !in {"type", "name", "description"}
    requires key !in Relevant(f["type"].s) || Unreadable(f["type"].s, key, f[key])
    ensures Build(Obj(f)) == Build(Obj(f - {key}))
  {
    var g := f - {key};
    TypedBuilds(f);
    TypedBuilds(g);
    if KindOf(f["type"]).Some? && MixinReadable(f) {
      assert ReadMixin(f) == ReadMixin(g);
      KindIgnores(f, key, KindOf(f["type"]).value, ReadMixin(f));
    }
  }

  lemma KindIgnores(f: map<string, Json>, key: string, kind: Kind, m: Mixin)
    requires "type" in f && f["type"].Str? && KindOf(f["type"]) == Some(kind) && key in f && key != "type"
    requires key !in Relevant(f["type"].s) || Unreadable(f["type"].s, key, f[key])
    ensures BuildKind(Obj(f), kind, m) == BuildKind(Obj(f - {key}), kind, m)
  {
    match kind
    case NumberKind => BoundsIgnore(f, key, m);
    case IntegerKind => BoundsIgnore(f, key, m);
    case StringKind => BoundsIgnore(f, key, m);
    case AnyOfKind => PartsIgnore(f, key, "anyOf", m);
    case AllOfKind => PartsIgnore(f, key, "allOf", m);
    case NotKind => PartsIgnore(f, key, "not", m);
    case ListKind => ListIgnores(f, key, m);
    case ObjectKind => ObjectIgnores(f, key, m);
    case MethodKind => MethodIgnores(f, key, m);
    case _ =>
  }

  lemma PartsIgnore(f: map<string, Json>, key: string, part: string, m: Mixin)
    requires key in f && key != part
    ensures BuildChoices(Obj(f), part) == BuildChoices(Obj(f - {key}), part)
    ensures BuildAdditional(Obj(f), part) == BuildAdditional(Obj(f - {key}), part)
    ensures part == "not" ==> BuildNot(Obj(f), m) == BuildNot(Obj(f - {key}), m)
  {
  }

  lemma ObjectIgnores(f: map<string, Json>, key: string, m: Mixin)
    requires key in f && key !in Relevant("object")
    ensures BuildKind(Obj(f), ObjectKind, m) == BuildKind(Obj(f - {key}), ObjectKind, m)
  {
    PartsIgnore(f, key, "additionalProperties", m);
    ObjectOfParts(Obj(f), m);
    ObjectOfParts(Obj(f - {key}), m);
  }

  lemma MethodIgnores(f: map<string, Json>, key: string, m: Mixin)
    requires key in f && key !in Relevant("method")
    ensures BuildKind(Obj(f), MethodKind, m) == BuildKind(Obj(f - {key}), MethodKind, m)
  {
    PartsIgnore(f, key, "params", m);
    PartsIgnore(f, key, "additionalParams", m);
    MethodOfParts(Obj(f), m);
    MethodOfParts(Obj(f - {key}), m);
  }

  lemma BoundsIgnore(f: map<string, Json>, key: string, m: Mixin)
    requires key in f
    ensures key !in Relevant("number") || Unreadable("number", key, f[key]) ==> BuildNumber(f, m) == BuildNumber(f - {key}, m)
    ensures key !in Relevant("integer") || Unreadable("integer", key, f[key]) ==> BuildInteger(f, m) == BuildInteger(f - {key}, m)
    ensures key !in Relevant("string") || Unreadable("string", key, f[key]) ==> BuildString(f, m) == BuildString(f - {key}, m)
  {
  }

  lemma ListIgnores(f: map<string, Json>, key: string, m: Mixin)
    requires key in f && (key !in Relevant("list") || Unreadable("list", key, f[key]))
    ensures BuildKind(Obj(f), ListKind, m) == BuildKind(Obj(f - {key}), ListKind, m)
  {
    var g := f - {key};
    if "items" in f {
      if f["items"].List? {
        TupleOfParts(Obj(f), m);
        TupleOfParts(Obj(g), m);
      } else {
        ListOfParts(Obj(f), m);
        ListOfParts(Obj(g), m);
      }
    }
  }

  // ----- What the parts must be -------------------------------------------------------------

  /** `key` is absent, or describes the optional schema. */
  ghost predicate ReadsOptional(f: map<string, Json>, key: string, s: Option<Schema>) {
    if key in f then s.Some? && Build(f[key]) == s else s.None?
  }

  ghost predicate ReadsAll(d: Json, schemas: seq<Schema>) {
    d.List? && |d.items| == |schemas| && forall i | 0 <= i < |schemas| :: Build(d.items[i]) == Some(schemas[i])
  }

  lemma ReadsAllIff(d: Json, schemas: seq<Schema>)
    ensures BuildItems(d) == Some(schemas) <==> ReadsAll(d, schemas)
  {
    if d.List? {
      ItemsRead(d);
      if ReadsAll(d, schemas) { assert BuildItems(d).value == schemas; }
    }
  }

  function MixinOf(f: map<string, Json>): Mixin
    requires Named(f)
  {
    Mixin(if "name" in f then f["name"].s else "", if "description" in f then f["description"].s else "")
  }

  lemma NamedBuilds(f: map<string, Json>, kind: Kind)
    requires "type" in f && Named(f) && KindOf(f["type"]) == Some(kind)
    ensures Build(Obj(f)) == BuildKind(Obj(f), kind, MixinOf(f))
  {
    TypedBuilds(f);
    assert ReadMixin(f) == MixinOf(f);
    assert BuildAs(Obj(f), f["type"]) == BuildKind(Obj(f), kind, ReadMixin(f));
  }

  /** anyOf, allOf and not describe exactly the choices, or the child, that their attribute does. */
  lemma ChoicesRead(f: map<string, Json>, s: Schema)
    requires "type" in f && Named(f) && s.mixin == MixinOf(f)
    ensures f["type"] == Str("anyOf") ==>
              (Build(Obj(f)) == Some(s) <==> s.AnyOfSchema? && "anyOf" in f && ReadsAll(f["anyOf"], s.choices))
    ensures f["type"] == Str("allOf") ==>
              (Build(Obj(f)) == Some(s) <==> s.AllOfSchema? && "allOf" in f && ReadsAll(f["allOf"], s.choices))
    ensures f["type"] == Str("not") ==>
              (Build(Obj(f)) == Some(s) <==> s.NotSchema? && "not" in f && Build(f["not"]) == Some(s.child))
  {
    var m := s.mixin;
    if f["type"] == Str("anyOf") {
      NamedBuilds(f, AnyOfKind);
      if s.AnyOfSchema? && "anyOf" in f { ReadsAllIff(f["anyOf"], s.choices); }
    } else if f["type"] == Str("allOf") {
      NamedBuilds(f, AllOfKind);
      if s.AllOfSchema? && "allOf" in f { ReadsAllIff(f["allOf"], s.choices); }
    } else if f["type"] == Str("not") {
      NamedBuilds(f, NotKind);
      assert BuildKind(Obj(f), NotKind, m) == BuildNot(Obj(f), m);
    }
  }

  function LengthAt(f: map<string, Json>, key: string): Option<int64> {
    if key in f && f[key].Int? && 0 <= f[key].i <= 9223372036854775807 then Some(f[key].i) else None
  }

  /** A list of items describes a tuple of what they describe, anything else a list of what it does. */
  lemma ListRead(f: map<string, Json>, s: Schema)
    requires "type" in f && Named(f) && s.mixin == MixinOf(f) && f["type"] == Str("list")
    ensures Build(Obj(f)) == Some(s) <==>
              "items" in f &&
              if f["items"].List? then
                s.TupleSchema? && ReadsAll(f["items"], s.children) && ReadsOptional(f, "additionalItems", s.additional)
              else
                && s.ListSchema? && Build(f["items"]) == Some(s.item)
                && s.minItems == LengthAt(f, "minItems") && s.maxItems == LengthAt(f, "maxItems")
  {
    NamedBuilds(f, ListKind);
    if "items" in f {
      if f["items"].List? {
        TupleOfParts(Obj(f), s.mixin);
        if s.TupleSchema? { ReadsAllIff(f["items"], s.children); }
      } else {
        ListOfParts(Obj(f), s.mixin);
      }
    }
  }

  /** A map of properties without a property `type` must not look like a schema itself. */
  ghost predicate ReadsProperties(f: map<string, Json>, properties: map<string, Schema>) {
    if "properties" !in f then properties == map[]
    else match f["properties"]
      case Obj(ps) =>
        && ("type" in ps || ps.Keys !! {"params", "properties", "anyOf", "allOf", "not"})
        && ps.Keys == properties.Keys && forall p | p in ps :: Build(ps[p]) == Some(properties[p])
      case Str(name) =>
        if Build(Str(name)).Some? then properties == map["type" := Build(Str(name)).value] else properties == map[]
      case _ => properties == map[]
  }

  /** The required names are strings, and each is that of a property. */
  ghost predicate ReadsRequired(f: map<string, Json>, required: map<string, bool>, properties: set<string>) {
    && required.Keys <= properties && (forall p | p in required :: required[p])
    && if "requires" !in f then required == map[]
       else
         && f["requires"].List?
         && (forall name | name in f["requires"].items :: name.Str? && name.s in required)
         && (forall p | p in required :: Str(p) in f["requires"].items)
  }

  lemma PropertiesReadIff(f: map<string, Json>, properties: map<string, Schema>)
    ensures (if "properties" in f then BuildProperties(f["properties"]) else Some(map[])) == Some(properties) <==>
              ReadsProperties(f, properties)
  {
    if "properties" in f {
      match f["properties"]
      case Obj(ps) => PropertyMapRead(ps, properties);
      case Str(name) => PropertyNameRead(name);
      case _ =>
    }
  }

  lemma PropertyNameRead(name: string)
    ensures BuildProperties(Str(name)) ==
            Some(if Build(Str(name)).Some? then map["type" := Build(Str(name)).value] else map[])
  {
    assert Build(Str(name)) == if IsSimple(name) then Some(SimpleSchema(name)) else None;
  }

  lemma PropertyMapRead(ps: map<string, Json>, properties: map<string, Schema>)
    ensures BuildProperties(Obj(ps)) == Some(properties) <==>
              && ("type" in ps || ps.Keys !! {"params", "properties", "anyOf", "allOf", "not"})
              && ps.Keys == properties.Keys && forall p | p in ps :: Build(ps[p]) == Some(properties[p])
  {
    NoGuess(ps.Keys);
    if "type" in ps || GuessType(ps.Keys).None? {
      PropertiesRead(Obj(ps));
      if ps.Keys == properties.Keys && forall p | p in ps :: Build(ps[p]) == Some(properties[p]) {
        assert BuildProperties(Obj(ps)).value == properties;
      }
    }
  }

  lemma NoGuess(keys: set<string>)
    ensures GuessType(keys).None? <==> keys !! {"params", "properties", "anyOf", "allOf", "not"}
  {
  }

  lemma RequiredReadIff(f: map<string, Json>, required: map<string, bool>)
    requires "requires" in f && forall p | p in required :: required[p]
    ensures ReadNames(f["requires"]) == Some(required.Keys) <==> ReadsRequired(f, required, required.Keys)
  {
    var d := f["requires"];
    if ReadNames(d).Some? {
      assert forall i | 0 <= i < |d.items| :: d.items[i] in d.items;
      var names := ReadNames(d).value;
      forall p | p in names ensures Str(p) in d.items {
        var i :| 0 <= i < |d.items| && d.items[i].s == p;
        assert d.items[i] == Str(p);
      }
      if ReadsRequired(f, required, required.Keys) {
        forall p | p in required ensures p in names {
          var i :| 0 <= i < |d.items| && d.items[i] == Str(p);
          assert d.items[i].s == p;
        }
        assert names == required.Keys;
      }
    } else if d.List? {
      assert forall i | 0 <= i < |d.items| :: d.items[i] in d.items;
    }
  }

  lemma RequirementsReadIff(f: map<string, Json>, required: map<string, bool>, properties: set<string>)
    ensures ReadsRequired(f, required, properties) <==>
              var names := if "requires" in f then ReadNames(f["requires"]) else Some({});
              names.Some? && names.value <= properties && Required(names.value) == required
  {
    if forall p | p in required :: required[p] {
      if "requires" in f { RequiredReadIff(f, required); }
      assert Required(required.Keys) == required;
    }
  }

  lemma ObjectRead(f: map<string, Json>, s: Schema)
    requires "type" in f && Named(f) && s.mixin == MixinOf(f) && f["type"] == Str("object")
    ensures Build(Obj(f)) == Some(s) <==>
              && s.ObjectSchema? && ReadsProperties(f, s.properties) && ReadsRequired(f, s.required, s.properties.Keys)
              && ReadsOptional(f, "additionalProperties", s.additional)
  {
    NamedBuilds(f, ObjectKind);
    ObjectOfParts(Obj(f), s.mixin);
    if s.ObjectSchema? {
      PropertiesReadIff(f, s.properties);
      RequirementsReadIff(f, s.required, s.properties.Keys);
    }
  }

  /** Without `returns` any result will do; a `returns` map without a type describes `any`; and one
      that is no schema at all is none. */
  ghost predicate ReadsReturns(f: map<string, Json>, returns_: Option<Schema>) {
    if "returns" !in f then returns_ == Some(AnySchema(NoMixin))
    else match f["returns"]
      case Obj(r) =>
        && returns_.Some?
        && returns_ == if "type" in r || !(r.Keys !! {"params", "properties", "anyOf", "allOf", "not"}) then Build(Obj(r))
                       else Build(Obj(r["type" := Str("any")]))
      case Str(name) => returns_ == Build(Str(name))
      case _ => returns_.None?
  }

  lemma ReturnsReadIff(f: map<string, Json>, returns_: Option<Schema>)
    requires "returns" in f
    ensures BuildReturns(f["returns"]) == Some(returns_) <==> ReadsReturns(f, returns_)
  {
    var d := f["returns"];
    if d.Obj? {
      var r := d.fields;
      if "type" in r || GuessType(r.Keys).Some? {
        assert Typed(r, ReturnsGuess(r.Keys)) == Typed(r, GuessType(r.Keys));
      } else {
        TypedBuilds(r["type" := Str("any")]);
        BuildAlike(d, Obj(r["type" := Str("any")]), Str("any"));
      }
    }
  }

  lemma MethodRead(f: map<string, Json>, s: Schema)
    requires "type" in f && Named(f) && s.mixin == MixinOf(f) && f["type"] == Str("method")
    ensures Build(Obj(f)) == Some(s) <==>
              && s.MethodSchema? && "params" in f && ReadsAll(f["params"], s.params)
              && ReadsReturns(f, s.returns_) && ReadsOptional(f, "additionalParams", s.additional)
  {
    NamedBuilds(f, MethodKind);
    MethodOfParts(Obj(f), s.mixin);
    if s.MethodSchema? {
      if "params" in f { ReadsAllIff(f["params"], s.params); }
      if "returns" in f { ReturnsReadIff(f, s.returns_); }
    }
  }

  // ----- What is written into the input -----------------------------------------------------

  /** The attributes that hold schemas. */
  predicate HoldsSchemas(f: map<string, Json>, typeName: string, key: string) {
    if typeName == "anyOf" || typeName == "allOf" || typeName == "not" then key == typeName
    else if typeName == "list" then key == "items" || (key == "additionalItems" && "items" in f && f["items"].List?)
    else if typeName == "object" then key == "properties" || key == "additionalProperties"
    else typeName == "method" && key in {"params", "returns", "additionalParams"}
  }

  /** Every map that describes a schema says its type. */
  predicate Explicit(d: Json)
    decreases d, 1
  {
    d.Obj? ==>
      && "type" in d.fields && d.fields["type"].Str?
      && forall k | k in d.fields && HoldsSchemas(d.fields, d.fields["type"].s, k) :: ExplicitPart(k, d.fields[k])
  }

  predicate ExplicitPart(key: string, v: Json)
    decreases v, 2
  {
    if key == "properties" then v.Obj? ==> forall p | p in v.fields :: Explicit(v.fields[p])
    else if v.List? && key != "returns" then forall i | 0 <= i < |v.items| :: Explicit(v.items[i])
    else Explicit(v)
  }

  /** A successful build leaves an input in which nothing has to be guessed. */
  lemma {:induction false} ExplicitOnceBuilt(d: Json)
    requires Build(d).Some?
    ensures Explicit(Annotate(d))
    decreases d, 3
  {
    if d.Obj? {
      var typed := Typed(d.fields, GuessType(d.fields.Keys));
      ExplicitNode(d, typed);
    }
  }

  lemma {:induction false} ExplicitNode(d: Json, typed: map<string, Json>)
    requires d.Obj? && d.fields.Keys <= typed.Keys && (forall k | k in d.fields :: typed[k] == d.fields[k])
    requires (forall k | k in typed && k !in d.fields :: k == "type") && "type" in typed && BuildAs(d, typed["type"]).Some?
    ensures Explicit(AnnotateTyped(d, typed))
    decreases d, 2
  {
    var kind := KindOf(typed["type"]).value;
    var a := AnnotateTyped(d, typed);
    TypeIsNotVisited(kind, typed);
    assert a.fields["type"] == typed["type"];
    ItemsStayItems(d, typed, kind);
    forall k | k in a.fields && HoldsSchemas(a.fields, typed["type"].s, k) ensures ExplicitPart(k, a.fields[k]) {
      VisitsWhatHolds(a.fields, typed["type"], k);
      assert k in d.fields && a.fields[k] == AnnotateAttr(RoleOf(k), d.fields[k]);
      ExplicitAttr(d, kind, k);
    }
  }

  lemma VisitsWhatHolds(f: map<string, Json>, typ: Json, key: string)
    requires typ.Str? && KindOf(typ).Some?
    ensures HoldsSchemas(f, typ.s, key) <==> Visits(KindOf(typ).value, f, key)
  {
  }

  lemma {:induction false} ExplicitAttr(d: Json, kind: Kind, key: string)
    requires d.Obj? && key in d.fields && Visits(kind, d.fields, key)
    requires exists m :: BuildKind(d, kind, m).Some?
    ensures ExplicitPart(key, AnnotateAttr(RoleOf(key), d.fields[key]))
    decreases d, 1
  {
    var m :| BuildKind(d, kind, m).Some?;
    var v := d.fields[key];
    NodeRoles();
    match kind
    case AnyOfKind => ExplicitItems(v);
    case AllOfKind => ExplicitItems(v);
    case NotKind => ExplicitOnceBuilt(v);
    case ListKind =>
      if key == "items" && v.List? {
        TupleOfParts(d, m);
        ExplicitItems(v);
      } else if key == "items" {
        ListOfParts(d, m);
        ExplicitOnceBuilt(v);
        NoListBuilds(v);
      } else {
        TupleOfParts(d, m);
        ExplicitOnceBuilt(v);
        NoListBuilds(v);
      }
    case ObjectKind =>
      ObjectOfParts(d, m);
      if key == "properties" { ExplicitProperties(v); } else { ExplicitOnceBuilt(v); NoListBuilds(v); }
    case MethodKind =>
      MethodOfParts(d, m);
      if key == "params" { ExplicitItems(v); }
      else if key == "returns" { ExplicitReturns(v); }
      else { ExplicitOnceBuilt(v); NoListBuilds(v); }
  }

  lemma NoListBuilds(v: Json)
    requires Build(v).Some?
    ensures !v.List? && !Annotate(v).List?
  {
  }

  lemma {:induction false} ExplicitItems(v: Json)
    requires BuildItems(v).Some?
    ensures AnnotateItems(v).List? && forall i | 0 <= i < |AnnotateItems(v).items| :: Explicit(AnnotateItems(v).items[i])
    decreases v, 0
  {
    ItemsRead(v);
    forall i | 0 <= i < |v.items| ensures Explicit(AnnotateItems(v).items[i]) { ExplicitOnceBuilt(v.items[i]); }
  }

  lemma {:induction false} ExplicitProperties(v: Json)
    requires BuildProperties(v).Some?
    ensures ExplicitPart("properties", AnnotateAttr(PropertiesRole, v))
    decreases v, 4
  {
    if v.Obj? {
      PropertiesRead(v);
      var a := AnnotateAttr(PropertiesRole, v);
      forall p | p in a.fields ensures Explicit(a.fields[p]) { ExplicitOnceBuilt(v.fields[p]); }
    }
  }

  lemma {:induction false} ExplicitReturns(v: Json)
    requires BuildReturns(v).Some?
    ensures ExplicitPart("returns", AnnotateAttr(ReturnsRole, v))
    decreases v, 4
  {
    if v.Obj? { ExplicitNode(v, Typed(v.fields, ReturnsGuess(v.fields.Keys))); }
  }
}
