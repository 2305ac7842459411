/**
 What a JSON value means as a schema: the partial function from JSON to schemas that the
 builder computes, and the `type` entries the builder writes into its input on the way.
 */
module SchemaReading {
  import opened Basics
  import opened JsonValues
  import opened Schemas

  // ----- Types, written or guessed ----------------------------------------------------------

  const SIMPLE_TYPES := ["string", "number", "integer", "bool", "null"]

  predicate IsSimple(typeName: string) {
    typeName in SIMPLE_TYPES
  }

  /** The type of a map without a `type` entry, told from the other keys it has. */
  function GuessType(keys: set<string>): Option<string> {
    if "params" in keys then Some("method")
    else if "properties" in keys then Some("object")
    else if "anyOf" in keys then Some("anyOf")
    else if "allOf" in keys then Some("allOf")
    else if "not" in keys then Some("not")
    else None
  }

  /** `fields` after convertTypeMap has completed its `type` entry. */
  function Typed(fields: map<string, Json>, guess: Option<string>): (r: map<string, Json>)
    ensures fields.Keys <= r.Keys <= fields.Keys + {"type"}
    ensures forall k | k in fields :: r[k] == fields[k]
  {
    if "type" !in fields && guess.Some? then fields["type" := Str(guess.value)] else fields
  }

  function ReturnsGuess(keys: set<string>): Option<string> {
    if GuessType(keys).Some? then GuessType(keys) else Some("any")
  }

  // ----- Attributes -------------------------------------------------------------------------

  function AttrInt(fields: map<string, Json>, name: string): Option<int64> {
    if name in fields && fields[name].Int? && FitsInt64(fields[name].i) then Some(fields[name].i) else None
  }

  function AttrLength(fields: map<string, Json>, name: string): Option<int64> {
    var n := AttrInt(fields, name);
    if n.Some? && n.value >= 0 then n else None
  }

  function AttrFloat(fields: map<string, Json>, name: string): Option<real> {
    if name in fields && (fields[name].Int? || fields[name].Dec?) then Some(ToReal(fields[name])) else None
  }

  function AttrBool(fields: map<string, Json>, name: string): Option<bool> {
    if name in fields && fields[name].Bool? then Some(fields[name].b) else None
  }

  predicate MixinReadable(fields: map<string, Json>) {
    && ("name" in fields ==> fields["name"].Str?)
    && ("description" in fields ==> fields["description"].Str?)
  }

  function ReadMixin(fields: map<string, Json>): Mixin
    requires MixinReadable(fields)
  {
    Mixin(if "name" in fields then fields["name"].s else "",
          if "description" in fields then fields["description"].s else "")
  }

  // ----- From JSON to schemas ---------------------------------------------------------------

  /** The schema `d` describes, if any. */
  function Build(d: Json): Option<Schema>
    decreases d, 4
  {
    match d
    case Str(name) => if IsSimple(name) then Some(SimpleSchema(name)) else None
    case Obj(fields) =>
      var typed := Typed(fields, GuessType(fields.Keys));
      if "type" in typed then BuildAs(d, typed["type"]) else None
    case _ => None
  }

  function SimpleSchema(name: string): Schema
    requires IsSimple(name)
  {
    if name == "string" then StringSchema(NoMixin, None, None)
    else if name == "number" then NumberSchema(NoMixin, None, None, None, None)
    else if name == "integer" then IntegerSchema(NoMixin, None, None, None, None)
    else if name == "bool" then BoolSchema(NoMixin)
    else NullSchema(NoMixin)
  }

  datatype Kind =
    | NumberKind | IntegerKind | BoolKind | AnyKind | NullKind | StringKind
    | AnyOfKind | AllOfKind | NotKind | ListKind | ObjectKind | MethodKind

  function KindOf(typ: Json): Option<Kind> {
    if !typ.Str? then None else
    match typ.s
    case "number" => Some(NumberKind)
    case "integer" => Some(IntegerKind)
    case "bool" => Some(BoolKind)
    case "any" => Some(AnyKind)
    case "null" => Some(NullKind)
    case "string" => Some(StringKind)
    case "anyOf" => Some(AnyOfKind)
    case "allOf" => Some(AllOfKind)
    case "not" => Some(NotKind)
    case "list" => Some(ListKind)
    case "object" => Some(ObjectKind)
    case "method" => Some(MethodKind)
    case _ => None
  }

  /** The schema a map describes when its type is `typ`; its own `type` entry is not read. */
  function BuildAs(d: Json, typ: Json): Option<Schema>
    requires d.Obj?
    decreases d, 3
  {
    if KindOf(typ).Some? && MixinReadable(d.fields) then BuildKind(d, KindOf(typ).value, ReadMixin(d.fields))
    else None
  }

  function BuildKind(d: Json, kind: Kind, m: Mixin): Option<Schema>
    requires d.Obj?
    decreases d, 2
  {
    match kind
    case NumberKind => Some(BuildNumber(d.fields, m))
    case IntegerKind => Some(BuildInteger(d.fields, m))
    case BoolKind => Some(BoolSchema(m))
    case AnyKind => Some(AnySchema(m))
    case NullKind => Some(NullSchema(m))
    case StringKind => Some(BuildString(d.fields, m))
    case AnyOfKind => var c := BuildChoices(d, "anyOf"); if c.Some? then Some(AnyOfSchema(m, c.value)) else None
    case AllOfKind => var c := BuildChoices(d, "allOf"); if c.Some? then Some(AllOfSchema(m, c.value)) else None
    case NotKind => BuildNot(d, m)
    case ListKind => BuildList(d, m)
    case ObjectKind => BuildObject(d, m)
    case MethodKind => BuildMethod(d, m)
  }

  function BuildNumber(f: map<string, Json>, m: Mixin): Schema {
    NumberSchema(m, AttrFloat(f, "minimum"), AttrFloat(f, "maximum"),
                 AttrBool(f, "exclusiveMinimum"), AttrBool(f, "exclusiveMaximum"))
  }

  function BuildInteger(f: map<string, Json>, m: Mixin): Schema {
    IntegerSchema(m, AttrInt(f, "minimum"), AttrInt(f, "maximum"),
                  AttrBool(f, "exclusiveMinimum"), AttrBool(f, "exclusiveMaximum"))
  }

  function BuildString(f: map<string, Json>, m: Mixin): Schema {
    StringSchema(m, AttrLength(f, "maxLength"), AttrLength(f, "minLength"))
  }

  function BuildChoices(d: Json, name: string): Option<seq<Schema>>
    requires d.Obj?
    decreases d, 0
  {
    if name in d.fields then BuildItems(d.fields[name]) else None
  }

  function BuildNot(d: Json, m: Mixin): Option<Schema>
    requires d.Obj?
    decreases d, 0
  {
    if "not" !in d.fields then None
    else
      var child := Build(d.fields["not"]);
      if child.Some? then Some(NotSchema(m, child.value)) else None
  }

  /** A list of items describes a tuple, a single item the members of a list. */
  function BuildList(d: Json, m: Mixin): Option<Schema>
    requires d.Obj?
    decreases d, 1
  {
    if "items" !in d.fields then None
    else if d.fields["items"].List? then
      var children, additional := BuildItems(d.fields["items"]), BuildAdditional(d, "additionalItems");
      if children.Some? && additional.Some? then Some(TupleSchema(m, children.value, additional.value)) else None
    else
      var item := Build(d.fields["items"]);
      if item.Some? then
        Some(ListSchema(m, item.value, AttrLength(d.fields, "minItems"), AttrLength(d.fields, "maxItems")))
      else None
  }

  function BuildObject(d: Json, m: Mixin): Option<Schema>
    requires d.Obj?
    decreases d, 1
  {
    var f := d.fields;
    var properties := if "properties" in f then BuildProperties(f["properties"]) else Some(map[]);
    var required := if "requires" in f then ReadNames(f["requires"]) else Some({});
    var additional := BuildAdditional(d, "additionalProperties");
    if properties.Some? && required.Some? && additional.Some? && required.value <= properties.value.Keys
    then Some(ObjectSchema(m, properties.value, Required(required.value), additional.value))
    else None
  }

  function Required(names: set<string>): map<string, bool> {
    map p | p in names :: true
  }

  function BuildMethod(d: Json, m: Mixin): Option<Schema>
    requires d.Obj?
    decreases d, 1
  {
    var f := d.fields;
    var params := BuildChoices(d, "params");
    var additional := BuildAdditional(d, "additionalParams");
    var returns_ := if "returns" in f then BuildReturns(f["returns"]) else Some(Some(AnySchema(NoMixin)));
    if params.Some? && additional.Some? && returns_.Some?
    then Some(MethodSchema(m, params.value, returns_.value, additional.value))
    else None
  }

  function BuildItems(d: Json): (r: Option<seq<Schema>>)
    decreases d, 0
  {
    if d.List? then CollectSeq(seq(|d.items|, i requires 0 <= i < |d.items| => Build(d.items[i]))) else None
  }

  /** A missing attribute reads as no additional schema, an unreadable one as a failure. */
  function BuildAdditional(d: Json, name: string): Option<Option<Schema>>
    requires d.Obj?
    decreases d, 0
  {
    if name !in d.fields then Some(None)
    else
      var s := Build(d.fields[name]);
      if s.Some? then Some(s) else None
  }

  /** A `properties` attribute is itself completed by convertTypeMap before it is walked: a simple
      type name reads as one property called `type`, and a map whose type can be guessed fails. */
  function BuildProperties(d: Json): Option<map<string, Schema>>
    decreases d, 0
  {
    match d
    case Str(name) => Some(if IsSimple(name) then map["type" := SimpleSchema(name)] else map[])
    case Obj(fields) =>
      if "type" !in fields && GuessType(fields.Keys).Some? then None
      else CollectMap(map p | p in fields :: Build(fields[p]))
    case _ => Some(map[])
  }

  /** The names in a `requires` list. */
  function ReadNames(d: Json): Option<set<string>> {
    if d.List? && forall i | 0 <= i < |d.items| :: d.items[i].Str? then
      Some(set i | 0 <= i < |d.items| :: d.items[i].s)
    else None
  }

  /** A `returns` map without a type describes `any`; a value that is no schema at all is ignored. */
  function BuildReturns(d: Json): Option<Option<Schema>>
    decreases d, 4
  {
    match d
    case Str(name) => Some(if IsSimple(name) then Some(SimpleSchema(name)) else None)
    case Obj(fields) =>
      var s := BuildAs(d, Typed(fields, ReturnsGuess(fields.Keys))["type"]);
      if s.Some? then Some(s) else None
    case _ => Some(None)
  }

  lemma ItemsRead(d: Json)
    requires d.List?
    ensures BuildItems(d).Some? <==> forall i | 0 <= i < |d.items| :: Build(d.items[i]).Some?
    ensures BuildItems(d).Some? ==>
              && |BuildItems(d).value| == |d.items|
              && forall i | 0 <= i < |d.items| :: Build(d.items[i]) == Some(BuildItems(d).value[i])
  {
    var rs := seq(|d.items|, i requires 0 <= i < |d.items| => Build(d.items[i]));
    assert BuildItems(d) == CollectSeq(rs);
    assert forall i | 0 <= i < |d.items| :: rs[i] == Build(d.items[i]);
  }

  lemma PropertiesRead(d: Json)
    requires d.Obj? && ("type" in d.fields || GuessType(d.fields.Keys).None?)
    ensures BuildProperties(d).Some? <==> forall p | p in d.fields :: Build(d.fields[p]).Some?
    ensures BuildProperties(d).Some? ==>
              && BuildProperties(d).value.Keys == d.fields.Keys
              && forall p | p in d.fields :: Build(d.fields[p]) == Some(BuildProperties(d).value[p])
  {
    var rs := map p | p in d.fields :: Build(d.fields[p]);
    assert BuildProperties(d) == CollectMap(rs);
    assert forall p | p in d.fields :: rs[p] == Build(d.fields[p]);
  }

  lemma MethodOfParts(d: Json, m: Mixin)
    requires d.Obj?
    ensures BuildKind(d, MethodKind, m) ==
            var params, additional := BuildChoices(d, "params"), BuildAdditional(d, "additionalParams");
            var returns_ := if "returns" in d.fields then BuildReturns(d.fields["returns"]) else Some(Some(AnySchema(NoMixin)));
            if params.Some? && additional.Some? && returns_.Some?
            then Some(MethodSchema(m, params.value, returns_.value, additional.value)) else None
  {
    assert BuildKind(d, MethodKind, m) == BuildMethod(d, m);
  }

  lemma ObjectOfParts(d: Json, m: Mixin)
    requires d.Obj?
    ensures BuildKind(d, ObjectKind, m) ==
            var properties := if "properties" in d.fields then BuildProperties(d.fields["properties"]) else Some(map[]);
            var required := if "requires" in d.fields then ReadNames(d.fields["requires"]) else Some({});
            var additional := BuildAdditional(d, "additionalProperties");
            if properties.Some? && required.Some? && additional.Some? && required.value <= properties.value.Keys
            then Some(ObjectSchema(m, properties.value, Required(required.value), additional.value)) else None
  {
    assert BuildKind(d, ObjectKind, m) == BuildObject(d, m);
  }

  lemma ListOfParts(d: Json, m: Mixin)
    requires d.Obj? && "items" in d.fields && !d.fields["items"].List?
    ensures BuildKind(d, ListKind, m) ==
            var item := Build(d.fields["items"]);
            if item.Some? then
              Some(ListSchema(m, item.value, AttrLength(d.fields, "minItems"), AttrLength(d.fields, "maxItems")))
            else None
  {
    assert BuildKind(d, ListKind, m) == BuildList(d, m);
  }

  lemma TupleOfParts(d: Json, m: Mixin)
    requires d.Obj? && "items" in d.fields && d.fields["items"].List?
    ensures BuildKind(d, ListKind, m) ==
            var children, additional := BuildItems(d.fields["items"]), BuildAdditional(d, "additionalItems");
            if children.Some? && additional.Some? then Some(TupleSchema(m, children.value, additional.value)) else None
  {
    assert BuildKind(d, ListKind, m) == BuildList(d, m);
  }

  // ----- What the builder writes into its input ---------------------------------------------

  /** How an attribute of a schema map is read. */
  datatype Role = ItemsRole | NodeRole | NodeOrItemsRole | PropertiesRole | ReturnsRole | PlainRole

  function RoleOf(key: string): Role {
    match key
    case "anyOf" => ItemsRole
    case "allOf" => ItemsRole
    case "params" => ItemsRole
    case "items" => NodeOrItemsRole
    case "not" => NodeRole
    case "additionalItems" => NodeRole
    case "additionalProperties" => NodeRole
    case "additionalParams" => NodeRole
    case "properties" => PropertiesRole
    case "returns" => ReturnsRole
    case _ => PlainRole
  }

  /** `d2` is `d1` after some of the writes a build may perform, at any depth. */
  predicate Annotated(d1: Json, d2: Json)
    decreases d1, 2
  {
    d1 == d2 || (d1.Obj? && AnnotatedNode(d1, d2, GuessType(d1.fields.Keys)))
  }

  predicate AnnotatedNode(d1: Json, d2: Json, guess: Option<string>)
    requires d1.Obj?
    decreases d1, 1
  {
    && d2.Obj?
    && TypedOrSame(d1.fields, d2.fields, guess)
    && forall k | k in d1.fields :: AnnotatedAttr(RoleOf(k), d1.fields[k], d2.fields[k])
  }

  /** `f2` has the keys of `f1` and possibly the `type` entry that convertTypeMap adds. */
  predicate TypedOrSame(f1: map<string, Json>, f2: map<string, Json>, guess: Option<string>)
    ensures TypedOrSame(f1, f2, guess) ==> f1.Keys <= f2.Keys
  {
    || f2.Keys == f1.Keys
    || (guess.Some? && f2.Keys == f1.Keys + {"type"} && f2["type"] == Str(guess.value))
  }

  predicate AnnotatedAttr(role: Role, v1: Json, v2: Json)
    decreases v1, 3
  {
    match role
    case ItemsRole => if v1.List? then AnnotatedItems(v1, v2) else v1 == v2
    case NodeOrItemsRole => if v1.List? then AnnotatedItems(v1, v2) else Annotated(v1, v2)
    case NodeRole => Annotated(v1, v2)
    case PropertiesRole => AnnotatedProperties(v1, v2)
    case ReturnsRole => v1 == v2 || (v1.Obj? && AnnotatedNode(v1, v2, ReturnsGuess(v1.fields.Keys)))
    case PlainRole => v1 == v2
  }

  predicate AnnotatedItems(v1: Json, v2: Json)
    requires v1.List?
    decreases v1, 0
  {
    v2.List? && |v2.items| == |v1.items| && forall i | 0 <= i < |v1.items| :: Annotated(v1.items[i], v2.items[i])
  }

  predicate AnnotatedProperties(v1: Json, v2: Json)
    decreases v1, 0
  {
    || v1 == v2
    || (&& v1.Obj? && v2.Obj?
        && TypedOrSame(v1.fields, v2.fields, GuessType(v1.fields.Keys))
        && forall k | k in v1.fields :: Annotated(v1.fields[k], v2.fields[k]))
  }

  /** The attributes a successful build of a map of the given kind goes into. */
  predicate Visits(kind: Kind, fields: map<string, Json>, key: string) {
    match kind
    case AnyOfKind => key == "anyOf"
    case AllOfKind => key == "allOf"
    case NotKind => key == "not"
    case ListKind => key == "items" || (key == "additionalItems" && "items" in fields && fields["items"].List?)
    case ObjectKind => key == "properties" || key == "additionalProperties"
    case MethodKind => key == "params" || key == "additionalParams" || key == "returns"
    case _ => false
  }

  /** All the writes of a successful build: every map it went into has a type. */
  function Annotate(d: Json): Json
    decreases d, 4
  {
    if d.Obj? then AnnotateTyped(d, Typed(d.fields, GuessType(d.fields.Keys))) else d
  }

  /** Writes below the attributes of `d`, whose `type` entry is the one in `typed`. */
  function AnnotateTyped(d: Json, typed: map<string, Json>): (r: Json)
    requires d.Obj?
    ensures r.Obj? && r.fields.Keys == typed.Keys
    decreases d, 3
  {
    if "type" in typed && KindOf(typed["type"]).Some? then
      var kind := KindOf(typed["type"]).value;
      Obj(map k | k in typed :: if k in d.fields && Visits(kind, typed, k)
                                then AnnotateAttr(RoleOf(k), d.fields[k]) else typed[k])
    else Obj(typed)
  }

  function AnnotateAttr(role: Role, v: Json): Json
    decreases v, 5
  {
    match role
    case ItemsRole => AnnotateItems(v)
    case NodeOrItemsRole => if v.List? then AnnotateItems(v) else Annotate(v)
    case NodeRole => Annotate(v)
    case PropertiesRole => if v.Obj? then Obj(map p | p in v.fields :: Annotate(v.fields[p])) else v
    case ReturnsRole => if v.Obj? then AnnotateTyped(v, Typed(v.fields, ReturnsGuess(v.fields.Keys))) else v
    case PlainRole => v
  }

  function AnnotateItems(v: Json): Json
    decreases v, 0
  {
    if v.List? then List(seq(|v.items|, i requires 0 <= i < |v.items| => Annotate(v.items[i]))) else v
  }

  // ----- Building is stable under its own writes --------------------------------------------

  /** Two attributes that read the same in a given role. */
  ghost predicate AttrAlike(role: Role, v1: Json, v2: Json) {
    match role
    case ItemsRole => BuildItems(v1) == BuildItems(v2)
    case NodeOrItemsRole =>
      v1.List? == v2.List? && if v1.List? then BuildItems(v1) == BuildItems(v2) else Build(v1) == Build(v2)
    case NodeRole => Build(v1) == Build(v2)
    case PropertiesRole => BuildProperties(v1) == BuildProperties(v2)
    case ReturnsRole => BuildReturns(v1) == BuildReturns(v2)
    case PlainRole => v1 == v2
  }

  ghost predicate ReadAlike(f1: map<string, Json>, f2: map<string, Json>) {
    && (forall k | k != "type" :: k in f1 <==> k in f2)
    && (forall k | k != "type" && k in f1 :: AttrAlike(RoleOf(k), f1[k], f2[k]))
  }

  /** Maps whose attributes read alike describe the same schema, whatever their types. */
  lemma BuildAlike(d1: Json, d2: Json, typ: Json)
    requires d1.Obj? && d2.Obj? && ReadAlike(d1.fields, d2.fields)
    ensures BuildAs(d1, typ) == BuildAs(d2, typ)
  {
    PlainAlike(d1.fields, d2.fields);
    if KindOf(typ).Some? && MixinReadable(d1.fields) {
      KindAlike(d1, d2, KindOf(typ).value, ReadMixin(d1.fields));
    }
  }

  lemma KindAlike(d1: Json, d2: Json, kind: Kind, m: Mixin)
    requires d1.Obj? && d2.Obj? && ReadAlike(d1.fields, d2.fields)
    ensures BuildKind(d1, kind, m) == BuildKind(d2, kind, m)
  {
    match kind
    case NumberKind => PlainAlike(d1.fields, d2.fields);
    case IntegerKind => PlainAlike(d1.fields, d2.fields);
    case StringKind => PlainAlike(d1.fields, d2.fields);
    case AnyOfKind => NodesAlike(d1.fields, d2.fields);
    case AllOfKind => NodesAlike(d1.fields, d2.fields);
    case NotKind => NodesAlike(d1.fields, d2.fields);
    case ListKind => ListAlike(d1, d2, m);
    case ObjectKind => ObjectAlike(d1, d2, m);
    case MethodKind => MethodAlike(d1, d2, m);
    case _ =>
  }

  lemma AdditionalAlike(d1: Json, d2: Json, name: string)
    requires d1.Obj? && d2.Obj? && AlikeIn(NodeRole, d1.fields, d2.fields, name)
    ensures BuildAdditional(d1, name) == BuildAdditional(d2, name)
  {
  }

  lemma ListAlike(d1: Json, d2: Json, m: Mixin)
    requires d1.Obj? && d2.Obj? && ReadAlike(d1.fields, d2.fields)
    ensures BuildKind(d1, ListKind, m) == BuildKind(d2, ListKind, m)
  {
    PlainAlike(d1.fields, d2.fields);
    NodesAlike(d1.fields, d2.fields);
    AdditionalAlike(d1, d2, "additionalItems");
    if "items" in d1.fields {
      if d1.fields["items"].List? {
        TupleOfParts(d1, m);
        TupleOfParts(d2, m);
      } else {
        ListOfParts(d1, m);
        ListOfParts(d2, m);
      }
    }
  }

  lemma ObjectAlike(d1: Json, d2: Json, m: Mixin)
    requires d1.Obj? && d2.Obj? && ReadAlike(d1.fields, d2.fields)
    ensures BuildKind(d1, ObjectKind, m) == BuildKind(d2, ObjectKind, m)
  {
    PlainAlike(d1.fields, d2.fields);
    NodesAlike(d1.fields, d2.fields);
    AdditionalAlike(d1, d2, "additionalProperties");
    ObjectOfParts(d1, m);
    ObjectOfParts(d2, m);
  }

  lemma MethodAlike(d1: Json, d2: Json, m: Mixin)
    requires d1.Obj? && d2.Obj? && ReadAlike(d1.fields, d2.fields)
    ensures BuildKind(d1, MethodKind, m) == BuildKind(d2, MethodKind, m)
  {
    NodesAlike(d1.fields, d2.fields);
    AdditionalAlike(d1, d2, "additionalParams");
    MethodOfParts(d1, m);
    MethodOfParts(d2, m);
  }

  predicate SameEntry(f1: map<string, Json>, f2: map<string, Json>, key: string) {
    (key in f1 <==> key in f2) && (key in f1 ==> f1[key] == f2[key])
  }

  lemma PlainAlike(f1: map<string, Json>, f2: map<string, Json>)
    requires ReadAlike(f1, f2)
    ensures SameEntry(f1, f2, "name") && SameEntry(f1, f2, "description")
    ensures SameEntry(f1, f2, "minimum") && SameEntry(f1, f2, "maximum")
    ensures SameEntry(f1, f2, "exclusiveMinimum") && SameEntry(f1, f2, "exclusiveMaximum")
    ensures SameEntry(f1, f2, "minLength") && SameEntry(f1, f2, "maxLength")
    ensures SameEntry(f1, f2, "minItems") && SameEntry(f1, f2, "maxItems") && SameEntry(f1, f2, "requires")
  {
    PlainRoles();
  }

  ghost predicate AlikeIn(role: Role, f1: map<string, Json>, f2: map<string, Json>, key: string) {
    (key in f1 <==> key in f2) && (key in f1 ==> AttrAlike(role, f1[key], f2[key]))
  }

  lemma NodesAlike(f1: map<string, Json>, f2: map<string, Json>)
    requires ReadAlike(f1, f2)
    ensures AlikeIn(ItemsRole, f1, f2, "anyOf") && AlikeIn(ItemsRole, f1, f2, "allOf")
    ensures AlikeIn(ItemsRole, f1, f2, "params") && AlikeIn(NodeOrItemsRole, f1, f2, "items")
    ensures AlikeIn(NodeRole, f1, f2, "not") && AlikeIn(NodeRole, f1, f2, "additionalItems")
    ensures AlikeIn(NodeRole, f1, f2, "additionalProperties") && AlikeIn(NodeRole, f1, f2, "additionalParams")
    ensures AlikeIn(PropertiesRole, f1, f2, "properties") && AlikeIn(ReturnsRole, f1, f2, "returns")
  {
    NodeRoles();
  }

  lemma PlainRoles()
    ensures RoleOf("name") == RoleOf("description") == RoleOf("minimum") == RoleOf("maximum") == PlainRole
    ensures RoleOf("exclusiveMinimum") == RoleOf("exclusiveMaximum") == RoleOf("minLength") == PlainRole
    ensures RoleOf("maxLength") == RoleOf("minItems") == RoleOf("maxItems") == RoleOf("requires") == PlainRole
  {
  }

  lemma NodeRoles()
    ensures RoleOf("anyOf") == RoleOf("allOf") == RoleOf("params") == ItemsRole
    ensures RoleOf("items") == NodeOrItemsRole
    ensures RoleOf("not") == RoleOf("additionalItems") == NodeRole
    ensures RoleOf("additionalProperties") == RoleOf("additionalParams") == NodeRole
    ensures RoleOf("properties") == PropertiesRole && RoleOf("returns") == ReturnsRole
  {
  }

  /** Building again, after any part of the writes of an earlier build, successful or not,
      gives the same schema or fails again. */
  lemma {:induction false} RebuildStable(d1: Json, d2: Json)
    requires Annotated(d1, d2)
    ensures Build(d1) == Build(d2)
    decreases d1, 2
  {
    if d1 != d2 {
      var guess := GuessType(d1.fields.Keys);
      NodeReadAlike(d1, d2, guess);
      var typed := Typed(d1.fields, guess);
      if "type" in typed { BuildAlike(d1, d2, typed["type"]); }
    }
  }

  lemma {:induction false} NodeReadAlike(d1: Json, d2: Json, guess: Option<string>)
    requires d1.Obj? && AnnotatedNode(d1, d2, guess)
    ensures ReadAlike(d1.fields, d2.fields)
    ensures "type" in d1.fields ==> d2.fields["type"] == d1.fields["type"]
    decreases d1, 1
  {
    forall k | k in d1.fields ensures AttrAlike(RoleOf(k), d1.fields[k], d2.fields[k]) {
      AttrStable(RoleOf(k), d1.fields[k], d2.fields[k]);
    }
  }

  lemma {:induction false} AttrStable(role: Role, v1: Json, v2: Json)
    requires AnnotatedAttr(role, v1, v2)
    ensures AttrAlike(role, v1, v2)
    decreases v1, 3
  {
    match role
    case ItemsRole => if v1.List? { ItemsStable(v1, v2); }
    case NodeOrItemsRole => if v1.List? { ItemsStable(v1, v2); } else {
      RebuildStable(v1, v2);
      if v1 != v2 { assert AnnotatedNode(v1, v2, GuessType(v1.fields.Keys)); }
    }
    case NodeRole => RebuildStable(v1, v2);
    case PropertiesRole => PropertiesStable(v1, v2);
    case ReturnsRole =>
      if v1 != v2 {
        var guess := ReturnsGuess(v1.fields.Keys);
        NodeReadAlike(v1, v2, guess);
        BuildAlike(v1, v2, Typed(v1.fields, guess)["type"]);
      }
    case PlainRole =>
  }

  lemma {:induction false} ItemsStable(v1: Json, v2: Json)
    requires v1.List? && AnnotatedItems(v1, v2)
    ensures BuildItems(v1) == BuildItems(v2)
    decreases v1, 0
  {
    forall i | 0 <= i < |v1.items| ensures Build(v1.items[i]) == Build(v2.items[i]) {
      RebuildStable(v1.items[i], v2.items[i]);
    }
    assert seq(|v1.items|, i requires 0 <= i < |v1.items| => Build(v1.items[i]))
        == seq(|v2.items|, i requires 0 <= i < |v2.items| => Build(v2.items[i]));
  }

  lemma {:induction false} PropertiesStable(v1: Json, v2: Json)
    requires AnnotatedProperties(v1, v2)
    ensures BuildProperties(v1) == BuildProperties(v2)
    decreases v1, 0
  {
    if v1 != v2 {
      var f1, f2 := v1.fields, v2.fields;
      if "type" in f1 || GuessType(f1.Keys).None? {
        forall k | k in f1 ensures Build(f1[k]) == Build(f2[k]) { RebuildStable(f1[k], f2[k]); }
        SamePropertyReadings(f1, f2);
      } else {
        GuessIsNoSchema(f1, f2);
      }
    }
  }

  lemma SamePropertyReadings(f1: map<string, Json>, f2: map<string, Json>)
    requires f1.Keys == f2.Keys && ("type" in f1 || GuessType(f1.Keys).None?)
    requires forall k | k in f1 :: Build(f1[k]) == Build(f2[k])
    ensures BuildProperties(Obj(f1)) == BuildProperties(Obj(f2))
  {
    assert (map p | p in f1 :: Build(f1[p])) == (map p | p in f2 :: Build(f2[p]));
  }

  lemma GuessIsUnbuildable(keys: set<string>)
    ensures GuessType(keys).Some? ==> Build(Str(GuessType(keys).value)).None?
  {
  }

  /** A guessed type is never the name of a simple type, so as a property it cannot be built. */
  lemma GuessIsNoSchema(f1: map<string, Json>, f2: map<string, Json>)
    requires "type" !in f1 && GuessType(f1.Keys).Some?
    requires TypedOrSame(f1, f2, GuessType(f1.Keys))
    ensures BuildProperties(Obj(f2)).None?
  {
    if f2.Keys != f1.Keys {
      PropertiesRead(Obj(f2));
      GuessIsUnbuildable(f1.Keys);
    }
  }

  // ----- A completed input is left alone ----------------------------------------------------

  /** Building what an earlier build has completed writes nothing more. */
  lemma {:induction false} AnnotateIdempotent(d: Json)
    ensures Annotate(Annotate(d)) == Annotate(d)
    decreases d, 4
  {
    if d.Obj? { NodeIdempotent(d, Typed(d.fields, GuessType(d.fields.Keys))); }
  }

  lemma {:induction false} NodeIdempotent(d: Json, typed: map<string, Json>)
    requires d.Obj? && d.fields.Keys <= typed.Keys && (forall k | k in d.fields :: typed[k] == d.fields[k])
    requires forall k | k in typed && k !in d.fields :: k == "type"
    ensures var a := AnnotateTyped(d, typed); AnnotateTyped(a, a.fields) == a
    decreases d, 3
  {
    var a := AnnotateTyped(d, typed);
    if "type" in typed && KindOf(typed["type"]).Some? {
      var kind := KindOf(typed["type"]).value;
      TypeIsNotVisited(kind, typed);
      assert a.fields["type"] == typed["type"];
      forall k | k in d.fields
        ensures AnnotateAttr(RoleOf(k), AnnotateAttr(RoleOf(k), d.fields[k])) == AnnotateAttr(RoleOf(k), d.fields[k])
      {
        AttrIdempotent(RoleOf(k), d.fields[k]);
      }
      ItemsStayItems(d, typed, kind);
      assert AnnotateTyped(a, a.fields).fields == a.fields;
    }
  }

  lemma TypeIsNotVisited(kind: Kind, fields: map<string, Json>)
    ensures !Visits(kind, fields, "type")
  {
  }

  lemma ItemsStayItems(d: Json, typed: map<string, Json>, kind: Kind)
    requires d.Obj? && d.fields.Keys <= typed.Keys && (forall k | k in d.fields :: typed[k] == d.fields[k])
    requires forall k | k in typed && k !in d.fields :: k == "type"
    requires "type" in typed && KindOf(typed["type"]) == Some(kind)
    ensures forall k :: Visits(kind, AnnotateTyped(d, typed).fields, k) == Visits(kind, typed, k)
  {
    NodeRoles();
    if "items" in typed {
      assert "items" in d.fields && RoleOf("items") == NodeOrItemsRole;
      RoleKeepsList(d.fields["items"]);
    }
  }

  lemma RoleKeepsList(v: Json)
    ensures AnnotateAttr(NodeOrItemsRole, v).List? == v.List?
  {
    if v.List? { assert AnnotateAttr(NodeOrItemsRole, v) == AnnotateItems(v); }
  }

  lemma {:induction false} AttrIdempotent(role: Role, v: Json)
    ensures AnnotateAttr(role, AnnotateAttr(role, v)) == AnnotateAttr(role, v)
    decreases v, 5
  {
    match role
    case ItemsRole => ItemsIdempotent(v);
    case NodeOrItemsRole => if v.List? { ItemsIdempotent(v); } else { AnnotateIdempotent(v); RoleKeepsList(v); }
    case NodeRole => AnnotateIdempotent(v);
    case PropertiesRole =>
      if v.Obj? {
        forall p | p in v.fields { AnnotateIdempotent(v.fields[p]); }
        var once := AnnotateAttr(role, v);
        assert AnnotateAttr(role, once).fields == once.fields;
      }
    case ReturnsRole => if v.Obj? { NodeIdempotent(v, Typed(v.fields, ReturnsGuess(v.fields.Keys))); }
    case PlainRole =>
  }

  lemma {:induction false} ItemsIdempotent(v: Json)
    ensures AnnotateItems(AnnotateItems(v)) == AnnotateItems(v)
    decreases v, 0
  {
    if v.List? {
      forall i | 0 <= i < |v.items| { AnnotateIdempotent(v.items[i]); }
      var once := AnnotateItems(v);
      assert AnnotateItems(once).items == once.items;
    }
  }
}
