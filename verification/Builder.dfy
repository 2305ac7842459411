/**
 The schema builder. Its methods take the JSON they read and return it as they leave it, since
 they complete missing `type` entries in place; maps are walked in any order.
 */
module Building {
  import opened Basics
  import opened JsonValues
  import opened Schemas
  import opened SchemaReading

  // ----- convert.go -------------------------------------------------------------------------

  /** The map that convertTypeMap makes of a value. */
  function Converted(d: Json): Option<map<string, Json>> {
    match d
    case Str(name) => if IsSimple(name) then Some(map["type" := d]) else None
    case Obj(fields) => Some(Typed(fields, GuessType(fields.Keys)))
    case _ => None
  }

  /** What is left in place of a value once its map is `node`. */
  function InPlace(d: Json, node: map<string, Json>): Json {
    if d.Obj? then Obj(node) else d
  }

  method ConvertTypeMap(maybeType: Json) returns (typeMap: Option<map<string, Json>>, after: Json)
    ensures typeMap == Converted(maybeType)
    ensures after == if typeMap.Some? then InPlace(maybeType, typeMap.value) else maybeType
  {
    if maybeType.Str? && IsSimple(maybeType.s) {
      return Some(map["type" := maybeType]), maybeType;
    }
    if maybeType.Obj? {
      var fields := maybeType.fields;
      if "type" !in fields {
        if "params" in fields {
          fields := fields["type" := Str("method")];
        } else if "properties" in fields {
          fields := fields["type" := Str("object")];
        } else {
          var compositTypes := ["anyOf", "allOf", "not"];
          for i := 0 to |compositTypes|
            invariant fields == maybeType.fields && compositTypes == ["anyOf", "allOf", "not"]
            invariant (i >= 1 ==> "anyOf" !in fields) && (i >= 2 ==> "allOf" !in fields) && (i == 3 ==> "not" !in fields)
          {
            if compositTypes[i] in fields {
              fields := fields["type" := Str(compositTypes[i])];
              break;
            }
          }
        }
      }
      return Some(fields), Obj(fields);
    }
    return None, maybeType;
  }

  /** `after` is `items` with the maps among its first `n` elements converted in place. */
  ghost predicate ConvertedUpTo(items: seq<Json>, after: seq<Json>, n: nat)
    requires n <= |items|
  {
    && |after| == |items|
    && forall i | 0 <= i < |items| ::
         after[i] == if i < n && Converted(items[i]).Some? then InPlace(items[i], Converted(items[i]).value) else items[i]
  }

  method ConvertListOfMap(items: seq<Json>) returns (nodes: Option<seq<map<string, Json>>>, after: seq<Json>)
    ensures nodes.Some? ==> |nodes.value| == |items| && forall i | 0 <= i < |items| :: Converted(items[i]) == Some(nodes.value[i])
    ensures nodes.None? ==> exists i | 0 <= i < |items| :: Converted(items[i]).None?
    ensures exists n | 0 <= n <= |items| :: ConvertedUpTo(items, after, n)
    ensures nodes.Some? ==> ConvertedUpTo(items, after, |items|)
  {
    var arr := [];
    after := items;
    for i := 0 to |items|
      invariant |arr| == i && forall j | 0 <= j < i :: Converted(items[j]) == Some(arr[j])
      invariant ConvertedUpTo(items, after, i)
    {
      var itemMap, item := ConvertTypeMap(items[i]);
      after := after[i := item];
      if itemMap.None? {
        assert ConvertedUpTo(items, after, i);
        return None, after;
      }
      arr := arr + [itemMap.value];
    }
    return Some(arr), after;
  }

  method ConvertListOfString(items: seq<Json>) returns (names: Option<seq<string>>)
    ensures names.Some? <==> ReadNames(List(items)).Some?
    ensures names.Some? ==> ReadNames(List(items)) == Some(set x | x in names.value)
  {
    var arr := [];
    for i := 0 to |items|
      invariant |arr| == i && forall j | 0 <= j < i :: items[j] == Str(arr[j])
    {
      if !items[i].Str? { return None; }
      arr := arr + [items[i].s];
    }
    forall x ensures x in arr <==> x in ReadNames(List(items)).value {
      if x in arr {
        var j :| 0 <= j < |arr| && arr[j] == x;
        assert items[j].s == x;
      }
    }
    assert (set x | x in arr) == ReadNames(List(items)).value;
    return Some(arr);
  }

  method ConvertMapOfMap(fields: map<string, Json>)
      returns (nodes: Option<map<string, map<string, Json>>>, after: map<string, Json>)
    ensures nodes.Some? ==> nodes.value.Keys == after.Keys == fields.Keys
    ensures nodes.Some? ==>
              forall p | p in fields :: Converted(fields[p]) == Some(nodes.value[p]) && after[p] == InPlace(fields[p], nodes.value[p])
    ensures nodes.None? ==> exists p | p in fields :: Converted(fields[p]).None?
    ensures after.Keys == fields.Keys && forall p | p in fields :: Annotated(fields[p], after[p])
  {
    var resMap: map<string, map<string, Json>> := map[];
    after := fields;
    var unvisited := fields.Keys;
    while unvisited != {}
      invariant unvisited <= fields.Keys && after.Keys == fields.Keys && resMap.Keys == fields.Keys - unvisited
      invariant forall p | p in resMap :: Converted(fields[p]) == Some(resMap[p]) && after[p] == InPlace(fields[p], resMap[p])
      invariant forall p | p in unvisited :: after[p] == fields[p]
      decreases unvisited
    {
      var name :| name in unvisited;
      unvisited := unvisited - {name};
      var mv, value := ConvertTypeMap(fields[name]);
      if mv.None? {
        forall p | p in fields ensures Annotated(fields[p], after[p]) { ConvertedIsAnnotated(fields[p]); }
        return None, after;
      }
      resMap, after := resMap[name := mv.value], after[name := value];
    }
    forall p | p in fields ensures Annotated(fields[p], after[p]) { ConvertedIsAnnotated(fields[p]); }
    return Some(resMap), after;
  }

  lemma AnnotatedAttrReflexive(role: Role, v: Json)
    ensures AnnotatedAttr(role, v, v)
  {
  }

  lemma ConvertedIsAnnotated(d: Json)
    ensures Converted(d).Some? ==> Annotated(d, InPlace(d, Converted(d).value))
  {
    if d.Obj? {
      forall k | k in d.fields { AnnotatedAttrReflexive(RoleOf(k), d.fields[k]); }
      assert AnnotatedNode(d, Obj(Converted(d).value), GuessType(d.fields.Keys));
    }
  }

  // ----- What building a converted map computes ---------------------------------------------

  /** Every attribute of `node`, its `type` apart, is a part of `src`. */
  ghost predicate Below(node: map<string, Json>, src: Json) {
    forall k | k in node && k != "type" :: node[k] < src
  }

  function BuildConverted(node: map<string, Json>): Option<Schema> {
    if "type" in node then BuildAs(Obj(node), node["type"]) else None
  }

  ghost predicate SameBelow(before: map<string, Json>, after: map<string, Json>) {
    after.Keys == before.Keys && forall k | k in before :: AnnotatedAttr(RoleOf(k), before[k], after[k])
  }

  /** Only the attribute `name` was written to. */
  ghost predicate WroteBelow(before: map<string, Json>, after: map<string, Json>, name: string) {
    && after.Keys == before.Keys
    && (forall k | k in before && k != name :: after[k] == before[k])
    && (name in before ==> AnnotatedAttr(RoleOf(name), before[name], after[name]))
  }

  lemma WroteIsSame(before: map<string, Json>, after: map<string, Json>, name: string)
    requires WroteBelow(before, after, name)
    ensures SameBelow(before, after)
  {
    forall k | k in before { AnnotatedAttrReflexive(RoleOf(k), before[k]); }
  }

  /** A map completed with a type builds as the map it was, read at that type. */
  lemma TypedBuild(d: Json, guess: Option<string>, node: map<string, Json>)
    requires d.Obj? && node == Typed(d.fields, guess)
    ensures "type" in node ==> BuildAs(d, node["type"]) == BuildConverted(node)
    ensures Below(node, d)
  {
    forall k | k in d.fields ensures AttrAlike(RoleOf(k), d.fields[k], node[k]) {}
    assert ReadAlike(d.fields, node);
    if "type" in node { BuildAlike(d, Obj(node), node["type"]); }
  }

  lemma ConvertedBuild(d: Json, node: map<string, Json>)
    requires Converted(d) == Some(node)
    ensures Build(d) == BuildConverted(node)
    ensures Below(node, d)
  {
    if d.Obj? { TypedBuild(d, GuessType(d.fields.Keys), node); }
  }

  /** Writing below a completed map keeps the value it came from annotated. */
  lemma AnnotatedThrough(d: Json, guess: Option<string>, after: map<string, Json>)
    requires d.Obj? && SameBelow(Typed(d.fields, guess), after)
    ensures AnnotatedNode(d, Obj(after), guess)
  {
    var node := Typed(d.fields, guess);
    assert "type" in node ==> after["type"] == node["type"] by {
      assert RoleOf("type") == PlainRole;
    }
    forall k | k in d.fields ensures AnnotatedAttr(RoleOf(k), d.fields[k], after[k]) {
      assert node[k] == d.fields[k];
    }
    assert TypedOrSame(d.fields, after, guess);
  }

  lemma AnnotateThrough(d: Json, guess: Option<string>, node: map<string, Json>)
    requires d.Obj? && node == Typed(d.fields, guess)
    ensures AnnotateTyped(d, node) == AnnotateTyped(Obj(node), node)
  {
    if "type" in node && KindOf(node["type"]).Some? {
      TypeIsNotVisited(KindOf(node["type"]).value, node);
      var a, b := AnnotateTyped(d, node).fields, AnnotateTyped(Obj(node), node).fields;
      forall k | k in node ensures a[k] == b[k] { assert k in d.fields || k == "type"; }
      assert a == b;
    }
  }

  // ----- builder.go -------------------------------------------------------------------------

  /** The schema is that of the specification; the input is annotated, completely on success. */
  method BuildNode(data: Json) returns (schema: Option<Schema>, after: Json)
    ensures schema == Build(data)
    ensures Annotated(data, after)
    ensures schema.Some? ==> after == Annotate(data)
    decreases data, 6
  {
    var typeMap;
    typeMap, after := ConvertTypeMap(data);
    if typeMap.None? { return None, after; }
    schema, after := BuildInPlace(data, typeMap.value);
  }

  /** Builds the map that `data` was converted to, and leaves it in place of `data`. */
  method BuildInPlace(data: Json, typeMap: map<string, Json>) returns (schema: Option<Schema>, after: Json)
    requires Converted(data) == Some(typeMap)
    ensures schema == Build(data)
    ensures Annotated(data, after)
    ensures schema.Some? ==> after == Annotate(data)
    decreases data, 5
  {
    ConvertedBuild(data, typeMap);
    var node;
    schema, node := BuildNodeMap(typeMap, data);
    after := InPlace(data, node);
    if data.Obj? {
      AnnotatedThrough(data, GuessType(data.fields.Keys), node);
      AnnotateThrough(data, GuessType(data.fields.Keys), typeMap);
    }
  }

  method BuildNodeMap(node: map<string, Json>, ghost src: Json)
      returns (schema: Option<Schema>, after: map<string, Json>)
    requires Below(node, src)
    ensures schema == BuildConverted(node)
    ensures SameBelow(node, after)
    ensures schema.Some? ==> Obj(after) == AnnotateTyped(Obj(node), node)
    decreases src, 4
  {
    after := node;
    NothingWritten(node);
    if "type" !in node { return None, after; }
    var kind := KindOf(node["type"]);
    if kind.None? { return None, after; }
    schema, after := BuildByKind(node, kind.value, src);
    MixinIsSetLast(node, kind.value);
    if schema.None? { return; }
    schema := BuildMixin(schema.value, node);
  }

  method BuildByKind(node: map<string, Json>, kind: Kind, ghost src: Json)
      returns (schema: Option<Schema>, after: map<string, Json>)
    requires Below(node, src) && "type" in node && KindOf(node["type"]) == Some(kind)
    ensures schema == BuildKind(Obj(node), kind, NoMixin)
    ensures SameBelow(node, after)
    ensures schema.Some? ==> Obj(after) == AnnotateTyped(Obj(node), node)
    decreases src, 3
  {
    after := node;
    NothingWritten(node);
    match kind
    case NumberKind => schema := Some(BuildNumber(node, NoMixin));
    case IntegerKind => schema := Some(BuildInteger(node, NoMixin));
    case BoolKind => schema := Some(BoolSchema(NoMixin));
    case AnyKind => schema := Some(AnySchema(NoMixin));
    case NullKind => schema := Some(NullSchema(NoMixin));
    case StringKind => schema := Some(BuildString(node, NoMixin));
    case AnyOfKind => schema, after := BuildAnyOfSchema(node, src);
    case AllOfKind => schema, after := BuildAllOfSchema(node, src);
    case NotKind => schema, after := BuildNotSchema(node, src);
    case ListKind => schema, after := BuildListSchema(node, src);
    case ObjectKind => schema, after := BuildObjectSchema(node, src);
    case MethodKind => schema, after := BuildMethodSchema(node, src);
  }

  lemma NothingWritten(node: map<string, Json>)
    ensures SameBelow(node, node)
    ensures "type" in node && KindOf(node["type"]).Some? && (forall k :: !Visits(KindOf(node["type"]).value, node, k)) ==>
              AnnotateTyped(Obj(node), node) == Obj(node)
  {
    forall k | k in node { AnnotatedAttrReflexive(RoleOf(k), node[k]); }
    if "type" in node && KindOf(node["type"]).Some? && (forall k :: !Visits(KindOf(node["type"]).value, node, k)) {
      assert AnnotateTyped(Obj(node), node).fields == node;
    }
  }

  lemma KindMixin(d: Json, kind: Kind, m: Mixin)
    requires d.Obj?
    ensures var bare := BuildKind(d, kind, NoMixin);
            && (bare.Some? ==> bare.value.mixin == NoMixin)
            && BuildKind(d, kind, m) == if bare.Some? then Some(bare.value.(mixin := m)) else None
  {
  }

  /** Reading the name and description after the rest is the same as reading them first. */
  lemma MixinIsSetLast(node: map<string, Json>, kind: Kind)
    requires "type" in node && KindOf(node["type"]) == Some(kind)
    ensures var bare := BuildKind(Obj(node), kind, NoMixin);
            && (bare.Some? ==> bare.value.mixin == NoMixin)
            && BuildConverted(node) == if MixinReadable(node) && bare.Some?
                                       then Some(bare.value.(mixin := ReadMixin(node))) else None
  {
    var m := if MixinReadable(node) then ReadMixin(node) else NoMixin;
    KindMixin(Obj(node), kind, m);
  }

  /** A kind that goes into one attribute only. */
  lemma AnnotateOne(node: map<string, Json>, kind: Kind, name: string)
    requires "type" in node && KindOf(node["type"]) == Some(kind) && name in node
    requires forall k | k in node :: Visits(kind, node, k) <==> k == name
    ensures AnnotateTyped(Obj(node), node) == Obj(node[name := AnnotateAttr(RoleOf(name), node[name])])
  {
    assert AnnotateTyped(Obj(node), node).fields == node[name := AnnotateAttr(RoleOf(name), node[name])];
  }

  method BuildMixin(schema: Schema, node: map<string, Json>) returns (r: Option<Schema>)
    requires schema.mixin == NoMixin
    ensures r == if MixinReadable(node) then Some(schema.(mixin := ReadMixin(node))) else None
  {
    var s := schema;
    if "name" in node {
      if !node["name"].Str? { return None; }
      s := s.(mixin := s.mixin.(name := node["name"].s));
    }
    if "description" in node {
      if !node["description"].Str? { return None; }
      s := s.(mixin := s.mixin.(description := node["description"].s));
    }
    return Some(s);
  }

  method BuildAnyOfSchema(node: map<string, Json>, ghost src: Json)
      returns (schema: Option<Schema>, after: map<string, Json>)
    requires Below(node, src) && "type" in node && KindOf(node["type"]) == Some(AnyOfKind)
    ensures schema == BuildKind(Obj(node), AnyOfKind, NoMixin)
    ensures SameBelow(node, after)
    ensures schema.Some? ==> Obj(after) == AnnotateTyped(Obj(node), node)
    decreases src, 1
  {
    var choices;
    NodeRoles();
    choices, after := BuildListOfMap(node, "anyOf", src);
    WroteIsSame(node, after, "anyOf");
    if "anyOf" in node { AnnotateOne(node, AnyOfKind, "anyOf"); }
    schema := if choices.Some? then Some(AnyOfSchema(NoMixin, choices.value)) else None;
  }

  method BuildAllOfSchema(node: map<string, Json>, ghost src: Json)
      returns (schema: Option<Schema>, after: map<string, Json>)
    requires Below(node, src) && "type" in node && KindOf(node["type"]) == Some(AllOfKind)
    ensures schema == BuildKind(Obj(node), AllOfKind, NoMixin)
    ensures SameBelow(node, after)
    ensures schema.Some? ==> Obj(after) == AnnotateTyped(Obj(node), node)
    decreases src, 1
  {
    var choices;
    NodeRoles();
    choices, after := BuildListOfMap(node, "allOf", src);
    WroteIsSame(node, after, "allOf");
    if "allOf" in node { AnnotateOne(node, AllOfKind, "allOf"); }
    schema := if choices.Some? then Some(AllOfSchema(NoMixin, choices.value)) else None;
  }

  /** The loop shared by anyOf, allOf and params: convert every item, then build every item. */
  method BuildListOfMap(node: map<string, Json>, name: string, ghost src: Json)
      returns (schemas: Option<seq<Schema>>, after: map<string, Json>)
    requires name in node ==> node[name] < src
    requires RoleOf(name) == ItemsRole
    ensures schemas == BuildChoices(Obj(node), name)
    ensures WroteBelow(node, after, name)
    ensures schemas.Some? ==> after == node[name := AnnotateItems(node[name])]
    decreases src, 0
  {
    after := node;
    if name !in node || !node[name].List? { return None, after; }
    var items := node[name].items;
    var nodes, items' := ConvertListOfMap(items);
    forall i | 0 <= i < |items| ensures Annotated(items[i], items'[i]) { ConvertedIsAnnotated(items[i]); }
    if nodes.None? {
      ItemUnbuilt(items);
      return None, node[name := List(items')];
    }
    schemas, items' := BuildItemNodes(items, nodes.value, items', node[name]);
    after := node[name := List(items')];
  }

  method BuildItemNodes(items: seq<Json>, nodes: seq<map<string, Json>>, converted: seq<Json>, ghost src: Json)
      returns (schemas: Option<seq<Schema>>, after: seq<Json>)
    requires src.List? && src.items == items
    requires |nodes| == |items| && forall i | 0 <= i < |items| :: Converted(items[i]) == Some(nodes[i])
    requires |converted| == |items| && forall i | 0 <= i < |items| :: Annotated(items[i], converted[i])
    ensures schemas == BuildItems(src)
    ensures AnnotatedItems(src, List(after))
    ensures schemas.Some? ==> List(after) == AnnotateItems(src)
    decreases src
  {
    after := converted;
    var children := [];
    for i := 0 to |items|
      invariant |children| == i && |after| == |items|
      invariant forall j | 0 <= j < i :: Build(items[j]) == Some(children[j]) && after[j] == Annotate(items[j])
      invariant forall j | 0 <= j < |items| :: Annotated(items[j], after[j])
    {
      var c, item := BuildInPlace(items[i], nodes[i]);
      after := after[i := item];
      if c.None? {
        ItemsRead(src);
        return None, after;
      }
      children := children + [c.value];
    }
    ItemsBuilt(items, children, after);
    return Some(children), after;
  }

  lemma ItemUnbuilt(items: seq<Json>)
    requires exists i | 0 <= i < |items| :: Converted(items[i]).None?
    ensures BuildItems(List(items)).None?
  {
    var i :| 0 <= i < |items| && Converted(items[i]).None?;
    ItemsRead(List(items));
    assert Build(List(items).items[i]).None?;
  }

  lemma ItemsBuilt(items: seq<Json>, children: seq<Schema>, after: seq<Json>)
    requires |children| == |after| == |items|
    requires forall i | 0 <= i < |items| :: Build(items[i]) == Some(children[i]) && after[i] == Annotate(items[i])
    ensures BuildItems(List(items)) == Some(children)
    ensures AnnotateItems(List(items)) == List(after)
  {
    var d := List(items);
    ItemsRead(d);
    assert BuildItems(d).value == children;
    assert AnnotateItems(d).items == after;
  }

  method BuildNotSchema(node: map<string, Json>, ghost src: Json)
      returns (schema: Option<Schema>, after: map<string, Json>)
    requires Below(node, src) && "type" in node && KindOf(node["type"]) == Some(NotKind)
    ensures schema == BuildKind(Obj(node), NotKind, NoMixin)
    ensures SameBelow(node, after)
    ensures schema.Some? ==> Obj(after) == AnnotateTyped(Obj(node), node)
    decreases src, 1
  {
    after := node;
    NothingWritten(node);
    NodeRoles();
    if "not" !in node { return None, after; }
    // convertAttrMap and buildNodeMap, as in buildNode
    var child, value := BuildNode(node["not"]);
    after := node["not" := value];
    WroteIsSame(node, after, "not");
    AnnotateOne(node, NotKind, "not");
    schema := if child.Some? then Some(NotSchema(NoMixin, child.value)) else None;
  }

  method BuildAdditionalNode(node: map<string, Json>, name: string, ghost src: Json)
      returns (additional: Option<Option<Schema>>, after: map<string, Json>)
    requires name in node ==> node[name] < src
    requires RoleOf(name) == NodeRole
    ensures additional == BuildAdditional(Obj(node), name)
    ensures WroteBelow(node, after, name)
    ensures additional.Some? ==> after == if name in node then node[name := Annotate(node[name])] else node
    decreases src, 0
  {
    after := node;
    if name !in node { return Some(None), after; }
    var s, value := BuildNode(node[name]);
    after := node[name := value];
    additional := if s.Some? then Some(s) else None;
  }

  method BuildListSchema(node: map<string, Json>, ghost src: Json)
      returns (schema: Option<Schema>, after: map<string, Json>)
    requires Below(node, src) && "type" in node && KindOf(node["type"]) == Some(ListKind)
    ensures schema == BuildKind(Obj(node), ListKind, NoMixin)
    ensures SameBelow(node, after)
    ensures schema.Some? ==> Obj(after) == AnnotateTyped(Obj(node), node)
    decreases src, 2
  {
    if "items" !in node {
      NothingWritten(node);
      return None, node;
    }
    if node["items"].List? {
      schema, after := BuildTupleSchema(node, src);
    } else {
      schema, after := BuildItemSchema(node, src);
    }
  }

  method BuildItemSchema(node: map<string, Json>, ghost src: Json)
      returns (schema: Option<Schema>, after: map<string, Json>)
    requires Below(node, src) && "type" in node && KindOf(node["type"]) == Some(ListKind)
    requires "items" in node && !node["items"].List?
    ensures schema == BuildKind(Obj(node), ListKind, NoMixin)
    ensures SameBelow(node, after)
    ensures schema.Some? ==> Obj(after) == AnnotateTyped(Obj(node), node)
    decreases src, 1
  {
    NodeRoles();
    ListOfParts(Obj(node), NoMixin);
    var item, value := BuildNode(node["items"]);
    after := node["items" := value];
    WroteIsSame(node, after, "items");
    AnnotateOne(node, ListKind, "items");
    if item.None? { return None, after; }
    schema := Some(ListSchema(NoMixin, item.value, AttrLength(node, "minItems"), AttrLength(node, "maxItems")));
  }

  method BuildTupleSchema(node: map<string, Json>, ghost src: Json)
      returns (schema: Option<Schema>, after: map<string, Json>)
    requires Below(node, src) && "type" in node && KindOf(node["type"]) == Some(ListKind)
    requires "items" in node && node["items"].List?
    ensures schema == BuildKind(Obj(node), ListKind, NoMixin)
    ensures SameBelow(node, after)
    ensures schema.Some? ==> Obj(after) == AnnotateTyped(Obj(node), node)
    decreases src, 1
  {
    NodeRoles();
    TupleOfParts(Obj(node), NoMixin);
    var children, items' := BuildTupleItems(node["items"].items, node["items"]);
    var after1 := node["items" := List(items')];
    WroteIsSame(node, after1, "items");
    if children.None? { return None, after1; }
    var additional;
    additional, after := BuildAdditionalNode(after1, "additionalItems", src);
    WroteTwice(node, after1, after, "items", "additionalItems");
    if additional.None? { return None, after; }
    AnnotateTuple(node, after);
    return Some(TupleSchema(NoMixin, children.value, additional.value)), after;
  }

  lemma WroteTwice(node: map<string, Json>, after1: map<string, Json>, after2: map<string, Json>, name1: string, name2: string)
    requires name1 != name2 && WroteBelow(node, after1, name1) && WroteBelow(after1, after2, name2)
    ensures SameBelow(node, after2)
  {
    forall k | k in node { AnnotatedAttrReflexive(RoleOf(k), node[k]); }
  }

  method BuildTupleItems(items: seq<Json>, ghost src: Json) returns (schemas: Option<seq<Schema>>, after: seq<Json>)
    requires src.List? && src.items == items
    ensures schemas == BuildItems(src)
    ensures AnnotatedItems(src, List(after))
    ensures schemas.Some? ==> List(after) == AnnotateItems(src)
    decreases src
  {
    after := items;
    var children := [];
    for i := 0 to |items|
      invariant |children| == i && |after| == |items|
      invariant forall j | 0 <= j < i :: Build(items[j]) == Some(children[j]) && after[j] == Annotate(items[j])
      invariant forall j | 0 <= j < |items| :: Annotated(items[j], after[j])
    {
      var c, item := BuildNode(items[i]);
      after := after[i := item];
      if c.None? {
        ItemsRead(src);
        return None, after;
      }
      children := children + [c.value];
    }
    ItemsBuilt(items, children, after);
    return Some(children), after;
  }

  method BuildMethodSchema(node: map<string, Json>, ghost src: Json)
      returns (schema: Option<Schema>, after: map<string, Json>)
    requires Below(node, src) && "type" in node && KindOf(node["type"]) == Some(MethodKind)
    ensures schema == BuildKind(Obj(node), MethodKind, NoMixin)
    ensures SameBelow(node, after)
    ensures schema.Some? ==> Obj(after) == AnnotateTyped(Obj(node), node)
    decreases src, 1
  {
    NodeRoles();
    var params, after1 := BuildListOfMap(node, "params", src);
    WroteIsSame(node, after1, "params");
    MethodOfParts(Obj(node), NoMixin);
    if params.None? { return None, after1; }
    var additional, after2 := BuildAdditionalNode(after1, "additionalParams", src);
    WroteTwice(node, after1, after2, "params", "additionalParams");
    if additional.None? { return None, after2; }
    var returns_;
    returns_, after := BuildReturnsNode(after2, node["params"], src);
    WroteThrice(node, after1, after2, after, "params", "additionalParams", "returns");
    if returns_.None? { return None, after; }
    AnnotateMethod(node, after);
    schema := Some(MethodSchema(NoMixin, params.value, returns_.value, additional.value));
  }

  lemma WroteThrice(node: map<string, Json>, after1: map<string, Json>, after2: map<string, Json>, after3: map<string, Json>,
                    name1: string, name2: string, name3: string)
    requires name1 != name2 && name2 != name3 && name3 != name1
    requires WroteBelow(node, after1, name1) && WroteBelow(after1, after2, name2) && WroteBelow(after2, after3, name3)
    ensures SameBelow(node, after3)
  {
    forall k | k in node { AnnotatedAttrReflexive(RoleOf(k), node[k]); }
  }

  lemma AnnotateTuple(node: map<string, Json>, after: map<string, Json>)
    requires "type" in node && KindOf(node["type"]) == Some(ListKind) && "items" in node && node["items"].List?
    requires after.Keys == node.Keys
    requires forall k | k in node :: after[k] == if k == "items" || k == "additionalItems"
                                                 then AnnotateAttr(RoleOf(k), node[k]) else node[k]
    ensures AnnotateTyped(Obj(node), node) == Obj(after)
  {
    assert AnnotateTyped(Obj(node), node).fields == after;
  }

  lemma AnnotateMethod(node: map<string, Json>, after: map<string, Json>)
    requires "type" in node && KindOf(node["type"]) == Some(MethodKind)
    requires after.Keys == node.Keys
    requires forall k | k in node :: after[k] == if k == "params" || k == "additionalParams" || k == "returns"
                                                 then AnnotateAttr(RoleOf(k), node[k]) else node[k]
    ensures AnnotateTyped(Obj(node), node) == Obj(after)
  {
    assert AnnotateTyped(Obj(node), node).fields == after;
  }

  lemma AnnotateObject(node: map<string, Json>, after: map<string, Json>)
    requires "type" in node && KindOf(node["type"]) == Some(ObjectKind)
    requires after.Keys == node.Keys
    requires forall k | k in node :: after[k] == if k == "properties" || k == "additionalProperties"
                                                 then AnnotateAttr(RoleOf(k), node[k]) else node[k]
    ensures AnnotateTyped(Obj(node), node) == Obj(after)
  {
    assert AnnotateTyped(Obj(node), node).fields == after;
  }

  method BuildReturnsNode(node: map<string, Json>, ghost params: Json, ghost src: Json)
      returns (returns_: Option<Option<Schema>>, after: map<string, Json>)
    requires "returns" in node ==> node["returns"] < src
    requires params < src
    ensures returns_ == if "returns" in node then BuildReturns(node["returns"]) else Some(Some(AnySchema(NoMixin)))
    ensures WroteBelow(node, after, "returns")
    ensures returns_.Some? ==>
              after == if "returns" in node then node["returns" := AnnotateAttr(ReturnsRole, node["returns"])] else node
    decreases src, 0
  {
    NodeRoles();
    if "returns" !in node {
      // an absent `returns` converts to a fresh empty map
      var resultNode := map["type" := Str("any")];
      var any, _ := BuildNodeMap(resultNode, params);
      return Some(any), node;
    }
    var value;
    returns_, value := BuildReturnsValue(node["returns"]);
    after := node["returns" := value];
  }

  method BuildReturnsValue(v: Json) returns (returns_: Option<Option<Schema>>, after: Json)
    ensures returns_ == BuildReturns(v)
    ensures AnnotatedAttr(ReturnsRole, v, after)
    ensures returns_.Some? ==> after == AnnotateAttr(ReturnsRole, v)
    decreases v, 5
  {
    var typeMap, _ := ConvertTypeMap(v);
    if typeMap.None? { return Some(None), v; }
    var resultNode := typeMap.value;
    if "type" !in resultNode { resultNode := resultNode["type" := Str("any")]; }
    ReturnsConverted(v, resultNode);
    var c, result := BuildNodeMap(resultNode, v);
    after := InPlace(v, result);
    if v.Obj? {
      AnnotatedThrough(v, ReturnsGuess(v.fields.Keys), result);
      AnnotateThrough(v, ReturnsGuess(v.fields.Keys), resultNode);
    }
    returns_ := if c.Some? then Some(c) else None;
  }

  lemma ReturnsConverted(v: Json, node: map<string, Json>)
    requires Converted(v).Some?
    requires node == var typed := Converted(v).value; if "type" in typed then typed else typed["type" := Str("any")]
    ensures Below(node, v)
    ensures BuildReturns(v) == if BuildConverted(node).Some? then Some(BuildConverted(node)) else None
    ensures v.Obj? ==> node == Typed(v.fields, ReturnsGuess(v.fields.Keys))
  {
    if v.Obj? { TypedBuild(v, ReturnsGuess(v.fields.Keys), node); } else { ConvertedBuild(v, node); }
  }

  method BuildObjectSchema(node: map<string, Json>, ghost src: Json)
      returns (schema: Option<Schema>, after: map<string, Json>)
    requires Below(node, src) && "type" in node && KindOf(node["type"]) == Some(ObjectKind)
    ensures schema == BuildKind(Obj(node), ObjectKind, NoMixin)
    ensures SameBelow(node, after)
    ensures schema.Some? ==> Obj(after) == AnnotateTyped(Obj(node), node)
    decreases src, 1
  {
    NodeRoles();
    ObjectOfParts(Obj(node), NoMixin);
    var properties, after1 := BuildPropertyNodes(node, src);
    WroteIsSame(node, after1, "properties");
    if properties.None? { return None, after1; }
    var required := ReadRequires(after1, properties.value.Keys);
    if required.None? { return None, after1; }
    var additional;
    additional, after := BuildAdditionalNode(after1, "additionalProperties", src);
    WroteTwice(node, after1, after, "properties", "additionalProperties");
    if additional.None? { return None, after; }
    AnnotateObject(node, after);
    schema := Some(ObjectSchema(NoMixin, properties.value, Required(required.value), additional.value));
  }

  method ReadRequires(node: map<string, Json>, properties: set<string>) returns (required: Option<set<string>>)
    ensures var names := if "requires" in node then ReadNames(node["requires"]) else Some({});
            required == if names.Some? && names.value <= properties then names else None
  {
    if "requires" !in node { return Some({}); }
    if !node["requires"].List? { return None; }
    var requireList := ConvertListOfString(node["requires"].items);
    if requireList.None? { return None; }
    var names: set<string> := {};
    for i := 0 to |requireList.value|
      invariant names == set j | 0 <= j < i :: requireList.value[j]
      invariant names <= properties
    {
      var reqProp := requireList.value[i];
      if reqProp !in properties {
        assert reqProp in ReadNames(node["requires"]).value;
        return None;
      }
      names := names + {reqProp};
    }
    assert names == ReadNames(node["requires"]).value;
    return Some(names);
  }

  method BuildPropertyNodes(node: map<string, Json>, ghost src: Json)
      returns (properties: Option<map<string, Schema>>, after: map<string, Json>)
    requires "properties" in node ==> node["properties"] < src
    ensures properties == if "properties" in node then BuildProperties(node["properties"]) else Some(map[])
    ensures WroteBelow(node, after, "properties")
    ensures properties.Some? && "properties" in node ==>
              after == node["properties" := AnnotateAttr(PropertiesRole, node["properties"])]
    ensures properties.Some? && "properties" !in node ==> after == node
    decreases src, 0
  {
    NodeRoles();
    if "properties" !in node { return Some(map[]), node; }
    var value;
    properties, value := BuildPropertiesValue(node["properties"]);
    after := node["properties" := value];
  }

  method BuildPropertiesValue(v: Json) returns (properties: Option<map<string, Schema>>, after: Json)
    ensures properties == BuildProperties(v)
    ensures AnnotatedProperties(v, after)
    ensures properties.Some? ==> after == AnnotateAttr(PropertiesRole, v)
    decreases v, 7
  {
    var typeMap, _ := ConvertTypeMap(v);
    if typeMap.None? { return Some(map[]), v; }
    var nodes, fields := ConvertMapOfMap(typeMap.value);
    PropertiesAnnotated(v, typeMap.value, fields);
    if nodes.None? {
      PropertyUnbuilt(v, typeMap.value);
      return None, InPlace(v, fields);
    }
    GuessIsNotConverted(v, typeMap.value);
    properties, fields := BuildPropertyMaps(typeMap.value, nodes.value, fields, v);
    PropertiesAnnotated(v, typeMap.value, fields);
    after := InPlace(v, fields);
    if properties.Some? { PropertiesBuilt(v, typeMap.value, properties.value, fields); }
    else { PropertyUnbuilt(v, typeMap.value); }
  }

  /** Property `p` has been built and its JSON left as a successful build leaves it. */
  ghost predicate PropertyDone(fields: map<string, Json>, built: map<string, Schema>, after: map<string, Json>, p: string) {
    && p in fields && p in built && p in after
    && Build(fields[p]) == Some(built[p]) && after[p] == Annotate(fields[p])
  }

  ghost predicate AllDone(fields: map<string, Json>, built: map<string, Schema>, after: map<string, Json>) {
    forall p | p in built :: PropertyDone(fields, built, after, p)
  }

  ghost predicate AllAnnotated(fields: map<string, Json>, after: map<string, Json>) {
    after.Keys == fields.Keys && forall p | p in fields :: Annotated(fields[p], after[p])
  }

  method BuildPropertyMaps(fields: map<string, Json>, nodes: map<string, map<string, Json>>, converted: map<string, Json>,
                           ghost v: Json)
      returns (properties: Option<map<string, Schema>>, after: map<string, Json>)
    requires nodes.Keys == fields.Keys && AllAnnotated(fields, converted)
    requires forall p | p in fields :: Converted(fields[p]) == Some(nodes[p])
    requires forall p | p in fields :: fields[p] == v || fields[p] < v
    ensures properties.None? ==> exists p | p in fields :: Build(fields[p]).None?
    ensures properties.Some? ==> AllDone(fields, properties.value, after) && properties.value.Keys == fields.Keys
    ensures AllAnnotated(fields, after)
    decreases v, 6
  {
    after := converted;
    var built: map<string, Schema> := map[];
    var unvisited := fields.Keys;
    while unvisited != {}
      invariant unvisited <= fields.Keys && built.Keys == fields.Keys - unvisited
      invariant AllDone(fields, built, after)
      invariant AllAnnotated(fields, after)
      decreases unvisited
    {
      var propName :| propName in unvisited;
      unvisited := unvisited - {propName};
      var child, value := BuildInPlace(fields[propName], nodes[propName]);
      PropertyWritten(fields, built, after, propName, child, value);
      after := after[propName := value];
      if child.None? { return None, after; }
      built := built[propName := child.value];
    }
    return Some(built), after;
  }

  lemma PropertyWritten(fields: map<string, Json>, built: map<string, Schema>, after: map<string, Json>,
                        prop: string, child: Option<Schema>, value: Json)
    requires AllAnnotated(fields, after) && AllDone(fields, built, after)
    requires prop in fields && Annotated(fields[prop], value)
    requires child == Build(fields[prop]) && (child.Some? ==> value == Annotate(fields[prop]))
    ensures AllAnnotated(fields, after[prop := value])
    ensures child.Some? ==> AllDone(fields, built[prop := child.value], after[prop := value])
  {
    if child.Some? {
      var built', after' := built[prop := child.value], after[prop := value];
      forall p | p in built' ensures PropertyDone(fields, built', after', p) {
        assert p != prop ==> PropertyDone(fields, built, after, p);
      }
    }
  }

  /** The type guessed for a map of properties does not convert, so the map is refused. */
  lemma GuessIsNotConverted(v: Json, fields: map<string, Json>)
    requires Converted(v) == Some(fields) && forall p | p in fields :: Converted(fields[p]).Some?
    ensures v.Obj? ==> fields == v.fields && ("type" in fields || GuessType(fields.Keys).None?)
    ensures v.Obj? ==> forall p | p in fields :: fields[p] < v
    ensures v.Str? ==> fields == map["type" := v]
  {
    if v.Obj? {
      GuessIsNotSimple(v.fields.Keys);
    }
  }

  lemma GuessIsNotSimple(keys: set<string>)
    ensures GuessType(keys).Some? ==> Converted(Str(GuessType(keys).value)).None?
  {
  }

  lemma PropertyUnbuilt(v: Json, fields: map<string, Json>)
    requires Converted(v) == Some(fields) && exists p | p in fields :: Build(fields[p]).None?
    ensures BuildProperties(v).None?
  {
    var p :| p in fields && Build(fields[p]).None?;
    if v.Obj? && ("type" in v.fields || GuessType(v.fields.Keys).None?) {
      PropertiesRead(v);
      assert Build(v.fields[p]).None?;
    }
  }

  lemma PropertiesBuilt(v: Json, fields: map<string, Json>, built: map<string, Schema>, after: map<string, Json>)
    requires Converted(v) == Some(fields)
    requires v.Obj? ==> fields == v.fields && ("type" in fields || GuessType(fields.Keys).None?)
    requires built.Keys == after.Keys == fields.Keys && AllDone(fields, built, after)
    ensures BuildProperties(v) == Some(built)
    ensures AnnotateAttr(PropertiesRole, v) == InPlace(v, after)
  {
    if v.Obj? {
      PropertyMapBuilt(v, built, after);
    } else {
      assert PropertyDone(fields, built, after, "type");
      assert BuildProperties(v).value == built;
    }
  }

  lemma PropertyMapBuilt(v: Json, built: map<string, Schema>, after: map<string, Json>)
    requires v.Obj? && ("type" in v.fields || GuessType(v.fields.Keys).None?)
    requires built.Keys == after.Keys == v.fields.Keys && AllDone(v.fields, built, after)
    ensures BuildProperties(v) == Some(built)
    ensures AnnotateAttr(PropertiesRole, v) == Obj(after)
  {
    forall p | p in v.fields ensures Build(v.fields[p]) == Some(built[p]) && after[p] == Annotate(v.fields[p]) {
      assert PropertyDone(v.fields, built, after, p);
    }
    PropertyMapReads(v, built);
    PropertyMapAnnotates(v, after);
  }

  lemma PropertyMapReads(v: Json, built: map<string, Schema>)
    requires v.Obj? && ("type" in v.fields || GuessType(v.fields.Keys).None?) && built.Keys == v.fields.Keys
    requires forall p | p in v.fields :: Build(v.fields[p]) == Some(built[p])
    ensures BuildProperties(v) == Some(built)
  {
    PropertiesRead(v);
    assert BuildProperties(v).value == built;
  }

  lemma PropertyMapAnnotates(v: Json, after: map<string, Json>)
    requires v.Obj? && after.Keys == v.fields.Keys
    requires forall p | p in v.fields :: after[p] == Annotate(v.fields[p])
    ensures AnnotateAttr(PropertiesRole, v) == Obj(after)
  {
    assert AnnotateAttr(PropertiesRole, v).fields == after;
  }

  lemma PropertiesAnnotated(v: Json, fields: map<string, Json>, after: map<string, Json>)
    requires Converted(v) == Some(fields) && after.Keys == fields.Keys
    requires forall p | p in fields :: Annotated(fields[p], after[p])
    ensures AnnotatedProperties(v, InPlace(v, after))
  {
  }
}
