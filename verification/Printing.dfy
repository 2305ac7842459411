/**
 Printing a schema as JSON, and what building the printed JSON gives back: the schema
 without the parts that the `Map` methods do not print.
 */
module Printing {
  import opened Basics
  import opened JsonValues
  import opened Schemas
  import opened SchemaReading

  function TypeName(s: Schema): string {
    match s
    case AnySchema(_) => "any"
    case NullSchema(_) => "null"
    case BoolSchema(_) => "bool"
    case NumberSchema(_, _, _, _, _) => "number"
    case IntegerSchema(_, _, _, _, _) => "integer"
    case StringSchema(_, _, _) => "string"
    case AnyOfSchema(_, _) => "anyOf"
    case AllOfSchema(_, _) => "allOf"
    case NotSchema(_, _) => "not"
    case ListSchema(_, _, _, _) => "list"
    case TupleSchema(_, _, _) => "list"
    case ObjectSchema(_, _, _, _) => "object"
    case MethodSchema(_, _, _, _) => "method"
  }

  /** rebuildType: the type, and the name and description unless empty. */
  function RebuildType(typeName: string, m: Mixin): (tp: map<string, Json>)
    ensures tp.Keys <= {"type", "name", "description"}
  {
    var tp := map["type" := Str(typeName)];
    var named := if m.name != "" then tp["name" := Str(m.name)] else tp;
    if m.description != "" then named["description" := Str(m.description)] else named
  }

  /** The entries a kind may print besides those of RebuildType. */
  function AttrKeys(s: Schema): set<string> {
    match s
    case NumberSchema(_, _, _, _, _) => {"maximum", "exclusiveMaximum", "minimum", "exclusiveMinimum"}
    case IntegerSchema(_, _, _, _, _) => {"maximum", "exclusiveMaximum", "minimum", "exclusiveMinimum"}
    case AnyOfSchema(_, _) => {"anyOf"}
    case AllOfSchema(_, _) => {"allOf"}
    case NotSchema(_, _) => {"not"}
    case ListSchema(_, _, _, _) => {"items"}
    case TupleSchema(_, _, _) => {"items"}
    case ObjectSchema(_, _, _, _) => {"properties", "requires", "additionalProperties"}
    case MethodSchema(_, _, _, _) => {"params", "returns", "additionalParams"}
    case _ => {}
  }

  /** `j` is what `s` prints as; the names in `requires` may come in any order. */
  ghost predicate Prints(s: Schema, j: Json)
    decreases s, 2
  {
    j.Obj? && PrintsOver(RebuildType(TypeName(s), s.mixin), s, j.fields)
  }

  ghost predicate PrintsOver(base: map<string, Json>, s: Schema, f: map<string, Json>)
    decreases s, 1
  {
    && base.Keys <= f.Keys <= base.Keys + AttrKeys(s)
    && (forall k | k in base :: f[k] == base[k])
    && match s
       case NumberSchema(_, min, max, exMin, exMax) =>
         && PrintsBound(f, "maximum", if max.Some? then Some(FloatLiteral(max.value)) else None, "exclusiveMaximum", exMax)
         && PrintsBound(f, "minimum", if min.Some? then Some(FloatLiteral(min.value)) else None, "exclusiveMinimum", exMin)
       case IntegerSchema(_, min, max, exMin, exMax) =>
         && PrintsBound(f, "maximum", if max.Some? then Some(Int(max.value)) else None, "exclusiveMaximum", exMax)
         && PrintsBound(f, "minimum", if min.Some? then Some(Int(min.value)) else None, "exclusiveMinimum", exMin)
       case AnyOfSchema(_, choices) => "anyOf" in f && PrintsAll(s, choices, f["anyOf"])
       case AllOfSchema(_, choices) => "allOf" in f && PrintsAll(s, choices, f["allOf"])
       case NotSchema(_, child) => "not" in f && Prints(child, f["not"])
       case ListSchema(_, item, _, _) => "items" in f && Prints(item, f["items"])
       case TupleSchema(_, children, _) => "items" in f && PrintsAll(s, children, f["items"])
       case ObjectSchema(_, _, required, additional) =>
         && "properties" in f && PrintsProperties(s, f["properties"])
         && "requires" in f && PrintsNames(required.Keys, f["requires"])
         && PrintsOptional(s, additional, f, "additionalProperties")
       case MethodSchema(_, params, returns_, additional) =>
         && "params" in f && PrintsAll(s, params, f["params"])
         && PrintsOptional(s, returns_, f, "returns")
         && PrintsOptional(s, additional, f, "additionalParams")
       case _ => true
  }

  /** An exclusive flag is printed only beside its bound. */
  ghost predicate PrintsBound(f: map<string, Json>, bound: string, value: Option<Json>, flag: string, exclusive: Option<bool>) {
    && (bound in f <==> value.Some?)
    && (value.Some? ==> f[bound] == value.value)
    && (flag in f <==> value.Some? && exclusive.Some?)
    && (flag in f ==> f[flag] == Bool(exclusive.value))
  }

  ghost predicate PrintsOptional(parent: Schema, s: Option<Schema>, f: map<string, Json>, key: string)
    requires s.Some? ==> s.value < parent
    decreases parent, 0
  {
    (key in f <==> s.Some?) && (s.Some? ==> Prints(s.value, f[key]))
  }

  ghost predicate PrintsAll(parent: Schema, schemas: seq<Schema>, j: Json)
    requires forall i | 0 <= i < |schemas| :: schemas[i] < parent
    decreases parent, 0
  {
    j.List? && |j.items| == |schemas| && forall i | 0 <= i < |schemas| :: Prints(schemas[i], j.items[i])
  }

  ghost predicate PrintsProperties(s: Schema, j: Json)
    requires s.ObjectSchema?
    decreases s, 0
  {
    && j.Obj? && j.fields.Keys == s.properties.Keys
    && forall p | p in s.properties :: Prints(s.properties[p], j.fields[p])
  }

  ghost predicate PrintsNames(names: set<string>, j: Json) {
    && j.List?
    && (forall i | 0 <= i < |j.items| :: j.items[i].Str? && j.items[i].s in names)
    && (forall name | name in names :: Str(name) in j.items)
  }

  // ----- The Map methods ----------------------------------------------------------------------

  method ToMap(s: Schema) returns (tp: map<string, Json>)
    ensures Prints(s, Obj(tp))
    decreases s, 2
  {
    tp := RebuildType(TypeName(s), s.mixin);
    match s
    case NumberSchema(_, _, _, _, _) => tp := NumberToMap(s, tp);
    case IntegerSchema(_, _, _, _, _) => tp := IntegerToMap(s, tp);
    case AnyOfSchema(_, choices) =>
      var arr := ToMaps(s, choices);
      tp := tp["anyOf" := arr];
    case AllOfSchema(_, choices) =>
      var arr := ToMaps(s, choices);
      tp := tp["allOf" := arr];
    case NotSchema(_, child) =>
      var m := ToMap(child);
      tp := tp["not" := Obj(m)];
    case ListSchema(_, item, _, _) =>
      var m := ToMap(item);
      tp := tp["items" := Obj(m)];
    case TupleSchema(_, children, _) =>
      var arr := ToMaps(s, children);
      tp := tp["items" := arr];
    case ObjectSchema(_, _, _, _) => tp := ObjectToMap(s, tp);
    case MethodSchema(_, _, _, _) => tp := MethodToMap(s, tp);
    case _ =>
  }

  method NumberToMap(s: Schema, base: map<string, Json>) returns (tp: map<string, Json>)
    requires s.NumberSchema?
    requires base.Keys <= {"type", "name", "description"}
    ensures PrintsOver(base, s, tp)
    decreases s, 1
  {
    tp := base;
    if s.maximum.Some? {
      tp := tp["maximum" := FloatLiteral(s.maximum.value)];
      if s.exclusiveMaximum.Some? { tp := tp["exclusiveMaximum" := Bool(s.exclusiveMaximum.value)]; }
    }
    if s.minimum.Some? {
      tp := tp["minimum" := FloatLiteral(s.minimum.value)];
      if s.exclusiveMinimum.Some? { tp := tp["exclusiveMinimum" := Bool(s.exclusiveMinimum.value)]; }
    }
  }

  method IntegerToMap(s: Schema, base: map<string, Json>) returns (tp: map<string, Json>)
    requires s.IntegerSchema?
    requires base.Keys <= {"type", "name", "description"}
    ensures PrintsOver(base, s, tp)
    decreases s, 1
  {
    tp := base;
    if s.maxInt.Some? {
      tp := tp["maximum" := Int(s.maxInt.value)];
      if s.exclusiveMaximum.Some? { tp := tp["exclusiveMaximum" := Bool(s.exclusiveMaximum.value)]; }
    }
    if s.minInt.Some? {
      tp := tp["minimum" := Int(s.minInt.value)];
      if s.exclusiveMinimum.Some? { tp := tp["exclusiveMinimum" := Bool(s.exclusiveMinimum.value)]; }
    }
  }

  method ObjectToMap(s: Schema, base: map<string, Json>) returns (tp: map<string, Json>)
    requires s.ObjectSchema?
    requires base.Keys <= {"type", "name", "description"}
    ensures PrintsOver(base, s, tp)
    decreases s, 1
  {
    tp := base;
    var props := PropertiesToMap(s);
    tp := tp["properties" := Obj(props)];
    var arr := NamesOf(s.required.Keys);
    tp := tp["requires" := arr];
    tp := AddOptional(tp, "additionalProperties", s.additional, s);
  }

  method MethodToMap(s: Schema, base: map<string, Json>) returns (tp: map<string, Json>)
    requires s.MethodSchema?
    requires base.Keys <= {"type", "name", "description"}
    ensures PrintsOver(base, s, tp)
    decreases s, 1
  {
    tp := base;
    var arr := ToMaps(s, s.params);
    tp := tp["params" := arr];
    tp := AddOptional(tp, "returns", s.returns_, s);
    tp := AddOptional(tp, "additionalParams", s.additional, s);
  }

  method AddOptional(tp: map<string, Json>, key: string, s: Option<Schema>, ghost parent: Schema)
      returns (after: map<string, Json>)
    requires key !in tp && (s.Some? ==> s.value < parent)
    ensures PrintsOptional(parent, s, after, key)
    ensures after.Keys == tp.Keys + (if s.Some? then {key} else {})
    ensures forall k | k in tp :: after[k] == tp[k]
    decreases parent, 0
  {
    after := tp;
    if s.Some? {
      var m := ToMap(s.value);
      after := tp[key := Obj(m)];
    }
  }

  method ToMaps(ghost parent: Schema, schemas: seq<Schema>) returns (arr: Json)
    requires forall i | 0 <= i < |schemas| :: schemas[i] < parent
    ensures PrintsAll(parent, schemas, arr)
    decreases parent, 0
  {
    var items := [];
    for i := 0 to |schemas|
      invariant |items| == i && forall j | 0 <= j < i :: Prints(schemas[j], items[j])
    {
      var m := ToMap(schemas[i]);
      items := items + [Obj(m)];
    }
    return List(items);
  }

  method PropertiesToMap(s: Schema) returns (props: map<string, Json>)
    requires s.ObjectSchema?
    ensures PrintsProperties(s, Obj(props))
    decreases s, 0
  {
    props := map[];
    var unvisited := s.properties.Keys;
    while unvisited != {}
      invariant unvisited <= s.properties.Keys && props.Keys == s.properties.Keys - unvisited
      invariant forall p | p in props :: Prints(s.properties[p], props[p])
      decreases unvisited
    {
      var name :| name in unvisited;
      unvisited := unvisited - {name};
      var m := ToMap(s.properties[name]);
      props := props[name := Obj(m)];
    }
  }

  method NamesOf(names: set<string>) returns (arr: Json)
    ensures PrintsNames(names, arr)
  {
    var items: seq<Json> := [];
    var unvisited := names;
    while unvisited != {}
      invariant unvisited <= names
      invariant forall i | 0 <= i < |items| :: items[i].Str? && items[i].s in names
      invariant forall name | name in names && name !in unvisited :: Str(name) in items
      decreases unvisited
    {
      var name :| name in unvisited;
      unvisited, items := unvisited - {name}, items + [Str(name)];
    }
    return List(items);
  }
}
