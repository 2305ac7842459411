/**
 The builder and the printer undo each other up to an exact erasure.
 */
module RoundTrips {
  import opened Basics
  import opened JsonValues
  import opened Schemas
  import opened SchemaReading
  import opened Printing

  /** `s` without what the Map methods drop: string lengths, list item bounds, the additional
      schema of a tuple and exclusive flags without a bound; a missing `returns` comes back
      as `any`, and every entry of the requirement map as true. */
  function Erase(s: Schema): (r: Schema)
    ensures r.mixin == s.mixin
  {
    match s
    case NumberSchema(m, min, max, exMin, exMax) =>
      NumberSchema(m, min, max, if min.Some? then exMin else None, if max.Some? then exMax else None)
    case IntegerSchema(m, min, max, exMin, exMax) =>
      IntegerSchema(m, min, max, if min.Some? then exMin else None, if max.Some? then exMax else None)
    case StringSchema(m, _, _) => StringSchema(m, None, None)
    case AnyOfSchema(m, choices) => AnyOfSchema(m, EraseAll(s, choices))
    case AllOfSchema(m, choices) => AllOfSchema(m, EraseAll(s, choices))
    case NotSchema(m, child) => NotSchema(m, Erase(child))
    case ListSchema(m, item, _, _) => ListSchema(m, Erase(item), None, None)
    case TupleSchema(m, children, _) => TupleSchema(m, EraseAll(s, children), None)
    case ObjectSchema(m, properties, required, additional) =>
      ObjectSchema(m, map p | p in properties :: Erase(properties[p]), Required(required.Keys),
                   if additional.Some? then Some(Erase(additional.value)) else None)
    case MethodSchema(m, params, returns_, additional) =>
      MethodSchema(m, EraseAll(s, params),
                   Some(if returns_.Some? then Erase(returns_.value) else AnySchema(NoMixin)),
                   if additional.Some? then Some(Erase(additional.value)) else None)
    case _ => s
  }

  function EraseAll(ghost parent: Schema, schemas: seq<Schema>): (r: seq<Schema>)
    requires forall i | 0 <= i < |schemas| :: schemas[i] < parent
    ensures |r| == |schemas| && forall i | 0 <= i < |schemas| :: r[i] == Erase(schemas[i])
    decreases parent, 0
  {
    seq(|schemas|, i requires 0 <= i < |schemas| => Erase(schemas[i]))
  }

  /** What printing drops at no depth: the schemas that Erase leaves alone. */
  predicate Lossless(s: Schema)
    decreases s
  {
    match s
    case NumberSchema(_, min, max, exMin, exMax) => (exMin.Some? ==> min.Some?) && (exMax.Some? ==> max.Some?)
    case IntegerSchema(_, min, max, exMin, exMax) => (exMin.Some? ==> min.Some?) && (exMax.Some? ==> max.Some?)
    case StringSchema(_, max, min) => max.None? && min.None?
    case AnyOfSchema(_, choices) => forall i | 0 <= i < |choices| :: Lossless(choices[i])
    case AllOfSchema(_, choices) => forall i | 0 <= i < |choices| :: Lossless(choices[i])
    case NotSchema(_, child) => Lossless(child)
    case ListSchema(_, item, min, max) => min.None? && max.None? && Lossless(item)
    case TupleSchema(_, children, additional) =>
      additional.None? && forall i | 0 <= i < |children| :: Lossless(children[i])
    case ObjectSchema(_, properties, required, additional) =>
      && (forall p | p in properties :: Lossless(properties[p]))
      && (forall p | p in required :: required[p])
      && (additional.Some? ==> Lossless(additional.value))
    case MethodSchema(_, params, returns_, additional) =>
      && (forall i | 0 <= i < |params| :: Lossless(params[i]))
      && returns_.Some? && Lossless(returns_.value)
      && (additional.Some? ==> Lossless(additional.value))
    case _ => true
  }

  /** Property names for which convertTypeMap would not mistake the printed `properties`
      for a schema and write a type into it. */
  predicate UnmistakableNames(names: set<string>) {
    "type" in names || GuessType(names).None?
  }

  /** The schemas whose print can be built again. */
  predicate Rebuildable(s: Schema)
    decreases s
  {
    match s
    case AnyOfSchema(_, choices) => forall i | 0 <= i < |choices| :: Rebuildable(choices[i])
    case AllOfSchema(_, choices) => forall i | 0 <= i < |choices| :: Rebuildable(choices[i])
    case NotSchema(_, child) => Rebuildable(child)
    case ListSchema(_, item, _, _) => Rebuildable(item)
    case TupleSchema(_, children, _) => forall i | 0 <= i < |children| :: Rebuildable(children[i])
    case ObjectSchema(_, properties, required, additional) =>
      && UnmistakableNames(properties.Keys)
      && required.Keys <= properties.Keys
      && (forall p | p in properties :: Rebuildable(properties[p]))
      && (additional.Some? ==> Rebuildable(additional.value))
    case MethodSchema(_, params, returns_, additional) =>
      && (forall i | 0 <= i < |params| :: Rebuildable(params[i]))
      && (returns_.Some? ==> Rebuildable(returns_.value))
      && (additional.Some? ==> Rebuildable(additional.value))
    case _ => true
  }

  // ----- Facts about erasure --------------------------------------------------------------------

  lemma {:induction false} LosslessIffKept(s: Schema)
    ensures Erase(s) == s <==> Lossless(s)
    decreases s, 1
  {
    match s
    case AnyOfSchema(_, choices) => EachLosslessIffKept(s, choices);
    case AllOfSchema(_, choices) => EachLosslessIffKept(s, choices);
    case NotSchema(_, child) => LosslessIffKept(child);
    case ListSchema(_, item, _, _) => LosslessIffKept(item);
    case TupleSchema(_, children, _) => EachLosslessIffKept(s, children);
    case ObjectSchema(_, _, _, _) => ObjectLosslessIffKept(s);
    case MethodSchema(_, _, _, _) => MethodLosslessIffKept(s);
    case _ =>
  }

  lemma {:induction false} ObjectLosslessIffKept(s: Schema)
    requires s.ObjectSchema?
    ensures Erase(s) == s <==> Lossless(s)
    decreases s, 0, 1
  {
    PropertiesLosslessIffKept(s);
    RequiredIffTrue(s.required);
    if s.additional.Some? { LosslessIffKept(s.additional.value); }
  }

  lemma {:induction false} MethodLosslessIffKept(s: Schema)
    requires s.MethodSchema?
    ensures Erase(s) == s <==> Lossless(s)
    decreases s, 0, 1
  {
    EachLosslessIffKept(s, s.params);
    if s.returns_.Some? { LosslessIffKept(s.returns_.value); }
    if s.additional.Some? { LosslessIffKept(s.additional.value); }
  }

  lemma {:induction false} PropertiesLosslessIffKept(s: Schema)
    requires s.ObjectSchema?
    ensures (map p | p in s.properties :: Erase(s.properties[p])) == s.properties <==>
            forall p | p in s.properties :: Lossless(s.properties[p])
    decreases s, 0, 0
  {
    var erased := map p | p in s.properties :: Erase(s.properties[p]);
    forall p | p in s.properties ensures erased[p] == s.properties[p] <==> Lossless(s.properties[p]) {
      LosslessIffKept(s.properties[p]);
    }
    if forall p | p in s.properties :: Lossless(s.properties[p]) {
      assert erased == s.properties;
    }
  }

  lemma RequiredIffTrue(required: map<string, bool>)
    ensures Required(required.Keys) == required <==> forall p | p in required :: required[p]
  {
    if forall p | p in required :: required[p] {
      assert Required(required.Keys) == required;
    } else {
      var p :| p in required && !required[p];
      assert Required(required.Keys)[p];
    }
  }

  lemma {:induction false} EachLosslessIffKept(parent: Schema, schemas: seq<Schema>)
    requires forall i | 0 <= i < |schemas| :: schemas[i] < parent
    ensures EraseAll(parent, schemas) == schemas <==> forall i | 0 <= i < |schemas| :: Lossless(schemas[i])
    decreases parent, 0, 0
  {
    forall i | 0 <= i < |schemas| ensures Erase(schemas[i]) == schemas[i] <==> Lossless(schemas[i]) {
      LosslessIffKept(schemas[i]);
    }
    var erased := EraseAll(parent, schemas);
    if erased == schemas {
      assert forall i | 0 <= i < |schemas| :: Erase(schemas[i]) == erased[i];
    }
  }

  /** Erasing loses nothing more the second time, and keeps a schema rebuildable. */
  lemma {:induction false} ErasedIsLossless(s: Schema)
    ensures Lossless(Erase(s))
    ensures Erase(Erase(s)) == Erase(s)
    ensures Rebuildable(s) ==> Rebuildable(Erase(s))
    decreases s, 2
  {
    LosslessIffKept(Erase(s));
    match s
    case AnyOfSchema(_, choices) => AllErasedLossless(s, choices);
    case AllOfSchema(_, choices) => AllErasedLossless(s, choices);
    case NotSchema(_, child) => ErasedIsLossless(child);
    case ListSchema(_, item, _, _) => ErasedIsLossless(item);
    case TupleSchema(_, children, _) => AllErasedLossless(s, children);
    case ObjectSchema(_, _, _, _) => ErasedObjectIsLossless(s);
    case MethodSchema(_, _, _, _) => ErasedMethodIsLossless(s);
    case _ =>
  }

  lemma {:induction false} AllErasedLossless(parent: Schema, schemas: seq<Schema>)
    requires forall i | 0 <= i < |schemas| :: schemas[i] < parent
    ensures forall i | 0 <= i < |schemas| :: Lossless(EraseAll(parent, schemas)[i])
    ensures (forall i | 0 <= i < |schemas| :: Rebuildable(schemas[i])) ==>
              forall i | 0 <= i < |schemas| :: Rebuildable(EraseAll(parent, schemas)[i])
    decreases parent, 0
  {
    forall i | 0 <= i < |schemas| { ErasedIsLossless(schemas[i]); }
  }

  lemma {:induction false} ErasedObjectIsLossless(s: Schema)
    requires s.ObjectSchema?
    ensures Lossless(Erase(s)) && (Rebuildable(s) ==> Rebuildable(Erase(s)))
    decreases s, 1
  {
    forall p | p in s.properties
      ensures Lossless(Erase(s.properties[p])) && (Rebuildable(s.properties[p]) ==> Rebuildable(Erase(s.properties[p])))
    {
      ErasedIsLossless(s.properties[p]);
    }
    if s.additional.Some? { ErasedIsLossless(s.additional.value); }
    assert Erase(s).properties.Keys == s.properties.Keys;
  }

  lemma {:induction false} ErasedMethodIsLossless(s: Schema)
    requires s.MethodSchema?
    ensures Lossless(Erase(s)) && (Rebuildable(s) ==> Rebuildable(Erase(s)))
    decreases s, 1
  {
    AllErasedLossless(s, s.params);
    if s.returns_.Some? { ErasedIsLossless(s.returns_.value); }
    if s.additional.Some? { ErasedIsLossless(s.additional.value); }
  }

  // ----- Building what was printed --------------------------------------------------------------

  function KindOfSchema(s: Schema): Kind {
    match s
    case AnySchema(_) => AnyKind
    case NullSchema(_) => NullKind
    case BoolSchema(_) => BoolKind
    case NumberSchema(_, _, _, _, _) => NumberKind
    case IntegerSchema(_, _, _, _, _) => IntegerKind
    case StringSchema(_, _, _) => StringKind
    case AnyOfSchema(_, _) => AnyOfKind
    case AllOfSchema(_, _) => AllOfKind
    case NotSchema(_, _) => NotKind
    case ListSchema(_, _, _, _) => ListKind
    case TupleSchema(_, _, _) => ListKind
    case ObjectSchema(_, _, _, _) => ObjectKind
    case MethodSchema(_, _, _, _) => MethodKind
  }

  lemma PrintedKind(s: Schema)
    ensures KindOf(Str(TypeName(s))) == Some(KindOfSchema(s))
  {
  }

  /** The type, name and description read back, so that only the attributes remain. */
  lemma PrintedHeader(s: Schema, j: Json)
    requires Prints(s, j)
    ensures "type" in j.fields && Build(j) == BuildKind(j, KindOfSchema(s), s.mixin)
  {
    PrintedKind(s);
    var f := j.fields;
    var base := RebuildType(TypeName(s), s.mixin);
    assert "type" in base && f["type"] == Str(TypeName(s));
    PrintedMixin(s, base, f);
    assert Build(j) == BuildAs(j, f["type"]);
  }

  lemma PrintedMixin(s: Schema, base: map<string, Json>, f: map<string, Json>)
    requires base == RebuildType(TypeName(s), s.mixin) && PrintsOver(base, s, f)
    ensures MixinReadable(f) && ReadMixin(f) == s.mixin
  {
    assert "name" !in AttrKeys(s) && "description" !in AttrKeys(s);
    assert "name" in f ==> "name" in base;
    assert "description" in f ==> "description" in base;
  }

  /** Building any print of a schema gives its erasure, or fails exactly when some printed
      object has property names that read as a schema or requires a property it lacks. */
  lemma {:induction false} BuildPrinted(s: Schema, j: Json)
    requires Prints(s, j)
    ensures Build(j) == if Rebuildable(s) then Some(Erase(s)) else None
    decreases s, 3
  {
    PrintedHeader(s, j);
    match s
    case NumberSchema(_, _, _, _, _) => PrintedNumber(s, j);
    case IntegerSchema(_, _, _, _, _) => PrintedInteger(s, j);
    case StringSchema(_, _, _) => PrintedString(s, j);
    case AnyOfSchema(_, _) => PrintedAnyOf(s, j);
    case AllOfSchema(_, _) => PrintedAllOf(s, j);
    case NotSchema(_, _) => PrintedNot(s, j);
    case ListSchema(_, _, _, _) => PrintedList(s, j);
    case TupleSchema(_, _, _) => PrintedTuple(s, j);
    case ObjectSchema(_, _, _, _) => PrintedObject(s, j);
    case MethodSchema(_, _, _, _) => PrintedMethod(s, j);
    case _ =>
  }

  lemma {:induction false} PrintedAnyOf(s: Schema, j: Json)
    requires s.AnyOfSchema? && Prints(s, j)
    ensures BuildKind(j, AnyOfKind, s.mixin) == if Rebuildable(s) then Some(Erase(s)) else None
    decreases s, 1
  {
    BuildPrintedAll(s, s.choices, j.fields["anyOf"]);
  }

  lemma {:induction false} PrintedAllOf(s: Schema, j: Json)
    requires s.AllOfSchema? && Prints(s, j)
    ensures BuildKind(j, AllOfKind, s.mixin) == if Rebuildable(s) then Some(Erase(s)) else None
    decreases s, 1
  {
    BuildPrintedAll(s, s.choices, j.fields["allOf"]);
  }

  lemma {:induction false} PrintedNot(s: Schema, j: Json)
    requires s.NotSchema? && Prints(s, j)
    ensures BuildKind(j, NotKind, s.mixin) == if Rebuildable(s) then Some(Erase(s)) else None
    decreases s, 1
  {
    BuildPrinted(s.child, j.fields["not"]);
    assert BuildKind(j, NotKind, s.mixin) == BuildNot(j, s.mixin);
  }

  lemma PrintedNumber(s: Schema, j: Json)
    requires s.NumberSchema? && Prints(s, j)
    ensures BuildKind(j, NumberKind, s.mixin) == Some(Erase(s))
  {
  }

  lemma PrintedInteger(s: Schema, j: Json)
    requires s.IntegerSchema? && Prints(s, j)
    ensures BuildKind(j, IntegerKind, s.mixin) == Some(Erase(s))
  {
  }

  lemma PrintedString(s: Schema, j: Json)
    requires s.StringSchema? && Prints(s, j)
    ensures BuildKind(j, StringKind, s.mixin) == Some(Erase(s))
  {
  }

  lemma {:induction false} BuildPrintedAll(parent: Schema, schemas: seq<Schema>, j: Json)
    requires forall i | 0 <= i < |schemas| :: schemas[i] < parent
    requires PrintsAll(parent, schemas, j)
    ensures BuildItems(j) == if forall i | 0 <= i < |schemas| :: Rebuildable(schemas[i])
                             then Some(EraseAll(parent, schemas)) else None
    decreases parent, 0
  {
    forall i | 0 <= i < |schemas|
      ensures Build(j.items[i]) == if Rebuildable(schemas[i]) then Some(Erase(schemas[i])) else None
    {
      BuildPrinted(schemas[i], j.items[i]);
    }
    ItemsRead(j);
    if forall i | 0 <= i < |schemas| :: Rebuildable(schemas[i]) {
      assert BuildItems(j).value == EraseAll(parent, schemas);
    } else {
      var i :| 0 <= i < |schemas| && !Rebuildable(schemas[i]);
      assert Build(j.items[i]).None?;
    }
  }

  lemma {:induction false} PrintedList(s: Schema, j: Json)
    requires s.ListSchema? && Prints(s, j)
    ensures BuildKind(j, ListKind, s.mixin) == if Rebuildable(s) then Some(Erase(s)) else None
    decreases s, 1
  {
    var items := j.fields["items"];
    assert Prints(s.item, items);
    BuildPrinted(s.item, items);
    ListOfParts(j, s.mixin);
    assert "minItems" !in j.fields && "maxItems" !in j.fields;
  }

  lemma {:induction false} PrintedTuple(s: Schema, j: Json)
    requires s.TupleSchema? && Prints(s, j)
    ensures BuildKind(j, ListKind, s.mixin) == if Rebuildable(s) then Some(Erase(s)) else None
    decreases s, 1
  {
    BuildPrintedAll(s, s.children, j.fields["items"]);
    assert "additionalItems" !in j.fields;
    TupleOfParts(j, s.mixin);
  }

  lemma {:induction false} BuildPrintedOptional(parent: Schema, s: Option<Schema>, j: Json, key: string)
    requires (s.Some? ==> s.value < parent) && j.Obj? && PrintsOptional(parent, s, j.fields, key)
    ensures BuildAdditional(j, key) == if s.None? then Some(None)
                                       else if Rebuildable(s.value) then Some(Some(Erase(s.value))) else None
    decreases parent, 0
  {
    if s.Some? { BuildPrinted(s.value, j.fields[key]); }
  }

  lemma {:induction false} PrintedObject(s: Schema, j: Json)
    requires s.ObjectSchema? && Prints(s, j)
    ensures BuildKind(j, ObjectKind, s.mixin) == if Rebuildable(s) then Some(Erase(s)) else None
    decreases s, 1
  {
    PrintedObjectParts(s, j);
    PrintedProperties(s, j.fields["properties"]);
    PrintedNames(s.required.Keys, j.fields["requires"]);
    BuildPrintedOptional(s, s.additional, j, "additionalProperties");
    PrintedObjectFromParts(s, j);
  }

  lemma PrintedObjectParts(s: Schema, j: Json)
    requires s.ObjectSchema? && Prints(s, j)
    ensures "properties" in j.fields && PrintsProperties(s, j.fields["properties"])
    ensures "requires" in j.fields && PrintsNames(s.required.Keys, j.fields["requires"])
    ensures PrintsOptional(s, s.additional, j.fields, "additionalProperties")
  {
  }

  lemma PrintedObjectFromParts(s: Schema, j: Json)
    requires s.ObjectSchema? && j.Obj? && "properties" in j.fields && "requires" in j.fields
    requires BuildProperties(j.fields["properties"]) == if RebuildableProperties(s) then Some(EraseProperties(s)) else None
    requires ReadNames(j.fields["requires"]) == Some(s.required.Keys)
    requires BuildAdditional(j, "additionalProperties") ==
             (if s.additional.None? then Some(None)
              else if Rebuildable(s.additional.value) then Some(Some(Erase(s.additional.value))) else None)
    ensures BuildKind(j, ObjectKind, s.mixin) == if Rebuildable(s) then Some(Erase(s)) else None
  {
    ObjectOfParts(j, s.mixin);
    ObjectRebuildable(s);
  }

  lemma ObjectRebuildable(s: Schema)
    requires s.ObjectSchema?
    ensures Rebuildable(s) <==> RebuildableProperties(s) && s.required.Keys <= s.properties.Keys
                                && (s.additional.Some? ==> Rebuildable(s.additional.value))
    ensures Erase(s) == ObjectSchema(s.mixin, EraseProperties(s), Required(s.required.Keys),
                                     if s.additional.Some? then Some(Erase(s.additional.value)) else None)
  {
  }

  lemma PrintedNames(names: set<string>, j: Json)
    requires PrintsNames(names, j)
    ensures ReadNames(j) == Some(names)
  {
    var read := ReadNames(j).value;
    forall name ensures name in read <==> name in names {
      if name in names {
        var i :| 0 <= i < |j.items| && j.items[i] == Str(name);
        assert j.items[i].s == name;
      }
    }
    assert read == names;
  }

  function EraseProperties(s: Schema): (r: map<string, Schema>)
    requires s.ObjectSchema?
    ensures r.Keys == s.properties.Keys
  {
    map p | p in s.properties :: Erase(s.properties[p])
  }

  predicate RebuildableProperties(s: Schema)
    requires s.ObjectSchema?
  {
    UnmistakableNames(s.properties.Keys) && forall p | p in s.properties :: Rebuildable(s.properties[p])
  }

  lemma {:induction false} PrintedProperties(s: Schema, j: Json)
    requires s.ObjectSchema? && PrintsProperties(s, j)
    ensures BuildProperties(j) == if RebuildableProperties(s) then Some(EraseProperties(s)) else None
    decreases s, 0
  {
    forall p | p in s.properties ensures PropertyRebuilds(s, j, p) { BuildPrinted(s.properties[p], j.fields[p]); }
    PropertiesFromParts(s, j);
  }

  ghost predicate PropertyRebuilds(s: Schema, j: Json, p: string)
    requires s.ObjectSchema? && j.Obj?
  {
    && p in s.properties && p in j.fields
    && Build(j.fields[p]) == if Rebuildable(s.properties[p]) then Some(Erase(s.properties[p])) else None
  }

  lemma PropertiesFromParts(s: Schema, j: Json)
    requires s.ObjectSchema? && j.Obj? && j.fields.Keys == s.properties.Keys
    requires forall p | p in s.properties :: PropertyRebuilds(s, j, p)
    ensures BuildProperties(j) == if RebuildableProperties(s) then Some(EraseProperties(s)) else None
  {
    if !UnmistakableNames(s.properties.Keys) {
    } else if RebuildableProperties(s) {
      AllPropertiesRebuild(s, j);
    } else {
      PropertiesRead(j);
      var p :| p in s.properties && !Rebuildable(s.properties[p]);
      assert PropertyRebuilds(s, j, p);
    }
  }

  lemma AllPropertiesRebuild(s: Schema, j: Json)
    requires s.ObjectSchema? && j.Obj? && j.fields.Keys == s.properties.Keys && RebuildableProperties(s)
    requires forall p | p in s.properties :: PropertyRebuilds(s, j, p)
    ensures BuildProperties(j) == Some(EraseProperties(s))
  {
    PropertiesRead(j);
    var erased := EraseProperties(s);
    forall p | p in j.fields ensures Build(j.fields[p]) == Some(erased[p]) { assert PropertyRebuilds(s, j, p); }
    assert BuildProperties(j).value == erased;
  }

  lemma {:induction false} PrintedMethod(s: Schema, j: Json)
    requires s.MethodSchema? && Prints(s, j)
    ensures BuildKind(j, MethodKind, s.mixin) == if Rebuildable(s) then Some(Erase(s)) else None
    decreases s, 1
  {
    BuildPrintedAll(s, s.params, j.fields["params"]);
    BuildPrintedOptional(s, s.additional, j, "additionalParams");
    PrintedReturns(s, j.fields);
    MethodOfParts(j, s.mixin);
  }

  lemma {:induction false} PrintedReturns(s: Schema, f: map<string, Json>)
    requires s.MethodSchema? && PrintsOptional(s, s.returns_, f, "returns")
    ensures s.returns_.Some? ==>
              BuildReturns(f["returns"]) == (if Rebuildable(s.returns_.value) then Some(Some(Erase(s.returns_.value))) else None)
    decreases s, 0
  {
    if s.returns_.Some? {
      BuildPrinted(s.returns_.value, f["returns"]);
      PrintedHeader(s.returns_.value, f["returns"]);
    }
  }

  // ----- What the builder produces --------------------------------------------------------------

  /** Every schema the builder can return: at every depth, lengths and item bounds are not
      negative, the required names are property names mapped to true, and property names
      cannot be mistaken for a schema. */
  predicate WellFormed(s: Schema)
    decreases s
  {
    match s
    case StringSchema(_, max, min) => NonNegative(max) && NonNegative(min)
    case AnyOfSchema(_, choices) => forall i | 0 <= i < |choices| :: WellFormed(choices[i])
    case AllOfSchema(_, choices) => forall i | 0 <= i < |choices| :: WellFormed(choices[i])
    case NotSchema(_, child) => WellFormed(child)
    case ListSchema(_, item, min, max) => NonNegative(min) && NonNegative(max) && WellFormed(item)
    case TupleSchema(_, children, additional) =>
      && (forall i | 0 <= i < |children| :: WellFormed(children[i]))
      && (additional.Some? ==> WellFormed(additional.value))
    case ObjectSchema(_, properties, required, additional) =>
      && UnmistakableNames(properties.Keys)
      && required.Keys <= properties.Keys
      && (forall p | p in required :: required[p])
      && (forall p | p in properties :: WellFormed(properties[p]))
      && (additional.Some? ==> WellFormed(additional.value))
    case MethodSchema(_, params, returns_, additional) =>
      && (forall i | 0 <= i < |params| :: WellFormed(params[i]))
      && (returns_.Some? ==> WellFormed(returns_.value))
      && (additional.Some? ==> WellFormed(additional.value))
    case _ => true
  }

  predicate NonNegative(n: Option<int64>) { n.Some? ==> n.value >= 0 }

  lemma {:induction false} BuiltIsWellFormed(d: Json)
    ensures Build(d).Some? ==> WellFormed(Build(d).value)
    decreases d, 4
  {
    if d.Obj? {
      var typed := Typed(d.fields, GuessType(d.fields.Keys));
      if "type" in typed && Build(d).Some? {
        assert Build(d) == BuildAs(d, typed["type"]);
        KindIsWellFormed(d, KindOf(typed["type"]).value, ReadMixin(d.fields));
      }
    }
  }

  lemma {:induction false} KindIsWellFormed(d: Json, kind: Kind, m: Mixin)
    requires d.Obj?
    ensures BuildKind(d, kind, m).Some? ==> WellFormed(BuildKind(d, kind, m).value)
    decreases d, 3
  {
    var f := d.fields;
    match kind
    case AnyOfKind =>
      ChoicesAreWellFormed(d, "anyOf");
      assert BuildKind(d, kind, m).Some? ==> BuildKind(d, kind, m).value.choices == BuildChoices(d, "anyOf").value;
    case AllOfKind =>
      ChoicesAreWellFormed(d, "allOf");
      assert BuildKind(d, kind, m).Some? ==> BuildKind(d, kind, m).value.choices == BuildChoices(d, "allOf").value;
    case NotKind => if "not" in f { BuiltIsWellFormed(f["not"]); }
    case ListKind =>
      AdditionalIsWellFormed(d, "additionalItems");
      if "items" in f {
        if f["items"].List? { ItemsAreWellFormed(f["items"]); TupleOfParts(d, m); } else { BuiltIsWellFormed(f["items"]); }
      }
    case ObjectKind => ObjectIsWellFormed(d, m);
    case MethodKind =>
      AdditionalIsWellFormed(d, "additionalParams");
      ChoicesAreWellFormed(d, "params");
      if "returns" in f { ReturnsIsWellFormed(f["returns"]); }
      MethodOfParts(d, m);
    case _ =>
  }

  lemma {:induction false} ObjectIsWellFormed(d: Json, m: Mixin)
    requires d.Obj?
    ensures BuildKind(d, ObjectKind, m).Some? ==> WellFormed(BuildKind(d, ObjectKind, m).value)
    decreases d, 2
  {
    AdditionalIsWellFormed(d, "additionalProperties");
    if "properties" in d.fields { PropertiesAreWellFormed(d.fields["properties"]); }
    ObjectOfParts(d, m);
  }

  lemma {:induction false} ItemsAreWellFormed(d: Json)
    ensures BuildItems(d).Some? ==> forall i | 0 <= i < |BuildItems(d).value| :: WellFormed(BuildItems(d).value[i])
    decreases d, 0
  {
    if d.List? {
      ItemsRead(d);
      forall i | 0 <= i < |d.items| { BuiltIsWellFormed(d.items[i]); }
    }
  }

  lemma {:induction false} ChoicesAreWellFormed(d: Json, name: string)
    requires d.Obj?
    ensures var r := BuildChoices(d, name); r.Some? ==> forall i | 0 <= i < |r.value| :: WellFormed(r.value[i])
    decreases d, 1
  {
    if name in d.fields { ItemsAreWellFormed(d.fields[name]); }
  }

  lemma {:induction false} AdditionalIsWellFormed(d: Json, name: string)
    requires d.Obj?
    ensures BuildAdditional(d, name).Some? && BuildAdditional(d, name).value.Some? ==>
              WellFormed(BuildAdditional(d, name).value.value)
    decreases d, 0
  {
    if name in d.fields { BuiltIsWellFormed(d.fields[name]); }
  }

  lemma {:induction false} PropertiesAreWellFormed(d: Json)
    ensures BuildProperties(d).Some? ==> UnmistakableNames(BuildProperties(d).value.Keys)
    ensures BuildProperties(d).Some? ==>
              forall p | p in BuildProperties(d).value :: WellFormed(BuildProperties(d).value[p])
    decreases d, 0
  {
    if BuildProperties(d).Some? {
      if d.Obj? {
        forall p | p in d.fields { BuiltIsWellFormed(d.fields[p]); }
        PropertiesRead(d);
      } else if !d.Str? || !IsSimple(d.s) {
        assert BuildProperties(d).value == map[];
      }
    }
  }

  lemma {:induction false} ReturnsIsWellFormed(d: Json)
    ensures BuildReturns(d).Some? && BuildReturns(d).value.Some? ==> WellFormed(BuildReturns(d).value.value)
    decreases d, 4
  {
    if d.Obj? && BuildReturns(d).Some? {
      var typ := Typed(d.fields, ReturnsGuess(d.fields.Keys))["type"];
      assert BuildAs(d, typ).Some? && BuildReturns(d).value == BuildAs(d, typ);
      KindIsWellFormed(d, KindOf(typ).value, ReadMixin(d.fields));
    }
  }

  lemma {:induction false} WellFormedIsRebuildable(s: Schema)
    requires WellFormed(s)
    ensures Rebuildable(s)
  {
    match s
    case AnyOfSchema(_, choices) => forall i | 0 <= i < |choices| { WellFormedIsRebuildable(choices[i]); }
    case AllOfSchema(_, choices) => forall i | 0 <= i < |choices| { WellFormedIsRebuildable(choices[i]); }
    case NotSchema(_, child) => WellFormedIsRebuildable(child);
    case ListSchema(_, item, _, _) => WellFormedIsRebuildable(item);
    case TupleSchema(_, children, _) => forall i | 0 <= i < |children| { WellFormedIsRebuildable(children[i]); }
    case ObjectSchema(_, properties, _, additional) =>
      forall p | p in properties { WellFormedIsRebuildable(properties[p]); }
      if additional.Some? { WellFormedIsRebuildable(additional.value); }
    case MethodSchema(_, params, returns_, additional) =>
      forall i | 0 <= i < |params| { WellFormedIsRebuildable(params[i]); }
      if returns_.Some? { WellFormedIsRebuildable(returns_.value); }
      if additional.Some? { WellFormedIsRebuildable(additional.value); }
    case _ =>
  }

  // ----- Main results ---------------------------------------------------------------------------

  /** Printing a built schema, in any order of names, and building the print gives a schema
      Equal to the erasure; from then on the round trip is exact. */
  lemma RoundTrip(d: Json, j: Json, j2: Json)
    requires Build(d).Some? && Prints(Build(d).value, j)
    ensures Build(j).Some? && Equal(Build(j).value, Erase(Build(d).value))
    ensures Prints(Build(j).value, j2) ==> Build(j2) == Build(j)
  {
    var s := Build(d).value;
    BuiltIsWellFormed(d);
    WellFormedIsRebuildable(s);
    BuildPrinted(s, j);
    EqualReflexive(Erase(s));
    ErasedIsLossless(s);
    if Prints(Erase(s), j2) { BuildPrinted(Erase(s), j2); }
  }

  /** For any schema at all, the printed JSON builds back to it exactly when nothing of it
      is left out by printing and no printed object is refused. */
  lemma RoundTripExact(s: Schema, j: Json)
    requires Prints(s, j)
    ensures Build(j) == Some(s) <==> Lossless(s) && Rebuildable(s)
  {
    BuildPrinted(s, j);
    LosslessIffKept(s);
  }

  lemma BoundedStringBuilds(n: int64)
    requires n >= 0
    ensures Build(Obj(map["type" := Str("string"), "maxLength" := Int(n)])) == Some(StringSchema(NoMixin, Some(n), None))
  {
    var fields := map["type" := Str("string"), "maxLength" := Int(n)];
    assert Typed(fields, GuessType(fields.Keys)) == fields;
    assert Build(Obj(fields)) == BuildAs(Obj(fields), Str("string"));
    assert KindOf(Str("string")) == Some(StringKind);
    assert ReadMixin(fields) == NoMixin;
    assert AttrLength(fields, "minLength") == None && AttrLength(fields, "maxLength") == Some(n);
    assert MixinReadable(fields);
    assert BuildAs(Obj(fields), Str("string")) == BuildKind(Obj(fields), StringKind, NoMixin);
    assert BuildKind(Obj(fields), StringKind, NoMixin) == Some(BuildString(fields, NoMixin));
  }

  /** A string schema with a maximal length is built, printed and built again without it, and from
      then on accepts the strings it refused. */
  lemma LengthIsLost(n: int64, data: string, j: Json)
    requires 0 <= n < |data|
    ensures var d := Obj(map["type" := Str("string"), "maxLength" := Int(n)]);
            && Build(d).Some? && !Accepts(Build(d).value, Str(data))
            && (Prints(Build(d).value, j) ==> Build(j).Some? && Accepts(Build(j).value, Str(data)))
  {
    BoundedStringBuilds(n);
    var s := StringSchema(NoMixin, Some(n), None);
    if Prints(s, j) { BuildPrinted(s, j); }
  }

  /** Data accepted by a built object schema has every required key. */
  lemma AcceptedObjectHasRequired(d: Json, data: Json)
    requires Build(d).Some? && Build(d).value.ObjectSchema? && Accepts(Build(d).value, data)
    ensures data.Obj? && Build(d).value.required.Keys <= data.fields.Keys
  {
    BuiltIsWellFormed(d);
    var s := Build(d).value;
    forall p | p in s.required ensures p in data.fields {
      assert p in s.properties;
    }
  }

  /** For any object schema, built or not: what it accepts has every required key exactly when the
      required keys are properties, unless nothing is accepted at all. */
  lemma RequirementsNeedProperties(s: Schema)
    requires s.ObjectSchema?
    ensures (forall data | Accepts(s, data) :: data.Obj? && s.required.Keys <= data.fields.Keys) <==>
              s.required.Keys <= s.properties.Keys || forall data :: !Accepts(s, data)
  {
    if p :| p in s.required && p !in s.properties {
      if data :| Accepts(s, data) {
        var without := Obj(data.fields - {p});
        assert Accepts(s, without);
      }
    } else {
      forall data, p | Accepts(s, data) && p in s.required ensures p in data.fields { assert p in s.properties; }
    }
  }
}
