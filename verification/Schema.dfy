/**
 The schema language: its twelve kinds (`list` has two forms, so thirteen constructors),
 structural equality, and the meaning of a schema as the set of data it accepts.
 */
module Schemas {
  import opened Basics
  import opened JsonValues

  datatype Mixin = Mixin(name: string, description: string)

  const NoMixin := Mixin("", "")

  datatype Schema =
    | AnySchema(mixin: Mixin)
    | NullSchema(mixin: Mixin)
    | BoolSchema(mixin: Mixin)
    | NumberSchema(mixin: Mixin, minimum: Option<real>, maximum: Option<real>,
                   exclusiveMinimum: Option<bool>, exclusiveMaximum: Option<bool>)
    | IntegerSchema(mixin: Mixin, minInt: Option<int64>, maxInt: Option<int64>,
                    exclusiveMinimum: Option<bool>, exclusiveMaximum: Option<bool>)
    | StringSchema(mixin: Mixin, maxLength: Option<int64>, minLength: Option<int64>)
    | AnyOfSchema(mixin: Mixin, choices: seq<Schema>)
    | AllOfSchema(mixin: Mixin, choices: seq<Schema>)
    | NotSchema(mixin: Mixin, child: Schema)
    | ListSchema(mixin: Mixin, item: Schema, minItems: Option<int64>, maxItems: Option<int64>)
    | TupleSchema(mixin: Mixin, children: seq<Schema>, additional: Option<Schema>)
    | ObjectSchema(mixin: Mixin, properties: map<string, Schema>, required: map<string, bool>,
                   additional: Option<Schema>)
    | MethodSchema(mixin: Mixin, params: seq<Schema>, returns_: Option<Schema>,
                   additional: Option<Schema>)

  // ----- Meaning --------------------------------------------------------------------------

  predicate NumberWithin(v: real, s: Schema)
    requires s.NumberSchema?
  {
    && (s.maximum.Some? ==> if s.exclusiveMaximum == Some(true) then v < s.maximum.value else v <= s.maximum.value)
    && (s.minimum.Some? ==> if s.exclusiveMinimum == Some(true) then v > s.minimum.value else v >= s.minimum.value)
  }

  predicate IntegerWithin(v: int, s: Schema)
    requires s.IntegerSchema?
  {
    && (s.maxInt.Some? ==> if s.exclusiveMaximum == Some(true) then v < s.maxInt.value else v <= s.maxInt.value)
    && (s.minInt.Some? ==> if s.exclusiveMinimum == Some(true) then v > s.minInt.value else v >= s.minInt.value)
  }

  predicate LengthWithin(n: nat, min: Option<int64>, max: Option<int64>) {
    && (max.Some? ==> n <= max.value)
    && (min.Some? ==> n >= min.value)
  }

  /** The data a schema stands for, without reference to any order of evaluation. */
  predicate Accepts(s: Schema, d: Json)
    decreases s
  {
    match s
    case AnySchema(_) => true
    case NullSchema(_) => d.Null?
    case BoolSchema(_) => d.Bool?
    case NumberSchema(_, _, _, _, _) => (d.Int? || d.Dec?) && NumberWithin(ToReal(d), s)
    case IntegerSchema(_, _, _, _, _) => d.Int? && FitsInt64(d.i) && IntegerWithin(d.i, s)
    case StringSchema(_, max, min) => d.Str? && LengthWithin(|d.s|, min, max)
    case AnyOfSchema(_, choices) => exists i | 0 <= i < |choices| :: Accepts(choices[i], d)
    case AllOfSchema(_, choices) => forall i | 0 <= i < |choices| :: Accepts(choices[i], d)
    case NotSchema(_, child) => !Accepts(child, d)
    case ListSchema(_, item, min, max) =>
      && d.List?
      && LengthWithin(|d.items|, min, max)
      && forall i | 0 <= i < |d.items| :: Accepts(item, d.items[i])
    case TupleSchema(_, children, additional) =>
      && d.List?
      && |d.items| >= |children|
      && (additional.None? ==> |d.items| == |children|)
      && (forall i | 0 <= i < |children| :: Accepts(children[i], d.items[i]))
      && (additional.Some? ==> forall i | |children| <= i < |d.items| :: Accepts(additional.value, d.items[i]))
    case ObjectSchema(_, properties, required, additional) =>
      && d.Obj?
      && (forall p | p in properties :: if p in d.fields then Accepts(properties[p], d.fields[p]) else p !in required)
      && (additional.Some? ==>
            forall p | p in d.fields && p !in properties :: Accepts(additional.value, d.fields[p]))
    case MethodSchema(_, params, returns_, additional) =>
      && d.Obj?
      && if HasParams(d) then
           var args := d.fields["params"].items;
           && |args| >= |params|
           && (|args| > |params| ==> additional.Some?)
           && (forall i | 0 <= i < |params| :: Accepts(params[i], args[i]))
           && (forall i | |params| <= i < |args| :: Accepts(additional.value, args[i]))
         else
           && "result" in d.fields
           && (returns_.Some? ==> Accepts(returns_.value, d.fields["result"]))
  }

  /** A JSON-RPC message whose `params` is a list; any other `params` counts as missing. */
  predicate HasParams(d: Json) {
    d.Obj? && "params" in d.fields && d.fields["params"].List?
  }

  // ----- Equality -------------------------------------------------------------------------

  predicate PointerEqual<T(==)>(p1: Option<T>, p2: Option<T>) {
    if p1.Some? && p2.Some? then p1.value == p2.value else p1.None? && p2.None?
  }

  /** Two requirement maps: lengths are compared and only the first is walked. */
  predicate SchemaMapValueEqual<T(==)>(m1: map<string, T>, m2: map<string, T>) {
    |m1| == |m2| && forall key | key in m1 :: key in m2 && m1[key] == m2[key]
  }

  /** The `Equal` methods: same kind, same name and description, equal parts. */
  predicate Equal(s1: Schema, s2: Schema)
    decreases s1
  {
    && s1.mixin == s2.mixin
    && match s1
       case AnySchema(_) => s2.AnySchema?
       case NullSchema(_) => s2.NullSchema?
       case BoolSchema(_) => s2.BoolSchema?
       case NumberSchema(_, min, max, exMin, exMax) =>
         && s2.NumberSchema?
         && PointerEqual(max, s2.maximum)
         && PointerEqual(min, s2.minimum)
         && PointerEqual(exMax, s2.exclusiveMaximum)
         && PointerEqual(exMin, s2.exclusiveMinimum)
       case IntegerSchema(_, min, max, exMin, exMax) =>
         && s2.IntegerSchema?
         && PointerEqual(max, s2.maxInt)
         && PointerEqual(min, s2.minInt)
         && PointerEqual(exMax, s2.exclusiveMaximum)
         && PointerEqual(exMin, s2.exclusiveMinimum)
       case StringSchema(_, max, min) =>
         s2.StringSchema? && PointerEqual(max, s2.maxLength) && PointerEqual(min, s2.minLength)
       case AnyOfSchema(_, choices) =>
         && s2.AnyOfSchema?
         && |choices| == |s2.choices|
         && forall i | 0 <= i < |choices| :: Equal(choices[i], s2.choices[i])
       case AllOfSchema(_, choices) =>
         && s2.AllOfSchema?
         && |choices| == |s2.choices|
         && forall i | 0 <= i < |choices| :: Equal(choices[i], s2.choices[i])
       case NotSchema(_, child) => s2.NotSchema? && Equal(child, s2.child)
       case ListSchema(_, item, min, max) =>
         && s2.ListSchema?
         && PointerEqual(max, s2.maxItems)
         && PointerEqual(min, s2.minItems)
         && Equal(item, s2.item)
       case TupleSchema(_, children, additional) =>
         && s2.TupleSchema?
         && (if additional.Some? && s2.additional.Some? then Equal(additional.value, s2.additional.value)
             else additional.None? && s2.additional.None?)
         && |children| == |s2.children|
         && forall i | 0 <= i < |children| :: Equal(children[i], s2.children[i])
       case ObjectSchema(_, properties, required, additional) =>
         && s2.ObjectSchema?
         && |properties| == |s2.properties|
         && (forall key | key in properties :: key in s2.properties && Equal(properties[key], s2.properties[key]))
         && SchemaMapValueEqual(required, s2.required)
         && (if additional.Some? && s2.additional.Some? then Equal(additional.value, s2.additional.value)
             else additional.None? && s2.additional.None?)
       case MethodSchema(_, params, returns_, additional) =>
         && s2.MethodSchema?
         && (if additional.Some? && s2.additional.Some? then Equal(additional.value, s2.additional.value)
             else additional.None? && s2.additional.None?)
         && |params| == |s2.params|
         && (forall i | 0 <= i < |params| :: Equal(params[i], s2.params[i]))
         && (if returns_.Some? && s2.returns_.Some? then Equal(returns_.value, s2.returns_.value)
             else returns_.None? && s2.returns_.None?)
  }

  /** Walking one map and comparing sizes is enough: the key sets coincide. */
  lemma SameSizeSameKeys<K, V, W>(m1: map<K, V>, m2: map<K, W>)
    requires |m1| == |m2| && m1.Keys <= m2.Keys
    ensures m1.Keys == m2.Keys
  {
    if m1.Keys != m2.Keys {
      var extra :| extra in m2.Keys && extra !in m1.Keys;
      SubsetCardinality(m1.Keys, m2.Keys - {extra});
    }
  }

  lemma {:induction false} SubsetCardinality<T>(a: set<T>, b: set<T>)
    requires a <= b
    ensures |a| <= |b|
  {
    if a != {} {
      var x :| x in a;
      SubsetCardinality(a - {x}, b - {x});
    }
  }

  lemma {:induction false} EqualReflexive(s: Schema)
    ensures Equal(s, s)
  {
    match s
    case AnyOfSchema(_, choices) => forall i | 0 <= i < |choices| { EqualReflexive(choices[i]); }
    case AllOfSchema(_, choices) => forall i | 0 <= i < |choices| { EqualReflexive(choices[i]); }
    case NotSchema(_, child) => EqualReflexive(child);
    case ListSchema(_, item, _, _) => EqualReflexive(item);
    case TupleSchema(_, children, additional) =>
      forall i | 0 <= i < |children| { EqualReflexive(children[i]); }
      if additional.Some? { EqualReflexive(additional.value); }
    case ObjectSchema(_, properties, _, additional) =>
      forall p | p in properties { EqualReflexive(properties[p]); }
      if additional.Some? { EqualReflexive(additional.value); }
    case MethodSchema(_, params, returns_, additional) =>
      forall i | 0 <= i < |params| { EqualReflexive(params[i]); }
      if additional.Some? { EqualReflexive(additional.value); }
      if returns_.Some? { EqualReflexive(returns_.value); }
    case _ =>
  }

  lemma {:induction false} EqualImpliesSame(s1: Schema, s2: Schema)
    requires Equal(s1, s2)
    ensures s1 == s2
  {
    match s1
    case AnyOfSchema(_, choices) =>
      forall i | 0 <= i < |choices| { EqualImpliesSame(choices[i], s2.choices[i]); }
      assert choices == s2.choices;
    case AllOfSchema(_, choices) =>
      forall i | 0 <= i < |choices| { EqualImpliesSame(choices[i], s2.choices[i]); }
      assert choices == s2.choices;
    case NotSchema(_, child) => EqualImpliesSame(child, s2.child);
    case ListSchema(_, item, _, _) => EqualImpliesSame(item, s2.item);
    case TupleSchema(_, children, additional) =>
      forall i | 0 <= i < |children| { EqualImpliesSame(children[i], s2.children[i]); }
      assert children == s2.children;
      if additional.Some? { EqualImpliesSame(additional.value, s2.additional.value); }
    case ObjectSchema(_, properties, required, additional) =>
      SameSizeSameKeys(properties, s2.properties);
      forall p | p in properties { EqualImpliesSame(properties[p], s2.properties[p]); }
      assert properties == s2.properties;
      SameSizeSameKeys(required, s2.required);
      assert required == s2.required;
      if additional.Some? { EqualImpliesSame(additional.value, s2.additional.value); }
    case MethodSchema(_, params, returns_, additional) =>
      forall i | 0 <= i < |params| { EqualImpliesSame(params[i], s2.params[i]); }
      assert params == s2.params;
      if additional.Some? { EqualImpliesSame(additional.value, s2.additional.value); }
      if returns_.Some? { EqualImpliesSame(returns_.value, s2.returns_.value); }
    case _ =>
  }

  /** `Equal`, for all its pointer, length and one-sided map comparisons, decides identity. */
  lemma EqualDecidesIdentity(s1: Schema, s2: Schema)
    ensures Equal(s1, s2) <==> s1 == s2
  {
    EqualReflexive(s1);
    if Equal(s1, s2) { EqualImpliesSame(s1, s2); }
  }

  /** Hence it is an equivalence, and a congruence for validation. */
  lemma EqualIsCongruence(s1: Schema, s2: Schema, s3: Schema, d: Json)
    ensures Equal(s1, s2) ==> Equal(s2, s1)
    ensures Equal(s1, s2) && Equal(s2, s3) ==> Equal(s1, s3)
    ensures Equal(s1, s2) ==> (Accepts(s1, d) <==> Accepts(s2, d))
  {
    EqualDecidesIdentity(s1, s2);
    EqualDecidesIdentity(s2, s1);
    EqualDecidesIdentity(s2, s3);
  }
}
