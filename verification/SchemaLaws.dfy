/**
 Laws of the meaning of schemas. Each relates what one schema accepts to what others accept;
 together they leave no freedom in what a schema of any kind accepts.
 */
module SchemaLaws {
  import opened Basics
  import opened JsonValues
  import opened Schemas
  import opened SchemaReading
  import opened Printing
  import opened RoundTrips

  // ----- The logical kinds ------------------------------------------------------------------

  function Negated(m: Mixin, choices: seq<Schema>): (r: seq<Schema>)
    ensures |r| == |choices| && forall i | 0 <= i < |choices| :: r[i] == NotSchema(m, choices[i])
  {
    seq(|choices|, i requires 0 <= i < |choices| => NotSchema(m, choices[i]))
  }

  /** Whatever the data, it is accepted by a schema or by its negation, and never by both. */
  lemma ExactlyOneAccepts(m: Mixin, s: Schema, d: Json)
    ensures Accepts(AnyOfSchema(m, [s, NotSchema(m, s)]), d) && !Accepts(AllOfSchema(m, [s, NotSchema(m, s)]), d)
  {
    var choices := [s, NotSchema(m, s)];
    assert Accepts(choices[0], d) <==> !Accepts(choices[1], d);
  }

  /** `any` accepts everything, its negation nothing. */
  lemma AnyIsEverything(m: Mixin, d: Json)
    ensures Accepts(AnySchema(m), d) && !Accepts(NotSchema(m, AnySchema(m)), d)
  {
  }

  /** De Morgan's laws. */
  lemma DeMorgan(m: Mixin, choices: seq<Schema>, d: Json)
    ensures Accepts(NotSchema(m, AnyOfSchema(m, choices)), d) <==> Accepts(AllOfSchema(m, Negated(m, choices)), d)
    ensures Accepts(NotSchema(m, AllOfSchema(m, choices)), d) <==> Accepts(AnyOfSchema(m, Negated(m, choices)), d)
  {
    NegatedAny(m, choices, d);
    NegatedAll(m, choices, d);
  }

  lemma NegatedAny(m: Mixin, choices: seq<Schema>, d: Json)
    ensures Accepts(NotSchema(m, AnyOfSchema(m, choices)), d) <==> Accepts(AllOfSchema(m, Negated(m, choices)), d)
  {
    var negated := Negated(m, choices);
    forall i | 0 <= i < |choices| ensures Accepts(negated[i], d) <==> !Accepts(choices[i], d) {
      assert negated[i] == NotSchema(m, choices[i]);
    }
  }

  lemma NegatedAll(m: Mixin, choices: seq<Schema>, d: Json)
    ensures Accepts(NotSchema(m, AllOfSchema(m, choices)), d) <==> Accepts(AnyOfSchema(m, Negated(m, choices)), d)
  {
    var negated := Negated(m, choices);
    forall i | 0 <= i < |choices| ensures Accepts(negated[i], d) <==> !Accepts(choices[i], d) {
      assert negated[i] == NotSchema(m, choices[i]);
    }
  }

  /** Of no choices none is accepted and all are. */
  lemma NoChoice(m: Mixin, d: Json)
    ensures !Accepts(AnyOfSchema(m, []), d) && Accepts(AllOfSchema(m, []), d)
  {
  }

  /** Of one choice anyOf and allOf make the choice itself. */
  lemma OneChoice(m: Mixin, s: Schema, d: Json)
    ensures Accepts(AnyOfSchema(m, [s]), d) <==> Accepts(s, d)
    ensures Accepts(AllOfSchema(m, [s]), d) <==> Accepts(s, d)
  {
    var choices := [s];
    assert forall i | 0 <= i < |choices| :: choices[i] == s;
    assert choices[0] == s;
  }

  /** Choices of anyOf add up. */
  lemma AnyOfBoth(m: Mixin, a: seq<Schema>, b: seq<Schema>, d: Json)
    ensures Accepts(AnyOfSchema(m, a + b), d) <==> Accepts(AnyOfSchema(m, a), d) || Accepts(AnyOfSchema(m, b), d)
  {
    assert forall i | 0 <= i < |a| :: (a + b)[i] == a[i];
    assert forall i | 0 <= i < |b| :: (a + b)[|a| + i] == b[i];
  }

  /** Choices of allOf are required together. */
  lemma AllOfBoth(m: Mixin, a: seq<Schema>, b: seq<Schema>, d: Json)
    ensures Accepts(AllOfSchema(m, a + b), d) <==> Accepts(AllOfSchema(m, a), d) && Accepts(AllOfSchema(m, b), d)
  {
    assert forall i | 0 <= i < |a| :: (a + b)[i] == a[i];
    assert forall i | 0 <= i < |b| :: (a + b)[|a| + i] == b[i];
  }

  // ----- Numbers ----------------------------------------------------------------------------

  /** Both bounds hold exactly when each does alone. A bound accepts everything on its inner side,
      nothing beyond, and itself unless it is exclusive; without bounds any number will do. */
  lemma NumberBounds(m: Mixin, min: Option<real>, max: Option<real>, exMin: Option<bool>, exMax: Option<bool>, v: real, r: real)
    ensures Accepts(NumberSchema(m, min, max, exMin, exMax), Dec(v)) <==>
              Accepts(NumberSchema(m, min, None, exMin, None), Dec(v)) && Accepts(NumberSchema(m, None, max, None, exMax), Dec(v))
    ensures Accepts(NumberSchema(m, None, None, exMin, exMax), Dec(v))
    ensures v < r ==> Accepts(NumberSchema(m, None, Some(r), exMin, exMax), Dec(v))
    ensures v > r ==> !Accepts(NumberSchema(m, None, Some(r), exMin, exMax), Dec(v))
    ensures Accepts(NumberSchema(m, None, Some(r), exMin, exMax), Dec(r)) <==> exMax != Some(true)
    ensures v > r ==> Accepts(NumberSchema(m, Some(r), None, exMin, exMax), Dec(v))
    ensures v < r ==> !Accepts(NumberSchema(m, Some(r), None, exMin, exMax), Dec(v))
    ensures Accepts(NumberSchema(m, Some(r), None, exMin, exMax), Dec(r)) <==> exMin != Some(true)
  {
  }

  /** A number is judged by its value, however it is written; an integer schema accepts what the number
      schema with its bounds accepts, among the literals of 64-bit integers. */
  lemma IntegersAreNumbers(m: Mixin, min: Option<int64>, max: Option<int64>, exMin: Option<bool>, exMax: Option<bool>, n: int, d: Json)
    ensures var number := NumberSchema(m, if min.Some? then Some(min.value as real) else None,
                                       if max.Some? then Some(max.value as real) else None, exMin, exMax);
            && (Accepts(number, Int(n)) <==> Accepts(number, Dec(n as real)))
            && (Accepts(IntegerSchema(m, min, max, exMin, exMax), d) <==>
                  d.Int? && -9223372036854775808 <= d.i <= 9223372036854775807 && Accepts(number, d))
    ensures forall s: Schema | s.NumberSchema? && Accepts(s, d) :: d.Int? || d.Dec?
  {
  }

  // ----- Strings and lists ------------------------------------------------------------------

  /** A string is accepted by its length alone: within both bounds exactly when within each, and a
      bound is itself allowed. */
  lemma StringLengths(m: Mixin, min: Option<int64>, max: Option<int64>, text: string, n: int64)
    ensures Accepts(StringSchema(m, max, min), Str(text)) <==>
              Accepts(StringSchema(m, max, None), Str(text)) && Accepts(StringSchema(m, None, min), Str(text))
    ensures Accepts(StringSchema(m, None, None), Str(text))
    ensures Accepts(StringSchema(m, Some(n), None), Str(text)) <==> !(|text| > n)
    ensures Accepts(StringSchema(m, None, Some(n)), Str(text)) <==> !(|text| < n)
    ensures forall d | Accepts(StringSchema(m, max, min), d) :: d.Str?
  {
  }

  /** The item bounds of a list count as the length bounds of a string do, and a list of allowed length
      is accepted exactly when the tuple without children takes its items as additional ones. */
  lemma ListsAreTuples(m: Mixin, item: Schema, min: Option<int64>, max: Option<int64>, items: seq<Json>, text: string)
    requires |text| == |items|
    ensures Accepts(ListSchema(m, item, min, max), List(items)) <==>
              Accepts(StringSchema(m, max, min), Str(text)) && Accepts(TupleSchema(m, [], Some(item)), List(items))
    ensures forall d | Accepts(ListSchema(m, item, min, max), d) :: d.List?
  {
  }

  /** The empty list fits exactly the tuples without children; a tuple without children or additional
      items fits nothing else; and only lists fit at all. */
  lemma EmptyTuples(m: Mixin, child: Schema, children: seq<Schema>, additional: Option<Schema>, item: Json, items: seq<Json>)
    ensures Accepts(TupleSchema(m, [], additional), List([]))
    ensures !Accepts(TupleSchema(m, [child] + children, additional), List([]))
    ensures !Accepts(TupleSchema(m, [], None), List([item] + items))
    ensures forall d | Accepts(TupleSchema(m, children, additional), d) :: d.List?
  {
  }

  /** Past the children, every item is for the additional schema. */
  lemma TupleSurplus(m: Mixin, child: Schema, item: Json, items: seq<Json>)
    ensures Accepts(TupleSchema(m, [], Some(child)), List([item] + items)) <==>
              Accepts(child, item) && Accepts(TupleSchema(m, [], Some(child)), List(items))
  {
    var all := [item] + items;
    assert all[0] == item && forall i | 0 <= i < |items| :: all[i + 1] == items[i];
    assert forall i | 0 < i < |all| :: all[i] == items[i - 1];
  }

  /** The first item is for the first child, the rest for the rest. */
  lemma TupleFront(m: Mixin, child: Schema, children: seq<Schema>, additional: Option<Schema>, item: Json, items: seq<Json>)
    ensures Accepts(TupleSchema(m, [child] + children, additional), List([item] + items)) <==>
              Accepts(child, item) && Accepts(TupleSchema(m, children, additional), List(items))
  {
    if Accepts(TupleSchema(m, [child] + children, additional), List([item] + items)) {
      TupleTail(m, child, children, additional, item, items);
    }
    if Accepts(child, item) && Accepts(TupleSchema(m, children, additional), List(items)) {
      TupleCons(m, child, children, additional, item, items);
    }
  }

  lemma TupleTail(m: Mixin, child: Schema, children: seq<Schema>, additional: Option<Schema>, item: Json, items: seq<Json>)
    requires Accepts(TupleSchema(m, [child] + children, additional), List([item] + items))
    ensures Accepts(child, item) && Accepts(TupleSchema(m, children, additional), List(items))
  {
    var all, more := [item] + items, [child] + children;
    assert Accepts(more[0], all[0]);
    forall i | 0 <= i < |children| ensures Accepts(children[i], items[i]) { assert Accepts(more[i + 1], all[i + 1]); }
    if additional.Some? {
      forall i | |children| <= i < |items| ensures Accepts(additional.value, items[i]) { assert Accepts(additional.value, all[i + 1]); }
    }
  }

  lemma TupleCons(m: Mixin, child: Schema, children: seq<Schema>, additional: Option<Schema>, item: Json, items: seq<Json>)
    requires Accepts(child, item) && Accepts(TupleSchema(m, children, additional), List(items))
    ensures Accepts(TupleSchema(m, [child] + children, additional), List([item] + items))
  {
    var all, more := [item] + items, [child] + children;
    assert forall i | 0 < i < |more| :: more[i] == children[i - 1] && all[i] == items[i - 1];
    assert forall i | 0 < i < |all| :: all[i] == items[i - 1];
  }

  // ----- Objects and messages ---------------------------------------------------------------

  /** What an object schema accepts, field by field: the empty object if no property is required; one
      more field if its value is accepted and the rest is, the field no longer being required. */
  lemma ObjectFields(m: Mixin, properties: map<string, Schema>, required: map<string, bool>, additional: Option<Schema>,
                     fields: map<string, Json>, p: string, v: Json)
    requires p !in fields
    ensures Accepts(ObjectSchema(m, properties, required, additional), Obj(map[])) <==> properties.Keys !! required.Keys
    ensures Accepts(ObjectSchema(m, properties, required, additional), Obj(fields[p := v])) <==>
              && (p in properties ==> Accepts(properties[p], v))
              && (p !in properties && additional.Some? ==> Accepts(additional.value, v))
              && Accepts(ObjectSchema(m, properties, required - {p}, additional), Obj(fields))
    ensures forall d | Accepts(ObjectSchema(m, properties, required, additional), d) :: d.Obj?
  {
    ObjectMore(m, properties, required, additional, fields, p, v);
  }

  lemma ObjectMore(m: Mixin, properties: map<string, Schema>, required: map<string, bool>, additional: Option<Schema>,
                   fields: map<string, Json>, p: string, v: Json)
    requires p !in fields
    ensures Accepts(ObjectSchema(m, properties, required, additional), Obj(fields[p := v])) <==>
              && (p in properties ==> Accepts(properties[p], v))
              && (p !in properties && additional.Some? ==> Accepts(additional.value, v))
              && Accepts(ObjectSchema(m, properties, required - {p}, additional), Obj(fields))
  {
    var more := fields[p := v];
    if Accepts(ObjectSchema(m, properties, required, additional), Obj(more)) {
      assert p in more;
      forall q | q in properties ensures if q in fields then Accepts(properties[q], fields[q]) else q !in required - {p} {
        assert q != p ==> (q in fields <==> q in more);
      }
      if additional.Some? {
        forall q | q in fields && q !in properties ensures Accepts(additional.value, fields[q]) { assert q in more; }
      }
    }
  }

  /** A message with a list of parameters is accepted as the tuple of them is; without one, its result
      decides; without either it is no message. */
  lemma MethodMessages(m: Mixin, params: seq<Schema>, returns_: Option<Schema>, additional: Option<Schema>, f: map<string, Json>)
    ensures "params" in f && f["params"].List? ==>
              (Accepts(MethodSchema(m, params, returns_, additional), Obj(f)) <==>
                 Accepts(TupleSchema(m, params, additional), f["params"]))
    ensures !("params" in f && f["params"].List?) && "result" in f ==>
              (Accepts(MethodSchema(m, params, returns_, additional), Obj(f)) <==>
                 returns_.None? || Accepts(returns_.value, f["result"]))
    ensures !("params" in f && f["params"].List?) && "result" !in f ==>
              !Accepts(MethodSchema(m, params, returns_, additional), Obj(f))
    ensures forall d | Accepts(MethodSchema(m, params, returns_, additional), d) :: d.Obj?
  {
  }

  /** The kinds without attributes tell null and the booleans from all other data. */
  lemma AtomicKinds(m: Mixin, d: Json)
    ensures Accepts(NullSchema(m), d) <==> d == Null
    ensures Accepts(BoolSchema(m), d) <==> d in {Bool(true), Bool(false)}
  {
  }

  /** Name and description have no part in the meaning. */
  lemma MeaningIgnoresMixin(s: Schema, m: Mixin, d: Json)
    ensures Accepts(s.(mixin := m), d) <==> Accepts(s, d)
  {
  }

  // ----- What a round trip does to the meaning ----------------------------------------------

  /** No string length, item bound or additional tuple schema at any depth. */
  predicate Unbounded(s: Schema)
    decreases s
  {
    match s
    case StringSchema(_, max, min) => max.None? && min.None?
    case AnyOfSchema(_, choices) => forall i | 0 <= i < |choices| :: Unbounded(choices[i])
    case AllOfSchema(_, choices) => forall i | 0 <= i < |choices| :: Unbounded(choices[i])
    case NotSchema(_, child) => Unbounded(child)
    case ListSchema(_, item, min, max) => min.None? && max.None? && Unbounded(item)
    case TupleSchema(_, children, additional) => additional.None? && forall i | 0 <= i < |children| :: Unbounded(children[i])
    case ObjectSchema(_, properties, _, additional) =>
      && (forall p | p in properties :: Unbounded(properties[p]))
      && (additional.Some? ==> Unbounded(additional.value))
    case MethodSchema(_, params, returns_, additional) =>
      && (forall i | 0 <= i < |params| :: Unbounded(params[i]))
      && (returns_.Some? ==> Unbounded(returns_.value))
      && (additional.Some? ==> Unbounded(additional.value))
    case _ => true
  }

  /** Lengths, item bounds and additional tuple schemas are all that printing can lose of the meaning. */
  lemma {:induction false} ErasureKeepsMeaning(s: Schema, d: Json)
    requires Unbounded(s)
    ensures Accepts(Erase(s), d) <==> Accepts(s, d)
    decreases s, 1
  {
    match s
    case AnyOfSchema(_, choices) => forall i | 0 <= i < |choices| { ErasureKeepsMeaning(choices[i], d); }
    case AllOfSchema(_, choices) => forall i | 0 <= i < |choices| { ErasureKeepsMeaning(choices[i], d); }
    case NotSchema(_, child) => ErasureKeepsMeaning(child, d);
    case ListSchema(_, item, _, _) =>
      if d.List? { forall i | 0 <= i < |d.items| { ErasureKeepsMeaning(item, d.items[i]); } }
    case TupleSchema(_, children, _) =>
      if d.List? { forall i | 0 <= i < |children| && i < |d.items| { ErasureKeepsMeaning(children[i], d.items[i]); } }
    case ObjectSchema(_, _, _, _) => ErasureKeepsObjects(s, d);
    case MethodSchema(_, _, _, _) => ErasureKeepsMethods(s, d);
    case _ =>
  }

  lemma {:induction false} ErasureKeepsObjects(s: Schema, d: Json)
    requires s.ObjectSchema? && Unbounded(s)
    ensures Accepts(Erase(s), d) <==> Accepts(s, d)
    decreases s, 0
  {
    if d.Obj? {
      forall p | p in s.properties && p in d.fields { ErasureKeepsMeaning(s.properties[p], d.fields[p]); }
      if s.additional.Some? { forall p | p in d.fields { ErasureKeepsMeaning(s.additional.value, d.fields[p]); } }
    }
  }

  lemma {:induction false} ErasureKeepsMethods(s: Schema, d: Json)
    requires s.MethodSchema? && Unbounded(s)
    ensures Accepts(Erase(s), d) <==> Accepts(s, d)
    decreases s, 0
  {
    if HasParams(d) {
      var args := d.fields["params"].items;
      forall i | 0 <= i < |s.params| && i < |args| { ErasureKeepsMeaning(s.params[i], args[i]); }
      if s.additional.Some? { forall i | 0 <= i < |args| { ErasureKeepsMeaning(s.additional.value, args[i]); } }
    } else if d.Obj? && "result" in d.fields && s.returns_.Some? {
      ErasureKeepsMeaning(s.returns_.value, d.fields["result"]);
    }
  }

  /** A built schema without those means the same after printing and building again. */
  lemma RoundTripKeepsMeaning(d: Json, j: Json, data: Json)
    requires Build(d).Some? && Unbounded(Build(d).value) && Prints(Build(d).value, j)
    ensures Build(j).Some? && (Accepts(Build(j).value, data) <==> Accepts(Build(d).value, data))
  {
    RoundTrip(d, j, j);
    EqualIsCongruence(Build(j).value, Erase(Build(d).value), Erase(Build(d).value), data);
    ErasureKeepsMeaning(Build(d).value, data);
  }
}
