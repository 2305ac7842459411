/**
 Where a validation error points: what the steps of its path lead to, in the data and under the
 schema, and what is at fault there.
 */
module ErrorPaths {
  import opened Basics
  import opened JsonValues
  import opened Schemas

  // ----- Steps ------------------------------------------------------------------------------

  function IndexStep(i: nat): string { "[" + Decimal(i) + "]" }

  function PropStep(prop: string): string { "." + prop }

  function Pushed(paths: seq<string>, step: string): seq<string> {
    if step == "" then paths else paths + [step]
  }

  function Joined(parts: seq<string>): string {
    if parts == [] then "" else parts[0] + Joined(parts[1..])
  }

  /** The text of a path is that of its parts, and of one step the step itself. */
  lemma {:induction false} JoinedParts(a: seq<string>, b: seq<string>, step: string)
    ensures Joined(a + b) == Joined(a) + Joined(b) && Joined([step]) == step
  {
    assert [step] == [step] + [] && [step][1..] == [];
    if a == [] {
      assert a + b == b;
    } else {
      assert (a + b)[1..] == a[1..] + b;
      JoinedParts(a[1..], b, step);
    }
  }

  /** How a step reads: a name after a dot, or a numeral in brackets. */
  datatype Place = Item(i: nat) | Prop(name: string)

  function ReadStep(step: string): Option<Place> {
    if |step| > 0 && step[0] == '.' then Some(Prop(step[1..]))
    else if |step| > 2 && step[0] == '[' && step[|step| - 1] == ']' && IsNumeral(step[1..|step| - 1]) then
      Some(Item(ReadNumeral(step[1..|step| - 1])))
    else None
  }

  lemma StepsReadBack(i: nat, prop: string)
    ensures ReadStep(IndexStep(i)) == Some(Item(i)) && ReadStep(PropStep(prop)) == Some(Prop(prop))
  {
    DecimalReadsBack(i);
    assert IndexStep(i)[1..|IndexStep(i)| - 1] == Decimal(i);
    assert PropStep(prop)[1..] == prop;
  }

  lemma IndexStepInjective(i: nat, j: nat)
    requires IndexStep(i) == IndexStep(j)
    ensures i == j
  {
    StepsReadBack(i, "");
    StepsReadBack(j, "");
  }

  // ----- Faults -----------------------------------------------------------------------------

  /** What an error path leads to: a value under the schema that governs it, a property
      an object lacks, or the argument list of a message under its method schema. */
  datatype Target =
    | Value(schema: Schema, data: Json)
    | Missing(obj: Json, prop: string)
    | Arguments(method_: Schema, args: seq<Json>)

  /** Refused for what it is, whatever is inside it. */
  predicate OwnFault(s: Schema, d: Json) {
    match s
    case AllOfSchema(_, _) => false
    case ListSchema(_, _, min, max) => !d.List? || !LengthWithin(|d.items|, min, max)
    case TupleSchema(_, children, additional) =>
      !d.List? || |d.items| < |children| || (additional.None? && |d.items| > |children|)
    case ObjectSchema(_, _, _, _) => !d.Obj?
    case MethodSchema(_, _, _, _) => !d.Obj? || (!HasParams(d) && "result" !in d.fields)
    case _ => !Accepts(s, d)
  }

  /** What is found there is at fault. */
  predicate AtFault(t: Target) {
    match t
    case Value(s, d) => OwnFault(s, d)
    case Missing(obj, prop) => obj.Obj? && prop !in obj.fields
    case Arguments(m, args) =>
      && m.MethodSchema?
      && (|| |args| < |m.params|
          || (|args| > |m.params| && m.additional.None? && forall i | 0 <= i < |m.params| :: Accepts(m.params[i], args[i])))
  }

  /** The schema for the item at `i` of a tuple or an argument list. */
  function ItemSchema(children: seq<Schema>, additional: Option<Schema>, i: nat): Option<Schema> {
    if i < |children| then Some(children[i]) else additional
  }

  predicate ItemAccepted(children: seq<Schema>, additional: Option<Schema>, items: seq<Json>, i: nat)
    requires i < |items|
  {
    ItemSchema(children, additional, i).Some? && Accepts(ItemSchema(children, additional, i).value, items[i])
  }

  predicate PropertiesAccepted(s: Schema, d: Json)
    requires s.ObjectSchema? && d.Obj?
  {
    forall p | p in s.properties ::
      if p in d.fields then Accepts(s.properties[p], d.fields[p]) else p !in s.required
  }

  /** `t` is found by following `steps` through `s` and `d` side by side, past what is accepted: the
      choices and items before, and the properties of the schema before any additional one. */
  ghost predicate Located(s: Schema, d: Json, steps: seq<string>, t: Target)
    decreases s, 1
  {
    || (steps == [] && t == Value(s, d))
    || match s
       case AllOfSchema(_, choices) =>
         exists i | 0 <= i < |choices| ::
           (forall j | 0 <= j < i :: Accepts(choices[j], d)) && Located(choices[i], d, steps, t)
       case ListSchema(_, item, _, _) =>
         !OwnFault(s, d) && |steps| > 0 && exists i | 0 <= i < |d.items| ::
           && (forall j | 0 <= j < i :: Accepts(item, d.items[j]))
           && steps[0] == IndexStep(i) && Located(item, d.items[i], steps[1..], t)
       case TupleSchema(_, children, additional) =>
         !OwnFault(s, d) && |steps| > 0 && LocatedItem(s, children, additional, d.items, steps, t)
       case ObjectSchema(_, properties, required, additional) =>
         && d.Obj? && |steps| > 0 && |steps[0]| > 0
         && var prop := steps[0][1..];
         && steps[0] == PropStep(prop)
         && if prop in properties then
              if prop in d.fields then Located(properties[prop], d.fields[prop], steps[1..], t)
              else prop in required && |steps| == 1 && t == Missing(d, prop)
            else
              && prop in d.fields && additional.Some? && PropertiesAccepted(s, d)
              && Located(additional.value, d.fields[prop], steps[1..], t)
       case MethodSchema(_, params, returns_, additional) =>
         && d.Obj? && |steps| > 0
         && if HasParams(d) then
              && var args := d.fields["params"].items;
              && steps[0] == ".params"
              && if |steps| == 1 then t == Arguments(s, args) else
                 |args| >= |params| && LocatedItem(s, params, additional, args, steps[1..], t)
            else
              && "result" in d.fields && steps[0] == ".result"
              && returns_.Some? && Located(returns_.value, d.fields["result"], steps[1..], t)
       case _ => false
  }

  /** The first step is that of an item, and all before it are accepted. */
  ghost predicate LocatedItem(parent: Schema, children: seq<Schema>, additional: Option<Schema>, items: seq<Json>,
                              steps: seq<string>, t: Target)
    requires |steps| > 0 && (forall i | 0 <= i < |children| :: children[i] < parent)
    requires additional.Some? ==> additional.value < parent
    decreases parent, 0
  {
    exists i | 0 <= i < |items| ::
      && (forall j | 0 <= j < i :: ItemAccepted(children, additional, items, j))
      && steps[0] == IndexStep(i)
      && ItemSchema(children, additional, i).Some?
      && Located(ItemSchema(children, additional, i).value, items[i], steps[1..], t)
  }

  /** A fault of the first item that is not accepted is a fault of the whole. */
  lemma ListItemLocated(s: Schema, d: Json, i: nat, steps: seq<string>, t: Target)
    requires s.ListSchema? && !OwnFault(s, d) && i < |d.items| && |steps| > 0 && steps[0] == IndexStep(i)
    requires (forall j | 0 <= j < i :: Accepts(s.item, d.items[j])) && Located(s.item, d.items[i], steps[1..], t)
    ensures Located(s, d, steps, t)
  {
  }

  lemma ItemLocated(parent: Schema, children: seq<Schema>, additional: Option<Schema>, items: seq<Json>, i: nat,
                    steps: seq<string>, t: Target)
    requires |steps| > 0 && (forall i | 0 <= i < |children| :: children[i] < parent)
    requires additional.Some? ==> additional.value < parent
    requires i < |items| && steps[0] == IndexStep(i) && ItemSchema(children, additional, i).Some?
    requires forall j | 0 <= j < i :: ItemAccepted(children, additional, items, j)
    requires Located(ItemSchema(children, additional, i).value, items[i], steps[1..], t)
    ensures LocatedItem(parent, children, additional, items, steps, t)
  {
  }

  // ----- A path resolves in the data alone --------------------------------------------------

  /** The value that path steps denote in the data, each step read as text. */
  function Resolve(d: Json, steps: seq<string>): Option<Json>
    decreases |steps|
  {
    if steps == [] then Some(d)
    else match ReadStep(steps[0])
      case Some(Item(i)) => if d.List? && i < |d.items| then Resolve(d.items[i], steps[1..]) else None
      case Some(Prop(name)) => if d.Obj? && name in d.fields then Resolve(d.fields[name], steps[1..]) else None
      case None => None
  }

  /** The steps up to a target resolve, in the data alone, to the value the target names. */
  predicate ResolvesTo(d: Json, steps: seq<string>, t: Target) {
    match t
    case Value(_, v) => Resolve(d, steps) == Some(v)
    case Missing(obj, prop) =>
      && |steps| > 0
      && Resolve(d, steps[..|steps| - 1]) == Some(obj)
      && ReadStep(steps[|steps| - 1]) == Some(Prop(prop))
    case Arguments(_, args) => Resolve(d, steps) == Some(List(args))
  }

  /** Prefixing one step whose value is known. */
  lemma ResolvesBelow(d: Json, steps: seq<string>, v: Json, t: Target)
    requires |steps| > 0 && ResolvesTo(v, steps[1..], t) && Resolve(d, [steps[0]]) == Some(v)
    ensures ResolvesTo(d, steps, t)
  {
    assert steps == [steps[0]] + steps[1..];
    if t.Missing? {
      var n := |steps|;
      assert steps[..n - 1][1..] == steps[1..][..n - 2];
    }
  }

  lemma ResolvesBelowItem(d: Json, steps: seq<string>, i: nat, t: Target)
    requires d.List? && i < |d.items| && |steps| > 0 && steps[0] == IndexStep(i)
    requires ResolvesTo(d.items[i], steps[1..], t)
    ensures ResolvesTo(d, steps, t)
  {
    StepsReadBack(i, "");
    assert [steps[0]][1..] == [];
    ResolvesBelow(d, steps, d.items[i], t);
  }

  lemma ResolvesBelowProp(d: Json, steps: seq<string>, prop: string, t: Target)
    requires d.Obj? && prop in d.fields && |steps| > 0 && steps[0] == PropStep(prop)
    requires ResolvesTo(d.fields[prop], steps[1..], t)
    ensures ResolvesTo(d, steps, t)
  {
    StepsReadBack(0, prop);
    assert [steps[0]][1..] == [];
    ResolvesBelow(d, steps, d.fields[prop], t);
  }

  /** Every located target is a real place in the data: the steps, read as text, resolve, whatever
      the schema, to the value rejected or to the object that lacks the property. */
  lemma {:induction false} LocatedResolves(s: Schema, d: Json, steps: seq<string>, t: Target)
    requires Located(s, d, steps, t)
    ensures ResolvesTo(d, steps, t)
    decreases s, 1
  {
    if steps == [] && t == Value(s, d) { return; }
    match s
    case AllOfSchema(_, choices) =>
      var i :| 0 <= i < |choices| && Located(choices[i], d, steps, t);
      LocatedResolves(choices[i], d, steps, t);
    case ListSchema(_, item, _, _) =>
      var i :| 0 <= i < |d.items| && steps[0] == IndexStep(i) && Located(item, d.items[i], steps[1..], t);
      LocatedResolves(item, d.items[i], steps[1..], t);
      ResolvesBelowItem(d, steps, i, t);
    case TupleSchema(_, children, additional) => LocatedItemResolves(s, children, additional, d, steps, t);
    case ObjectSchema(_, properties, required, additional) =>
      var prop := steps[0][1..];
      if prop in d.fields {
        LocatedResolves(if prop in properties then properties[prop] else additional.value,
                        d.fields[prop], steps[1..], t);
        ResolvesBelowProp(d, steps, prop, t);
      } else {
        StepsReadBack(0, prop);
        assert steps[..0] == [];
      }
    case MethodSchema(_, params, returns_, additional) =>
      if !HasParams(d) {
        LocatedResolves(returns_.value, d.fields["result"], steps[1..], t);
        ResolvesBelowProp(d, steps, "result", t);
      } else {
        if |steps| > 1 { LocatedItemResolves(s, params, additional, d.fields["params"], steps[1..], t); }
        ResolvesBelowProp(d, steps, "params", t);
      }
  }

  lemma {:induction false} LocatedItemResolves(parent: Schema, children: seq<Schema>, additional: Option<Schema>, d: Json,
                                               steps: seq<string>, t: Target)
    requires |steps| > 0 && (forall i | 0 <= i < |children| :: children[i] < parent)
    requires additional.Some? ==> additional.value < parent
    requires d.List? && LocatedItem(parent, children, additional, d.items, steps, t)
    ensures ResolvesTo(d, steps, t)
    decreases parent, 0
  {
    var i :| 0 <= i < |d.items| && steps[0] == IndexStep(i) && ItemSchema(children, additional, i).Some?
      && Located(ItemSchema(children, additional, i).value, d.items[i], steps[1..], t);
    LocatedResolves(ItemSchema(children, additional, i).value, d.items[i], steps[1..], t);
    ResolvesBelowItem(d, steps, i, t);
  }

  // ----- A fault refuses the whole data -----------------------------------------------------

  /** A fault anywhere along a path the validator may follow makes the whole data wrong. */
  lemma {:induction false} FaultMeansRejection(s: Schema, d: Json, steps: seq<string>, t: Target)
    requires Located(s, d, steps, t) && AtFault(t)
    ensures !Accepts(s, d)
    decreases s, 1
  {
    if steps == [] && t == Value(s, d) { return; }
    match s
    case AllOfSchema(_, choices) =>
      var i :| 0 <= i < |choices| && Located(choices[i], d, steps, t);
      FaultMeansRejection(choices[i], d, steps, t);
    case ListSchema(_, item, _, _) =>
      var i :| 0 <= i < |d.items| && steps[0] == IndexStep(i) && Located(item, d.items[i], steps[1..], t);
      FaultMeansRejection(item, d.items[i], steps[1..], t);
    case TupleSchema(_, children, additional) =>
      var i := ItemFaultMeansRejection(s, children, additional, d.items, steps, t);
    case ObjectSchema(_, properties, required, additional) =>
      var prop := steps[0][1..];
      if prop in d.fields {
        FaultMeansRejection(if prop in properties then properties[prop] else additional.value,
                            d.fields[prop], steps[1..], t);
      }
    case MethodSchema(_, params, returns_, additional) =>
      if !HasParams(d) {
        FaultMeansRejection(returns_.value, d.fields["result"], steps[1..], t);
      } else if |steps| > 1 {
        var i := ItemFaultMeansRejection(s, params, additional, d.fields["params"].items, steps[1..], t);
      }
  }

  lemma {:induction false} ItemFaultMeansRejection(parent: Schema, children: seq<Schema>, additional: Option<Schema>,
                                                   items: seq<Json>, steps: seq<string>, t: Target) returns (i: nat)
    requires |steps| > 0 && (forall i | 0 <= i < |children| :: children[i] < parent)
    requires additional.Some? ==> additional.value < parent
    requires LocatedItem(parent, children, additional, items, steps, t) && AtFault(t)
    ensures i < |items| && steps[0] == IndexStep(i) && ItemSchema(children, additional, i).Some?
    ensures Located(ItemSchema(children, additional, i).value, items[i], steps[1..], t)
    ensures !ItemAccepted(children, additional, items, i)
    ensures forall j | 0 <= j < i :: ItemAccepted(children, additional, items, j)
    decreases parent, 0
  {
    i :| 0 <= i < |items| && (forall j | 0 <= j < i :: ItemAccepted(children, additional, items, j))
      && steps[0] == IndexStep(i) && ItemSchema(children, additional, i).Some?
      && Located(ItemSchema(children, additional, i).value, items[i], steps[1..], t);
    FaultMeansRejection(ItemSchema(children, additional, i).value, items[i], steps[1..], t);
  }

  // ----- Nothing but the order of properties is left open -----------------------------------

  /** Two paths that part, if at all, at two properties of one object. */
  ghost predicate PartAtProperty(steps1: seq<string>, steps2: seq<string>) {
    exists k | 0 <= k < |steps1| && k < |steps2| ::
      && steps1[..k] == steps2[..k] && steps1[k] != steps2[k]
      && (exists p :: steps1[k] == PropStep(p)) && (exists p :: steps2[k] == PropStep(p))
  }

  ghost predicate SameButForProperty(steps1: seq<string>, t1: Target, steps2: seq<string>, t2: Target) {
    (steps1 == steps2 && t1 == t2) || PartAtProperty(steps1, steps2)
  }

  lemma PartBelow(steps1: seq<string>, t1: Target, steps2: seq<string>, t2: Target)
    requires |steps1| > 0 && |steps2| > 0 && steps1[0] == steps2[0]
    requires SameButForProperty(steps1[1..], t1, steps2[1..], t2)
    ensures SameButForProperty(steps1, t1, steps2, t2)
  {
    assert steps1 == [steps1[0]] + steps1[1..] && steps2 == [steps2[0]] + steps2[1..];
    if PartAtProperty(steps1[1..], steps2[1..]) {
      var k :| 0 <= k < |steps1[1..]| && k < |steps2[1..]| && steps1[1..][..k] == steps2[1..][..k]
        && steps1[1..][k] != steps2[1..][k]
        && (exists p :: steps1[1..][k] == PropStep(p)) && (exists p :: steps2[1..][k] == PropStep(p));
      assert steps1[..k + 1] == [steps1[0]] + steps1[1..][..k] && steps2[..k + 1] == [steps2[0]] + steps2[1..][..k];
      assert steps1[k + 1] == steps1[1..][k] && steps2[k + 1] == steps2[1..][k];
    }
  }

  lemma PartHere(steps1: seq<string>, steps2: seq<string>, p1: string, p2: string)
    requires |steps1| > 0 && |steps2| > 0 && steps1[0] == PropStep(p1) && steps2[0] == PropStep(p2) && p1 != p2
    ensures PartAtProperty(steps1, steps2)
  {
    StepsReadBack(0, p1);
    StepsReadBack(0, p2);
    assert steps1[..0] == steps2[..0];
  }

  /** What is wrong with data under a schema has one place, the first in the order of choices and items,
      but for the choice among the faulty properties of an object. */
  lemma {:induction false} FaultIsFirst(s: Schema, d: Json, steps1: seq<string>, t1: Target, steps2: seq<string>, t2: Target)
    requires Located(s, d, steps1, t1) && AtFault(t1) && Located(s, d, steps2, t2) && AtFault(t2)
    ensures SameButForProperty(steps1, t1, steps2, t2)
    decreases s, 1, 0
  {
    if OwnFault(s, d) {
      OwnFaultIsAlone(s, d, steps1, t1);
      OwnFaultIsAlone(s, d, steps2, t2);
      return;
    }
    match s
    case AllOfSchema(_, choices) =>
      var i1 := ChoiceAtFault(s, d, steps1, t1);
      var i2 := ChoiceAtFault(s, d, steps2, t2);
      assert i1 == i2;
      FaultIsFirst(choices[i1], d, steps1, t1, steps2, t2);
    case ListSchema(_, item, _, _) =>
      var i1 := ListItemAtFault(s, d, steps1, t1);
      var i2 := ListItemAtFault(s, d, steps2, t2);
      assert i1 == i2;
      FaultIsFirst(item, d.items[i1], steps1[1..], t1, steps2[1..], t2);
      PartBelow(steps1, t1, steps2, t2);
    case TupleSchema(_, children, additional) =>
      ItemFaultIsFirst(s, children, additional, d.items, steps1, t1, steps2, t2);
    case ObjectSchema(_, _, _, _) => PropertyFaultIsFirst(s, d, steps1, t1, steps2, t2);
    case MethodSchema(_, _, _, _) => MessageFaultIsFirst(s, d, steps1, t1, steps2, t2);
  }

  lemma OwnFaultIsAlone(s: Schema, d: Json, steps: seq<string>, t: Target)
    requires OwnFault(s, d) && Located(s, d, steps, t)
    ensures steps == [] && t == Value(s, d)
  {
  }

  lemma ChoiceAtFault(s: Schema, d: Json, steps: seq<string>, t: Target) returns (i: nat)
    requires s.AllOfSchema? && Located(s, d, steps, t) && AtFault(t)
    ensures i < |s.choices| && !Accepts(s.choices[i], d) && Located(s.choices[i], d, steps, t)
    ensures forall j | 0 <= j < i :: Accepts(s.choices[j], d)
  {
    i :| 0 <= i < |s.choices| && (forall j | 0 <= j < i :: Accepts(s.choices[j], d)) && Located(s.choices[i], d, steps, t);
    FaultMeansRejection(s.choices[i], d, steps, t);
  }

  lemma ListItemAtFault(s: Schema, d: Json, steps: seq<string>, t: Target) returns (i: nat)
    requires s.ListSchema? && !OwnFault(s, d) && Located(s, d, steps, t) && AtFault(t)
    ensures |steps| > 0 && i < |d.items| && steps[0] == IndexStep(i)
    ensures !Accepts(s.item, d.items[i]) && Located(s.item, d.items[i], steps[1..], t)
    ensures forall j | 0 <= j < i :: Accepts(s.item, d.items[j])
  {
    i :| 0 <= i < |d.items| && (forall j | 0 <= j < i :: Accepts(s.item, d.items[j]))
      && steps[0] == IndexStep(i) && Located(s.item, d.items[i], steps[1..], t);
    FaultMeansRejection(s.item, d.items[i], steps[1..], t);
  }

  lemma {:induction false} ItemFaultIsFirst(parent: Schema, children: seq<Schema>, additional: Option<Schema>,
      items: seq<Json>, steps1: seq<string>, t1: Target, steps2: seq<string>, t2: Target)
    requires |steps1| > 0 && |steps2| > 0 && (forall i | 0 <= i < |children| :: children[i] < parent)
    requires additional.Some? ==> additional.value < parent
    requires LocatedItem(parent, children, additional, items, steps1, t1) && AtFault(t1)
    requires LocatedItem(parent, children, additional, items, steps2, t2) && AtFault(t2)
    ensures SameButForProperty(steps1, t1, steps2, t2)
    decreases parent, 0, 0
  {
    var i1 := ItemFaultMeansRejection(parent, children, additional, items, steps1, t1);
    var i2 := ItemFaultMeansRejection(parent, children, additional, items, steps2, t2);
    assert i1 == i2;
    FaultIsFirst(ItemSchema(children, additional, i1).value, items[i1], steps1[1..], t1, steps2[1..], t2);
    PartBelow(steps1, t1, steps2, t2);
  }

  lemma {:induction false} PropertyFaultIsFirst(s: Schema, d: Json, steps1: seq<string>, t1: Target, steps2: seq<string>, t2: Target)
    requires s.ObjectSchema? && d.Obj?
    requires Located(s, d, steps1, t1) && AtFault(t1) && Located(s, d, steps2, t2) && AtFault(t2)
    ensures SameButForProperty(steps1, t1, steps2, t2)
    decreases s, 0, 1
  {
    var p1, p2 := steps1[0][1..], steps2[0][1..];
    if p1 != p2 {
      PartHere(steps1, steps2, p1, p2);
    } else if p1 in d.fields {
      FaultIsFirst(if p1 in s.properties then s.properties[p1] else s.additional.value, d.fields[p1], steps1[1..], t1, steps2[1..], t2);
      PartBelow(steps1, t1, steps2, t2);
    }
  }

  lemma {:induction false} MessageFaultIsFirst(s: Schema, d: Json, steps1: seq<string>, t1: Target, steps2: seq<string>, t2: Target)
    requires s.MethodSchema? && !OwnFault(s, d)
    requires Located(s, d, steps1, t1) && AtFault(t1) && Located(s, d, steps2, t2) && AtFault(t2)
    ensures SameButForProperty(steps1, t1, steps2, t2)
    decreases s, 0, 1
  {
    if !HasParams(d) {
      FaultIsFirst(s.returns_.value, d.fields["result"], steps1[1..], t1, steps2[1..], t2);
      PartBelow(steps1, t1, steps2, t2);
    } else if |steps1| > 1 && |steps2| > 1 {
      ItemFaultIsFirst(s, s.params, s.additional, d.fields["params"].items, steps1[1..], t1, steps2[1..], t2);
      PartBelow(steps1, t1, steps2, t2);
    } else if |steps1| > 1 {
      ArgumentsNotAlone(s, d, steps1, t1);
    } else if |steps2| > 1 {
      ArgumentsNotAlone(s, d, steps2, t2);
    }
  }

  /** An argument at fault is not preceded by a fault of the list. */
  lemma ArgumentsNotAlone(s: Schema, d: Json, steps: seq<string>, t: Target)
    requires s.MethodSchema? && HasParams(d) && |steps| > 1 && Located(s, d, steps, t) && AtFault(t)
    ensures !AtFault(Arguments(s, d.fields["params"].items))
  {
    var i := ItemFaultMeansRejection(s, s.params, s.additional, d.fields["params"].items, steps[1..], t);
  }
}
