/**
 The validator: a walk over schema and data that keeps a mutable stack of path steps,
 reports the stack on failure, and visits object properties in any order.
 */
module Validation {
  import opened Basics
  import opened JsonValues
  import opened Schemas
  import opened ErrorPaths

  /** The steps are in an array of the error's own. */
  datatype ErrorPos = ErrorPos(paths: array<string>, hint: string)
  {
    function Path(): string
      reads paths
    {
      Joined(paths[..])
    }

    function Error(): string
      reads paths
    {
      "Validation Error: " + Path() + " " + hint
    }
  }

  // ----- The validator --------------------------------------------------------------------

  /** `err` reports a fault of `d` under `s`, found from the stack `base`. */
  ghost predicate Reports(err: ErrorPos, base: seq<string>, s: Schema, d: Json, t: Target)
    reads err.paths
  {
    && base <= err.paths[..]
    && Located(s, d, err.paths[..][|base|..], t)
    && AtFault(t)
  }

  class SchemaValidator {
    // the path stack is a slice: the first `len` elements of its backing array
    var buf: array<string>
    var len: nat

    ghost predicate Valid()
      reads this
    {
      len <= buf.Length
    }

    ghost function Paths(): seq<string>
      requires Valid()
      reads this, buf
    {
      buf[..len]
    }

    /** The stack is as it was, though perhaps in a new backing array. */
    twostate predicate Kept()
      reads this, buf
    {
      old(Valid()) && Valid() && Paths() == old(Paths()) && (buf == old(buf) || fresh(buf))
    }

    /** An error made since has its steps in an array that the stack does not use. */
    twostate predicate Owned(new err: Option<ErrorPos>)
      reads this
    {
      err.Some? ==> fresh(err.value.paths) && err.value.paths != buf
    }

    constructor ()
      ensures Valid() && Paths() == [] && fresh(buf)
    {
      buf, len := new string[0], 0;
    }

    /** Copies the stack into a new error, step by step. */
    method NewErrorPos(hint: string) returns (err: ErrorPos)
      requires Valid()
      ensures fresh(err.paths) && err.paths[..] == Paths() && err.hint == hint
    {
      var newPaths := new string[len];
      for i := 0 to len
        invariant newPaths[..i] == buf[..i]
      {
        newPaths[i] := buf[i];
      }
      err := ErrorPos(newPaths, hint);
    }

    /** `append`: in place while there is room, else into a larger backing array. */
    method PushPath(path: string)
      requires Valid()
      modifies this, buf
      ensures Valid() && Paths() == Pushed(old(Paths()), path)
      ensures buf == old(buf) || fresh(buf)
    {
      if path != "" {
        if len == buf.Length {
          var larger := new string[2 * len + 1];
          for i := 0 to len
            modifies larger
            invariant larger[..i] == buf[..i]
          {
            larger[i] := buf[i];
          }
          buf := larger;
        }
        buf[len] := path;
        len := len + 1;
      }
    }

    /** The precondition is the condition under which the source does not panic. */
    method PopPath(path: string)
      requires Valid() && (path != "" ==> len > 0 && buf[len - 1] == path)
      modifies this`len
      ensures Valid() && Paths() == if path == "" then old(Paths()) else old(Paths())[..old(len) - 1]
    {
      if path != "" {
        len := len - 1;
      }
    }

    method Validate(schema: Schema, data: Json) returns (err: Option<ErrorPos>, ghost t: Target)
      requires Valid()
      modifies this, buf
      ensures Kept() && Owned(err)
      ensures err.None? <==> Accepts(schema, data)
      ensures err.Some? ==> Reports(err.value, old(Paths()), schema, data, t)
    {
      err, t := Scan(schema, "", data);
    }

    method Scan(schema: Schema, path: string, data: Json) returns (err: Option<ErrorPos>, ghost t: Target)
      requires Valid()
      modifies this, buf
      ensures Kept() && Owned(err)
      ensures err.None? <==> Accepts(schema, data)
      ensures err.Some? ==> Reports(err.value, Pushed(old(Paths()), path), schema, data, t)
      decreases schema, 5
    {
      ghost var base := Paths();
      PushPath(path);
      ghost var pushed := Pushed(base, path);
      err, t := ScanSchema(schema, data);
      assert Paths() == pushed;
      assert path != "" ==> len == |base| + 1 && buf[len - 1] == pushed[|base|] && pushed[..|base|] == base;
      ghost var steps := if err.Some? then err.value.paths[..] else [];
      PopPath(path);
      assert Paths() == base;
      assert err.Some? ==> err.value.paths[..] == steps;
    }

    /** The dynamic dispatch on the kind of schema. */
    method ScanSchema(schema: Schema, data: Json) returns (err: Option<ErrorPos>, ghost t: Target)
      requires Valid()
      modifies this, buf
      ensures Kept() && Owned(err)
      ensures err.None? <==> Accepts(schema, data)
      ensures err.Some? ==> Reports(err.value, old(Paths()), schema, data, t)
      decreases schema, 4
    {
      err, t := None, Value(schema, data);
      var e: ErrorPos;
      match schema
      case AnySchema(_) => return;
      case NullSchema(_) =>
        if !data.Null? { e := NewErrorPos("data is not null"); err := Some(e); }
      case BoolSchema(_) =>
        if data.Bool? { return; }
        e := NewErrorPos("data is not bool");
        err := Some(e);
      case NumberSchema(_, _, _, _, _) =>
        if data.Int? || data.Dec? {
          err := CheckNumberRange(schema, ToReal(data));
        } else {
          e := NewErrorPos("data is not number");
          err := Some(e);
        }
      case IntegerSchema(_, _, _, _, _) =>
        if data.Int? && FitsInt64(data.i) {
          err := CheckIntegerRange(schema, data.i);
        } else {
          e := NewErrorPos("data is not integer");
          err := Some(e);
        }
      case StringSchema(_, max, min) => err := ScanString(schema, data);
      case AnyOfSchema(_, choices) => err := ScanAnyOf(schema, data);
      case AllOfSchema(_, choices) => err, t := ScanAllOf(schema, data);
      case NotSchema(_, child) =>
        var childErr, _ := ScanSchema(child, data);
        if childErr.None? { e := NewErrorPos("not validator failed"); err := Some(e); }
      case ListSchema(_, _, _, _) => err, t := ScanList(schema, data);
      case TupleSchema(_, _, _) => err, t := ScanTuple(schema, data);
      case ObjectSchema(_, _, _, _) => err, t := ScanObject(schema, data);
      case MethodSchema(_, _, _, _) => err, t := ScanMethod(schema, data);
    }

    method CheckNumberRange(schema: Schema, v: real) returns (err: Option<ErrorPos>)
      requires Valid()
      requires schema.NumberSchema?
      ensures err.None? <==> NumberWithin(v, schema)
      ensures Owned(err) && (err.Some? ==> err.value.paths[..] == Paths())
    {
      var e: ErrorPos;
      if schema.maximum.Some? {
        var exmax := false;
        if schema.exclusiveMaximum.Some? { exmax := schema.exclusiveMaximum.value; }
        if exmax && schema.maximum.value <= v {
          e := NewErrorPos("value >= maximum");
          return Some(e);
        }
        if !exmax && schema.maximum.value < v {
          e := NewErrorPos("value > maximum");
          return Some(e);
        }
      }
      if schema.minimum.Some? {
        var exmin := false;
        if schema.exclusiveMinimum.Some? { exmin := schema.exclusiveMinimum.value; }
        if !exmin && schema.minimum.value > v {
          e := NewErrorPos("value < minimum");
          return Some(e);
        }
        if exmin && schema.minimum.value >= v {
          e := NewErrorPos("value <= minimum");
          return Some(e);
        }
      }
      return None;
    }

    method CheckIntegerRange(schema: Schema, v: int) returns (err: Option<ErrorPos>)
      requires Valid()
      requires schema.IntegerSchema?
      ensures err.None? <==> IntegerWithin(v, schema)
      ensures Owned(err) && (err.Some? ==> err.value.paths[..] == Paths())
    {
      var e: ErrorPos;
      if schema.maxInt.Some? {
        var exmax := false;
        if schema.exclusiveMaximum.Some? { exmax := schema.exclusiveMaximum.value; }
        if exmax && schema.maxInt.value <= v {
          e := NewErrorPos("value >= maximum");
          return Some(e);
        }
        if !exmax && schema.maxInt.value < v {
          e := NewErrorPos("value > maximum");
          return Some(e);
        }
      }
      if schema.minInt.Some? {
        var exmin := false;
        if schema.exclusiveMinimum.Some? { exmin := schema.exclusiveMinimum.value; }
        if !exmin && schema.minInt.value > v {
          e := NewErrorPos("value < minimum");
          return Some(e);
        }
        if exmin && schema.minInt.value >= v {
          e := NewErrorPos("value <= minimum");
          return Some(e);
        }
      }
      return None;
    }

    method ScanString(schema: Schema, data: Json) returns (err: Option<ErrorPos>)
      requires Valid()
      requires schema.StringSchema?
      ensures err.None? <==> Accepts(schema, data)
      ensures Owned(err) && (err.Some? ==> err.value.paths[..] == Paths())
    {
      var e: ErrorPos;
      if data.Str? {
        if schema.maxLength.Some? && |data.s| > schema.maxLength.value {
          e := NewErrorPos("len(str) > maxLength");
          return Some(e);
        }
        if schema.minLength.Some? && |data.s| < schema.minLength.value {
          e := NewErrorPos("len(str) < minLength");
          return Some(e);
        }
        return None;
      }
      e := NewErrorPos("data is not string");
      return Some(e);
    }

    method ScanAnyOf(schema: Schema, data: Json) returns (err: Option<ErrorPos>)
      requires schema.AnyOfSchema?
      requires Valid()
      modifies this, buf
      ensures Kept() && Owned(err)
      ensures err.None? <==> Accepts(schema, data)
      ensures err.Some? ==> err.value.paths[..] == old(Paths())
      decreases schema, 0
    {
      for i := 0 to |schema.choices|
        invariant Kept()
        invariant forall j | 0 <= j < i :: !Accepts(schema.choices[j], data)
      {
        var childErr, _ := Scan(schema.choices[i], "", data);
        if childErr.None? { return None; }
      }
      var e := NewErrorPos("data is not any of the types");
      return Some(e);
    }

    method ScanAllOf(schema: Schema, data: Json) returns (err: Option<ErrorPos>, ghost t: Target)
      requires schema.AllOfSchema?
      requires Valid()
      modifies this, buf
      ensures Kept() && Owned(err)
      ensures err.None? <==> Accepts(schema, data)
      ensures err.Some? ==> Reports(err.value, old(Paths()), schema, data, t)
      decreases schema, 0
    {
      for i := 0 to |schema.choices|
        invariant Kept()
        invariant forall j | 0 <= j < i :: Accepts(schema.choices[j], data)
      {
        err, t := Scan(schema.choices[i], "", data);
        if err.Some? { return; }
      }
      err, t := None, Value(schema, data);
    }

    method ScanList(schema: Schema, data: Json) returns (err: Option<ErrorPos>, ghost t: Target)
      requires schema.ListSchema?
      requires Valid()
      modifies this, buf
      ensures Kept() && Owned(err)
      ensures err.None? <==> Accepts(schema, data)
      ensures err.Some? ==> Reports(err.value, old(Paths()), schema, data, t)
      decreases schema, 0
    {
      err, t := None, Value(schema, data);
      var e: ErrorPos;
      if !data.List? {
        e := NewErrorPos("data is not a list");
        return Some(e), t;
      }
      var items := data.items;
      if schema.maxItems.Some? && |items| > schema.maxItems.value {
        e := NewErrorPos("len(items) > maxItems");
        return Some(e), t;
      }
      if schema.minItems.Some? && |items| < schema.minItems.value {
        e := NewErrorPos("len(items) < minItems");
        return Some(e), t;
      }
      for i := 0 to |items|
        invariant Kept()
        invariant forall j | 0 <= j < i :: Accepts(schema.item, items[j])
      {
        err, t := Scan(schema.item, IndexStep(i), items[i]);
        if err.Some? {
          ListItemReported(err.value, old(Paths()), schema, data, i, t);
          return;
        }
      }
      err := None;
    }

    method ScanTuple(schema: Schema, data: Json) returns (err: Option<ErrorPos>, ghost t: Target)
      requires schema.TupleSchema?
      requires Valid()
      modifies this, buf
      ensures Kept() && Owned(err)
      ensures err.None? <==> Accepts(schema, data)
      ensures err.Some? ==> Reports(err.value, old(Paths()), schema, data, t)
      decreases schema, 0
    {
      err, t := None, Value(schema, data);
      var e: ErrorPos;
      if !data.List? {
        e := NewErrorPos("data is not a list");
        return Some(e), t;
      }
      var items, children := data.items, schema.children;
      if schema.additional.None? {
        if |items| != |children| {
          e := NewErrorPos("tuple items length mismatch");
          return Some(e), t;
        }
      } else {
        if |items| < |children| {
          e := NewErrorPos("data items length smaller than expected");
          return Some(e), t;
        }
      }
      for i := 0 to |children|
        invariant Kept()
        invariant forall j | 0 <= j < i :: ItemAccepted(children, schema.additional, items, j)
      {
        err, t := Scan(children[i], IndexStep(i), items[i]);
        if err.Some? {
          TupleItemReported(err.value, old(Paths()), schema, data, i, t);
          return;
        }
      }
      if schema.additional.Some? {
        for i := |children| to |items|
          invariant Kept()
          invariant forall j | 0 <= j < i :: ItemAccepted(children, schema.additional, items, j)
        {
          err, t := Scan(schema.additional.value, IndexStep(i), items[i]);
          if err.Some? {
            TupleItemReported(err.value, old(Paths()), schema, data, i, t);
            return;
          }
        }
      }
      TupleAccepted(schema, data);
      err := None;
    }

    method ScanObject(schema: Schema, data: Json) returns (err: Option<ErrorPos>, ghost t: Target)
      requires schema.ObjectSchema?
      requires Valid()
      modifies this, buf
      ensures Kept() && Owned(err)
      ensures err.None? <==> Accepts(schema, data)
      ensures err.Some? ==> Reports(err.value, old(Paths()), schema, data, t)
      decreases schema, 1
    {
      err, t := None, Value(schema, data);
      if !data.Obj? {
        var e := NewErrorPos("data is not an object");
        return Some(e), t;
      }
      var properties, obj := schema.properties, data.fields;
      var checked, unvisited := {}, properties.Keys;
      while unvisited != {}
        invariant Kept()
        invariant checked + unvisited == properties.Keys
        invariant forall p | p in checked ::
                    if p in obj then Accepts(properties[p], obj[p]) else p !in schema.required
        decreases unvisited
      {
        // Go visits the properties of a map in an unspecified order
        var prop :| prop in unvisited;
        unvisited, checked := unvisited - {prop}, checked + {prop};
        if prop in obj {
          err, t := Scan(properties[prop], PropStep(prop), obj[prop]);
          if err.Some? {
            PrependStep(err.value, old(Paths()), PropStep(prop), properties[prop], obj[prop], t);
            return;
          }
        } else if prop in schema.required {
          PushPath(PropStep(prop));
          var e := NewErrorPos("required prop is not present");
          PopPath(PropStep(prop));
          MissingReported(e, old(Paths()), schema, data, prop);
          return Some(e), Missing(data, prop);
        }
      }
      if schema.additional.Some? {
        err, t := ScanAdditional(schema, data, checked);
        return;
      }
      err := None;
    }

    method ScanAdditional(schema: Schema, data: Json, checked: set<string>)
        returns (err: Option<ErrorPos>, ghost t: Target)
      requires schema.ObjectSchema? && schema.additional.Some? && data.Obj? && checked == schema.properties.Keys
      requires PropertiesAccepted(schema, data)
      requires Valid()
      modifies this, buf
      ensures Kept() && Owned(err)
      ensures err.None? <==> Accepts(schema, data)
      ensures err.Some? ==> Reports(err.value, old(Paths()), schema, data, t)
      decreases schema, 0
    {
      err, t := None, Value(schema, data);
      var obj, additional := data.fields, schema.additional.value;
      var unvisited := obj.Keys;
      while unvisited != {}
        invariant Kept()
        invariant unvisited <= obj.Keys
        invariant forall p | p in obj && p !in unvisited && p !in checked :: Accepts(additional, obj[p])
        decreases unvisited
      {
        var prop :| prop in unvisited;
        unvisited := unvisited - {prop};
        if prop in checked { continue; }
        err, t := Scan(additional, PropStep(prop), obj[prop]);
        if err.Some? {
          PrependStep(err.value, old(Paths()), PropStep(prop), additional, obj[prop], t);
          return;
        }
      }
      err := None;
    }

    method ScanMethod(schema: Schema, data: Json) returns (err: Option<ErrorPos>, ghost t: Target)
      requires schema.MethodSchema?
      requires Valid()
      modifies this, buf
      ensures Kept() && Owned(err)
      ensures err.None? <==> Accepts(schema, data)
      ensures err.Some? ==> Reports(err.value, old(Paths()), schema, data, t)
      decreases schema, 3
    {
      err, t := None, Value(schema, data);
      var e: ErrorPos;
      if !data.Obj? {
        e := NewErrorPos("data is not object");
        return Some(e), t;
      }
      if "params" in data.fields && data.fields["params"].List? {
        err, t := ScanParams(schema, data.fields["params"].items, data);
        return;
      }
      if "result" in data.fields {
        err, t := ScanResult(schema, data);
        return;
      }
      e := NewErrorPos("data is not a JSONRPC message");
      err := Some(e);
    }

    method ScanResult(schema: Schema, data: Json) returns (err: Option<ErrorPos>, ghost t: Target)
      requires schema.MethodSchema? && data.Obj? && !HasParams(data) && "result" in data.fields
      requires Valid()
      modifies this, buf
      ensures Kept() && Owned(err)
      ensures err.None? <==> Accepts(schema, data)
      ensures err.Some? ==> Reports(err.value, old(Paths()), schema, data, t)
      decreases schema, 1
    {
      err, t := None, Value(schema, data);
      if schema.returns_.Some? {
        err, t := Scan(schema.returns_.value, ".result", data.fields["result"]);
        if err.Some? {
          PrependStep(err.value, old(Paths()), ".result", schema.returns_.value, data.fields["result"], t);
        }
      }
    }

    method ScanParams(schema: Schema, args: seq<Json>, ghost data: Json)
        returns (err: Option<ErrorPos>, ghost t: Target)
      requires schema.MethodSchema? && HasParams(data) && args == data.fields["params"].items
      requires Valid()
      modifies this, buf
      ensures Kept() && Owned(err)
      ensures err.None? <==> Accepts(schema, data)
      ensures err.Some? ==> Reports(err.value, old(Paths()), schema, data, t)
      decreases schema, 2
    {
      PushPath(".params");
      err, t := ScanArguments(schema, args, data);
      PopPath(".params");
      if err.Some? {
        assert err.value.paths[..][|Paths()|..] == [".params"] + err.value.paths[..][|Paths()| + 1..];
      }
    }

    /** What ScanParams does between its push and its deferred pop. */
    method ScanArguments(schema: Schema, args: seq<Json>, ghost data: Json)
        returns (err: Option<ErrorPos>, ghost t: Target)
      requires schema.MethodSchema? && HasParams(data) && args == data.fields["params"].items
      requires Valid()
      modifies this, buf
      ensures Kept() && Owned(err)
      ensures err.None? <==> Accepts(schema, data)
      ensures err.Some? ==> old(Paths()) <= err.value.paths[..] && AtFault(t)
      ensures err.Some? ==> Located(schema, data, [".params"] + err.value.paths[..][|old(Paths())|..], t)
      decreases schema, 1
    {
      err, t := None, Arguments(schema, args);
      var e: ErrorPos;
      if |args| < |schema.params| {
        e := NewErrorPos("length of params mismatch");
        return Some(e), t;
      }
      for i := 0 to |schema.params|
        invariant Kept()
        invariant forall j | 0 <= j < i :: ItemAccepted(schema.params, schema.additional, args, j)
      {
        err, t := ScanArgument(schema.params[i], schema, args, i, data);
        if err.Some? { return; }
      }
      if |args| > |schema.params| {
        if schema.additional.None? {
          e := NewErrorPos("length of params mismatch");
          ArgumentsInSurplus(schema, args);
          return Some(e), Arguments(schema, args);
        }
        for i := |schema.params| to |args|
          invariant Kept()
          invariant forall j | 0 <= j < i :: ItemAccepted(schema.params, schema.additional, args, j)
        {
          err, t := ScanArgument(schema.additional.value, schema, args, i, data);
          if err.Some? { return; }
        }
      }
      ArgumentsAccepted(schema, data);
      err := None;
    }

    method ScanArgument(argument: Schema, ghost schema: Schema, args: seq<Json>, i: nat, ghost data: Json)
        returns (err: Option<ErrorPos>, ghost t: Target)
      requires schema.MethodSchema? && HasParams(data) && args == data.fields["params"].items && i < |args|
      requires argument < schema && ItemSchema(schema.params, schema.additional, i) == Some(argument) && |args| >= |schema.params|
      requires forall j | 0 <= j < i :: ItemAccepted(schema.params, schema.additional, args, j)
      requires Valid()
      modifies this, buf
      ensures Kept() && Owned(err)
      ensures err.None? <==> Accepts(argument, args[i])
      ensures err.Some? ==> !Accepts(schema, data)
      ensures err.Some? ==> old(Paths()) <= err.value.paths[..] && AtFault(t)
      ensures err.Some? ==> Located(schema, data, [".params"] + err.value.paths[..][|old(Paths())|..], t)
      decreases schema, 0
    {
      err, t := Scan(argument, IndexStep(i), args[i]);
      if err.Some? {
        PrependStep(err.value, old(Paths()), IndexStep(i), argument, args[i], t);
        ghost var rest := err.value.paths[..][|Paths()|..];
        ArgumentRefused(schema, data, i);
        ItemLocated(schema, schema.params, schema.additional, args, i, rest, t);
        assert ([".params"] + rest)[1..] == rest;
      }
    }
  }

  /** An error below one step of the stack, seen from the stack without that step. */
  lemma PrependStep(err: ErrorPos, base: seq<string>, step: string, s: Schema, d: Json, t: Target)
    requires step != "" && Reports(err, base + [step], s, d, t)
    ensures var paths := err.paths[..];
            && base <= paths && |paths| > |base|
            && paths[|base|..] == [step] + paths[|base| + 1..]
            && paths[|base|..][0] == step && Located(s, d, paths[|base|..][1..], t) && AtFault(t)
  {
    var paths := err.paths[..];
    assert paths[|base|..] == [step] + paths[|base| + 1..];
  }

  lemma ListItemReported(err: ErrorPos, base: seq<string>, s: Schema, d: Json, i: nat, t: Target)
    requires s.ListSchema? && !OwnFault(s, d) && i < |d.items| && forall j | 0 <= j < i :: Accepts(s.item, d.items[j])
    requires Reports(err, base + [IndexStep(i)], s.item, d.items[i], t)
    ensures Reports(err, base, s, d, t) && !Accepts(s, d)
  {
    PrependStep(err, base, IndexStep(i), s.item, d.items[i], t);
    ListItemLocated(s, d, i, err.paths[..][|base|..], t);
    FaultMeansRejection(s, d, err.paths[..][|base|..], t);
  }

  lemma TupleItemReported(err: ErrorPos, base: seq<string>, s: Schema, d: Json, i: nat, t: Target)
    requires s.TupleSchema? && !OwnFault(s, d) && i < |d.items| && ItemSchema(s.children, s.additional, i).Some?
    requires forall j | 0 <= j < i :: ItemAccepted(s.children, s.additional, d.items, j)
    requires Reports(err, base + [IndexStep(i)], ItemSchema(s.children, s.additional, i).value, d.items[i], t)
    ensures Reports(err, base, s, d, t) && !Accepts(s, d)
  {
    PrependStep(err, base, IndexStep(i), ItemSchema(s.children, s.additional, i).value, d.items[i], t);
    ItemLocated(s, s.children, s.additional, d.items, i, err.paths[..][|base|..], t);
    FaultMeansRejection(s, d, err.paths[..][|base|..], t);
  }

  lemma TupleAccepted(s: Schema, d: Json)
    requires s.TupleSchema? && !OwnFault(s, d)
    requires forall j | 0 <= j < |d.items| :: ItemAccepted(s.children, s.additional, d.items, j)
    ensures Accepts(s, d)
  {
    forall j | 0 <= j < |s.children| ensures Accepts(s.children[j], d.items[j]) {
      assert ItemAccepted(s.children, s.additional, d.items, j);
    }
    forall j | |s.children| <= j < |d.items| ensures s.additional.Some? && Accepts(s.additional.value, d.items[j]) {
      assert ItemAccepted(s.children, s.additional, d.items, j);
    }
  }

  lemma ArgumentsAccepted(s: Schema, d: Json)
    requires s.MethodSchema? && HasParams(d) && |d.fields["params"].items| >= |s.params|
    requires forall j | 0 <= j < |d.fields["params"].items| :: ItemAccepted(s.params, s.additional, d.fields["params"].items, j)
    ensures Accepts(s, d)
  {
    var args := d.fields["params"].items;
    if |args| > |s.params| { assert ItemAccepted(s.params, s.additional, args, |s.params|); }
    forall j | 0 <= j < |s.params| ensures Accepts(s.params[j], args[j]) { assert ItemAccepted(s.params, s.additional, args, j); }
    forall j | |s.params| <= j < |args| ensures s.additional.Some? && Accepts(s.additional.value, args[j]) {
      assert ItemAccepted(s.params, s.additional, args, j);
    }
  }

  lemma ArgumentRefused(s: Schema, d: Json, i: nat)
    requires s.MethodSchema? && HasParams(d) && i < |d.fields["params"].items| && |d.fields["params"].items| >= |s.params|
    ensures !ItemAccepted(s.params, s.additional, d.fields["params"].items, i) ==> !Accepts(s, d)
  {
    var args := d.fields["params"].items;
    if i < |s.params| {
      assert Accepts(s, d) ==> Accepts(s.params[i], args[i]);
    } else if s.additional.Some? {
      assert Accepts(s, d) ==> Accepts(s.additional.value, args[i]);
    }
  }

  lemma ArgumentsInSurplus(s: Schema, args: seq<Json>)
    requires s.MethodSchema? && |args| > |s.params| && s.additional.None?
    requires forall j | 0 <= j < |s.params| :: ItemAccepted(s.params, s.additional, args, j)
    ensures AtFault(Arguments(s, args))
  {
    forall j | 0 <= j < |s.params| ensures Accepts(s.params[j], args[j]) { assert ItemAccepted(s.params, s.additional, args, j); }
  }

  lemma MissingReported(err: ErrorPos, base: seq<string>, s: Schema, d: Json, prop: string)
    requires s.ObjectSchema? && prop in s.properties && prop in s.required && d.Obj? && prop !in d.fields
    requires err.paths[..] == base + [PropStep(prop)]
    ensures Reports(err, base, s, d, Missing(d, prop)) && !Accepts(s, d)
  {
    assert err.paths[..][|base|..] == [PropStep(prop)] && PropStep(prop)[1..] == prop;
  }

  /** An error keeps pointing where it pointed while the validator that made it goes on. */
  method ErrorSurvives(validator: SchemaValidator, schema1: Schema, data1: Json, schema2: Schema, data2: Json)
      returns (err1: Option<ErrorPos>, ghost t: Target)
    requires validator.Valid()
    modifies validator, validator.buf
    ensures validator.Kept() && (err1.None? <==> Accepts(schema1, data1))
    ensures err1.Some? ==> Reports(err1.value, old(validator.Paths()), schema1, data1, t)
  {
    err1, t := validator.Validate(schema1, data1);
    var _, _ := validator.Validate(schema2, data2);
  }
}
