/**
 The actor: an object with a table of handlers and a list of child actors, and the methods that
 register with it and dispatch through it.
 */
module ActorObjects {
  import opened Basics
  import opened JsonValues
  import opened Messages
  import opened Schemas
  import opened Validation
  import opened ActorTrees

  class Actor {
    var validateSchema: bool
    var recoverFromPanic: bool
    var methodHandlers: map<string, MethodHandler>
    var missingHandler: Option<Callback>
    var closeHandler: Option<Callback>
    var children: seq<Actor>
    ghost var Repr: set<Actor>

    /** The actors below this one form a finite tree. */
    ghost predicate Valid()
      reads this, Repr
      decreases Repr
    {
      && this in Repr
      && forall i | 0 <= i < |children| ::
           children[i] in Repr && children[i].Repr <= Repr && this !in children[i].Repr && children[i].Valid()
    }

    ghost function Tree(): (t: ActorTree)
      requires Valid()
      reads this, Repr
      ensures |t.children| == |children|
      decreases Repr, 1, 0
    {
      ActorTree(validateSchema, recoverFromPanic, methodHandlers, missingHandler, closeHandler, TreesUpTo(|children|))
    }

    ghost function TreesUpTo(n: nat): (ts: seq<ActorTree>)
      requires Valid() && n <= |children|
      reads this, Repr
      ensures |ts| == n && forall i | 0 <= i < n :: ts[i] == children[i].Tree()
      decreases Repr, 0, n
    {
      if n == 0 then [] else TreesUpTo(n - 1) + [children[n - 1].Tree()]
    }

    ghost function Below(): set<Actor>
      reads this, children
    {
      set i, x | 0 <= i < |children| && x in children[i].Repr :: x
    }

    constructor ()
      ensures Valid() && Repr == {this}
      ensures Tree() == ActorTree(true, true, map[], None, None, [])
    {
      validateSchema, recoverFromPanic := true, true;
      methodHandlers, missingHandler, closeHandler, children := map[], None, None, [];
      Repr := {this};
    }

    method AddChild(child: Actor)
      requires Valid() && child.Valid() && this !in child.Repr
      modifies this
      ensures Valid() && Repr == old(Repr) + child.Repr
      ensures Tree() == old(Tree()).(children := old(Tree()).children + [child.Tree()])
    {
      ghost var before := Tree();
      children := children + [child];
      Repr := Repr + child.Repr;
      assert forall i | 0 <= i < |old(children)| :: this !in children[i].Repr && children[i].Tree() == before.children[i];
      assert child.Valid();
      assert Valid();
      assert Tree().children == before.children + [child.Tree()];
    }

    /** After a child of this actor was given children of its own: what lies below this actor is
        gathered again, from the bottom of the tree upwards. */
    ghost method Refresh()
      requires forall i | 0 <= i < |children| :: children[i].Valid() && this !in children[i].Repr
      modifies this`Repr
      ensures Valid() && Repr == {this} + Below()
      ensures forall i | 0 <= i < |children| :: Tree().children[i] == old(children[i].Tree())
    {
      Repr := {this} + Below();
    }

    method OnRequest(name: string, handler: MethodHandler) returns (ok: bool)
      requires Valid()
      modifies this`methodHandlers
      ensures Valid() && ok == (name !in old(methodHandlers))
      ensures Tree() == if ok then old(Tree()).(methodHandlers := old(methodHandlers)[name := handler]) else old(Tree())
    {
      ghost var before := Tree();
      if name in methodHandlers { return false; }
      methodHandlers := methodHandlers[name := handler];
      assert Tree().children == before.children;
      return true;
    }

    method Off(name: string)
      requires Valid()
      modifies this`methodHandlers
      ensures Valid()
      ensures Tree() == old(Tree()).(methodHandlers := old(methodHandlers) - {name})
    {
      ghost var before := Tree();
      methodHandlers := methodHandlers - {name};
      assert Tree().children == before.children;
    }

    method OnMissing(handler: Callback) returns (ok: bool)
      requires Valid()
      modifies this`missingHandler
      ensures Valid() && ok == old(missingHandler).None?
      ensures Tree() == if ok then old(Tree()).(missingHandler := Some(handler)) else old(Tree())
    {
      ghost var before := Tree();
      if missingHandler.Some? { return false; }
      missingHandler := Some(handler);
      assert Tree().children == before.children;
      return true;
    }

    method OnClose(handler: Callback) returns (ok: bool)
      requires Valid()
      modifies this`closeHandler
      ensures Valid() && ok == old(closeHandler).None?
      ensures Tree() == if ok then old(Tree()).(closeHandler := Some(handler)) else old(Tree())
    {
      ghost var before := Tree();
      if closeHandler.Some? { return false; }
      closeHandler := Some(handler);
      assert Tree().children == before.children;
      return true;
    }

    method Has(name: string) returns (has: bool)
      requires Valid()
      ensures has <==> Registered(Tree(), name) != []
      decreases Repr
    {
      ghost var t := Tree();
      if name in methodHandlers { return true; }
      for i := 0 to |children|
        invariant RegisteredIn(t.children[..i], name) == []
      {
        assert children[i].Repr < Repr;
        var childHas := children[i].Has(name);
        if childHas {
          SomeInChild(t, i, name);
          return true;
        }
        NoneUpTo(t.children, i, name);
      }
      NoneAtAll(t, name);
      return false;
    }

    /** The names in the actor's own table, in the unspecified order of a map. */
    method OwnMethods() returns (methods: seq<string>)
      ensures forall name :: multiset(methods)[name] == if name in methodHandlers then 1 else 0
    {
      methods := [];
      var unvisited := methodHandlers.Keys;
      while unvisited != {}
        invariant unvisited <= methodHandlers.Keys
        invariant forall name :: multiset(methods)[name] == if name in methodHandlers && name !in unvisited then 1 else 0
        decreases unvisited
      {
        var mname :| mname in unvisited;
        unvisited, methods := unvisited - {mname}, methods + [mname];
      }
    }

    /** Every method name, as often as it is registered in the tree. */
    method MethodList() returns (methods: seq<string>)
      requires Valid()
      ensures forall name :: multiset(methods)[name] == |Registered(Tree(), name)|
      decreases Repr
    {
      ghost var t := Tree();
      methods := OwnMethods();
      for i := 0 to |children|
        invariant Lists(methods, t.methodHandlers.Keys, t.children[..i])
      {
        var childMethods := children[i].MethodList();
        ListsMore(methods, childMethods, t.methodHandlers.Keys, t.children, i);
        methods := methods + childMethods;
      }
      assert t.children[..|t.children|] == t.children;
      ListsAll(methods, t);
    }

    method GetSchema(name: string) returns (schema: Option<Schema>)
      requires Valid()
      ensures schema == FirstSchema(Registered(Tree(), name))
      decreases Repr
    {
      ghost var t := Tree();
      OwnSchemaFirst(t, name);
      if name in methodHandlers && methodHandlers[name].schema.Some? {
        return methodHandlers[name].schema;
      }
      schema := ChildSchema(name);
    }

    /** The loop of GetSchema over the children. */
    method ChildSchema(name: string) returns (schema: Option<Schema>)
      requires Valid()
      ensures schema == FirstSchema(RegisteredIn(Tree().children, name))
      decreases Repr, 0
    {
      ghost var ts := Tree().children;
      schema := None;
      ghost var n := 0;
      for i := 0 to |children|
        invariant n == i && Tree().children == ts
        invariant schema.None? && NoSchema(ts[..i], name)
      {
        assert children[i].Repr < Repr && children[i].Valid();
        assert ts[..i + 1] == ts[..i] + [ts[i]];
        schema := children[i].GetSchema(name);
        if schema.Some? { break; }
        n := n + 1;
      }
      assert Tree().children == ts;
      FirstSchemaIn(ts, n, name);
    }

    method Feed(msg: Message, env: Environment) returns (r: FeedResult, called: seq<Callback>)
      requires Valid()
      ensures FeedSpec(Tree(), msg, env, r, called)
      decreases Repr
    {
      if !msg.IsRequestOrNotify() {
        r, called := FeedReply(msg, env);
        return;
      }
      if msg.method_ in methodHandlers {
        r, called := FeedOwn(msg, env);
        return;
      }
      var child := ChildWith(msg.method_);
      if child < |children| {
        ghost var t := Tree();
        r, called := children[child].Feed(msg, env);
        FeedSpecOfChild(t, child, msg, env, r, called);
        return;
      }
      r, called := FeedUnknown(msg, env);
    }

    /** The loop of Feed: the first child that has the method, or the number of children. */
    method ChildWith(name: string) returns (child: nat)
      requires Valid() && name !in methodHandlers
      ensures child <= |children| && RegisteredIn(Tree().children[..child], name) == []
      ensures child < |children| ==> Registered(children[child].Tree(), name) != []
      ensures child == |children| ==> Registered(Tree(), name) == []
      decreases Repr, 0
    {
      ghost var t := Tree();
      for i := 0 to |children|
        invariant Tree() == t && RegisteredIn(t.children[..i], name) == []
      {
        assert children[i].Repr < Repr && children[i].Valid();
        var childHas := children[i].Has(name);
        if childHas { return i; }
        NoneUpTo(t.children, i, name);
      }
      NoneAtAll(t, name);
      return |children|;
    }

    /** The part of Feed for a message that is neither request nor notification; no panic is
        recovered from here. */
    method FeedReply(msg: Message, env: Environment) returns (r: FeedResult, called: seq<Callback>)
      requires Valid() && !msg.IsRequestOrNotify()
      ensures FeedSpec(Tree(), msg, env, r, called)
    {
      if missingHandler.Some? {
        r := RecoverCall(env(missingHandler.value, msg), false, msg);
        return r, [missingHandler.value];
      }
      return Returned(None, None), [];
    }

    /** The part of Feed for a method that no actor of the tree has. */
    method FeedUnknown(msg: Message, env: Environment) returns (r: FeedResult, called: seq<Callback>)
      requires Valid() && msg.IsRequestOrNotify() && Registered(Tree(), msg.method_) == []
      ensures FeedSpec(Tree(), msg, env, r, called)
    {
      if missingHandler.Some? {
        r := RecoverCall(env(missingHandler.value, msg), recoverFromPanic, msg);
        return r, [missingHandler.value];
      }
      if msg.Request? {
        return Returned(Some(ToMessage(ErrMethodNotFound, msg)), None), [];
      }
      return Returned(None, None), [];
    }

    /** The part of Feed for a method in the actor's own table. */
    method FeedOwn(msg: Message, env: Environment) returns (r: FeedResult, called: seq<Callback>)
      requires msg.IsRequestOrNotify() && msg.method_ in methodHandlers
      requires Valid()
      ensures FeedSpec(Tree(), msg, env, r, called)
    {
      r, called := CallOwn(msg, env);
      FeedSpecOfOwn(Tree(), msg, env, r, called);
    }

    method CallOwn(msg: Message, env: Environment) returns (r: FeedResult, called: seq<Callback>)
      requires msg.IsRequestOrNotify() && msg.method_ in methodHandlers
      ensures ServedBy(Registration(methodHandlers[msg.method_], validateSchema, recoverFromPanic), msg, env, r, called)
    {
      var handler := methodHandlers[msg.method_];
      if handler.schema.Some? && validateSchema {
        var validator := new SchemaValidator();
        var errPos, _ := validator.Validate(handler.schema.value, Encode(msg));
        if errPos.Some? {
          if msg.Request? {
            return Returned(Some(ToMessage(RpcError(InvalidSchemaCode, errPos.value.Error(), Null), msg)), None), [];
          }
          return Returned(None, Some(InvalidMessage(errPos.value.Error()))), [];
        }
      }
      r := RecoverCall(env(handler.callback, msg), recoverFromPanic, msg);
      called := [handler.callback];
    }

    method HandleClose() returns (called: seq<Callback>)
      requires Valid()
      ensures called == CloseOrder(Tree())
      decreases Repr
    {
      called := [];
      ghost var ts := Tree().children;
      for i := 0 to |children|
        invariant called == CloseOrderIn(ts[..i])
      {
        var childCalled := children[i].HandleClose();
        CloseOrderInUpTo(ts, i);
        called := called + childCalled;
      }
      assert ts[..|ts|] == ts;
      if closeHandler.Some? {
        called := called + [closeHandler.value];
      }
    }
  }
}
