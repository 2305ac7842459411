/**
 The actor tree as a value, and what the server promises of dispatch: which handler a method
 reaches, what comes back, and when a handler is not called at all.
 */
module ActorTrees {
  import opened Basics
  import opened JsonValues
  import opened Messages
  import opened Schemas

  /** A callback is named by a number; what it does is left to an arbitrary function. */
  type Callback = nat

  datatype MethodHandler = MethodHandler(callback: Callback, schema: Option<Schema>)

  datatype ActorTree = ActorTree(
    validateSchema: bool,
    recoverFromPanic: bool,
    methodHandlers: map<string, MethodHandler>,
    missingHandler: Option<Callback>,
    closeHandler: Option<Callback>,
    children: seq<ActorTree>)

  /** What errors.As finds in an error: an RPC error, a wrapped HTTP response, a failed
      validation, or neither. */
  datatype GoError = Rpc(e: RpcError) | WrappedResponse | InvalidMessage(text: string) | OtherError

  datatype Outcome =
    | Value(v: Json)
    | Reply(msg: Message)
    | Fails(err: GoError)
    | PanicsWith(err: GoError)
    | PanicsOther

  type Environment = (Callback, Message) -> Outcome

  datatype FeedResult = Returned(msg: Option<Message>, err: Option<GoError>) | Panicked

  // ----- Registration, in preorder ----------------------------------------------------------

  /** A handler with the flags of the actor that owns it. */
  datatype Registration = Registration(handler: MethodHandler, validate: bool, recover: bool)

  /** Every registration of a method in the tree: an actor before its children, children in order. */
  function Registered(t: ActorTree, name: string): seq<Registration>
    decreases t
  {
    OwnRegistration(t, name) + RegisteredIn(t.children, name)
  }

  function OwnRegistration(t: ActorTree, name: string): seq<Registration> {
    if name in t.methodHandlers then [Registration(t.methodHandlers[name], t.validateSchema, t.recoverFromPanic)] else []
  }

  function RegisteredIn(ts: seq<ActorTree>, name: string): seq<Registration>
    decreases ts
  {
    if ts == [] then [] else Registered(ts[0], name) + RegisteredIn(ts[1..], name)
  }

  lemma {:induction false} RegisteredInParts(a: seq<ActorTree>, b: seq<ActorTree>, name: string)
    ensures RegisteredIn(a + b, name) == RegisteredIn(a, name) + RegisteredIn(b, name)
  {
    if a == [] {
      assert a + b == b;
    } else {
      assert (a + b)[1..] == a[1..] + b;
      RegisteredInParts(a[1..], b, name);
    }
  }

  lemma RegisteredInUpTo(ts: seq<ActorTree>, i: nat, name: string)
    requires i < |ts|
    ensures RegisteredIn(ts[..i + 1], name) == RegisteredIn(ts[..i], name) + Registered(ts[i], name)
    ensures RegisteredIn(ts, name) == RegisteredIn(ts[..i], name) + Registered(ts[i], name) + RegisteredIn(ts[i + 1..], name)
  {
    assert ts[..i + 1] == ts[..i] + [ts[i]];
    RegisteredInParts(ts[..i], [ts[i]], name);
    assert RegisteredIn([ts[i]], name) == Registered(ts[i], name) + RegisteredIn([], name);
    assert ts == ts[..i + 1] + ts[i + 1..];
    RegisteredInParts(ts[..i + 1], ts[i + 1..], name);
  }

  lemma NoneUpTo(ts: seq<ActorTree>, i: nat, name: string)
    requires i < |ts| && RegisteredIn(ts[..i], name) == [] && Registered(ts[i], name) == []
    ensures RegisteredIn(ts[..i + 1], name) == []
  {
    RegisteredInUpTo(ts, i, name);
  }

  lemma NoneAtAll(t: ActorTree, name: string)
    requires name !in t.methodHandlers && RegisteredIn(t.children[..|t.children|], name) == []
    ensures Registered(t, name) == []
  {
    assert t.children[..|t.children|] == t.children;
  }

  lemma SomeInChild(t: ActorTree, i: nat, name: string)
    requires i < |t.children| && Registered(t.children[i], name) != []
    ensures Registered(t, name) != []
  {
    RegisteredInUpTo(t.children, i, name);
  }

  /** `methods` lists every name in `own` once and every registration below `ts` once. */
  ghost predicate Lists(methods: seq<string>, own: set<string>, ts: seq<ActorTree>) {
    forall name :: multiset(methods)[name] == (if name in own then 1 else 0) + |RegisteredIn(ts, name)|
  }

  lemma ListsMore(methods: seq<string>, more: seq<string>, own: set<string>, ts: seq<ActorTree>, i: nat)
    requires i < |ts| && Lists(methods, own, ts[..i])
    requires forall name :: multiset(more)[name] == |Registered(ts[i], name)|
    ensures Lists(methods + more, own, ts[..i + 1])
  {
    forall name
      ensures multiset(methods + more)[name] == (if name in own then 1 else 0) + |RegisteredIn(ts[..i + 1], name)|
    {
      RegisteredInUpTo(ts, i, name);
    }
  }

  lemma ListsAll(methods: seq<string>, t: ActorTree)
    requires Lists(methods, t.methodHandlers.Keys, t.children)
    ensures forall name :: multiset(methods)[name] == |Registered(t, name)|
  {
  }

  function FirstSchema(regs: seq<Registration>): Option<Schema> {
    if regs == [] then None
    else if regs[0].handler.schema.Some? then regs[0].handler.schema
    else FirstSchema(regs[1..])
  }

  lemma {:induction false} FirstSchemaParts(a: seq<Registration>, b: seq<Registration>)
    ensures FirstSchema(a + b) == if FirstSchema(a).Some? then FirstSchema(a) else FirstSchema(b)
  {
    if a == [] {
      assert a + b == b;
    } else {
      assert (a + b)[1..] == a[1..] + b;
      FirstSchemaParts(a[1..], b);
    }
  }

  predicate NoSchema(ts: seq<ActorTree>, name: string) {
    forall t | t in ts :: FirstSchema(Registered(t, name)).None?
  }

  /** The first tree with a schema for the name decides. */
  lemma {:induction false} FirstSchemaIn(ts: seq<ActorTree>, i: nat, name: string)
    requires i <= |ts| && NoSchema(ts[..i], name)
    requires i < |ts| ==> FirstSchema(Registered(ts[i], name)).Some?
    ensures FirstSchema(RegisteredIn(ts, name)) == if i < |ts| then FirstSchema(Registered(ts[i], name)) else None
  {
    if ts != [] {
      FirstSchemaParts(Registered(ts[0], name), RegisteredIn(ts[1..], name));
      if i > 0 { FirstSchemaIn(ts[1..], i - 1, name); }
    }
  }

  lemma OwnSchemaFirst(t: ActorTree, name: string)
    ensures FirstSchema(Registered(t, name)) ==
            if name in t.methodHandlers && t.methodHandlers[name].schema.Some? then t.methodHandlers[name].schema
            else FirstSchema(RegisteredIn(t.children, name))
  {
    FirstSchemaParts(OwnRegistration(t, name), RegisteredIn(t.children, name));
  }

  // ----- Replies ----------------------------------------------------------------------------

  /** wrapResult: only requests are answered. */
  function WrapResult(outcome: Outcome, msg: Message): FeedResult
    requires !outcome.PanicsWith? && !outcome.PanicsOther?
  {
    if !msg.Request? then Returned(None, if outcome.Fails? then Some(outcome.err) else None)
    else match outcome
      case Fails(Rpc(e)) => Returned(Some(ToMessage(e, msg)), None)
      case Fails(WrappedResponse) => Returned(None, Some(WrappedResponse))
      case Fails(_) => Returned(Some(ToMessage(ErrInternalError, msg)), None)
      case Reply(reply) => Returned(Some(reply), None)
      case Value(v) => Returned(Some(NewResultMessage(msg, v)), None)
  }

  /** A call under the recover wrapper: a panic with an error becomes that error, unless the
      actor does not recover; any other panic goes on. */
  function RecoverCall(outcome: Outcome, recover: bool, msg: Message): FeedResult {
    match outcome
    case PanicsWith(e) => if recover then WrapResult(Fails(e), msg) else Panicked
    case PanicsOther => Panicked
    case _ => WrapResult(outcome, msg)
  }

  predicate Refused(reg: Registration, msg: Message) {
    reg.handler.schema.Some? && reg.validate && !Accepts(reg.handler.schema.value, Encode(msg))
  }

  /** A refused request is answered under its own id; a refused notification is an error. */
  predicate RefusalOf(msg: Message, r: FeedResult) {
    && r.Returned?
    && if msg.Request? then
         && r.err.None? && r.msg.Some? && r.msg.value.Error?
         && r.msg.value == ToMessage(RpcError(InvalidSchemaCode, r.msg.value.error.message, Null), msg)
       else
         r.msg.None? && r.err.Some? && r.err.value.InvalidMessage?
  }

  predicate ServedBy(reg: Registration, msg: Message, env: Environment, r: FeedResult, called: seq<Callback>) {
    if Refused(reg, msg) then called == [] && RefusalOf(msg, r)
    else called == [reg.handler.callback] && r == RecoverCall(env(reg.handler.callback, msg), reg.recover, msg)
  }

  /** What Feed must do with a message: run the handler registered first, or refuse for it;
      failing any registration the actor's own missing handler, or method-not-found. */
  predicate FeedSpec(t: ActorTree, msg: Message, env: Environment, r: FeedResult, called: seq<Callback>) {
    if !msg.IsRequestOrNotify() then
      if t.missingHandler.Some? then
        called == [t.missingHandler.value] && r == RecoverCall(env(t.missingHandler.value, msg), false, msg)
      else called == [] && r == Returned(None, None)
    else
      var regs := Registered(t, msg.method_);
      if regs != [] then ServedBy(regs[0], msg, env, r, called)
      else if t.missingHandler.Some? then
        called == [t.missingHandler.value] && r == RecoverCall(env(t.missingHandler.value, msg), t.recoverFromPanic, msg)
      else
        called == [] && r == Returned(if msg.Request? then Some(ToMessage(ErrMethodNotFound, msg)) else None, None)
  }

  lemma FeedSpecOfOwn(t: ActorTree, msg: Message, env: Environment, r: FeedResult, called: seq<Callback>)
    requires msg.IsRequestOrNotify() && msg.method_ in t.methodHandlers
    requires ServedBy(OwnRegistration(t, msg.method_)[0], msg, env, r, called)
    ensures FeedSpec(t, msg, env, r, called)
  {
    assert Registered(t, msg.method_)[0] == OwnRegistration(t, msg.method_)[0];
  }

  /** Handing the message to the first child that has the method is right for the parent. */
  lemma FeedSpecOfChild(t: ActorTree, i: nat, msg: Message, env: Environment, r: FeedResult, called: seq<Callback>)
    requires msg.IsRequestOrNotify() && msg.method_ !in t.methodHandlers
    requires i < |t.children| && RegisteredIn(t.children[..i], msg.method_) == []
    requires Registered(t.children[i], msg.method_) != [] && FeedSpec(t.children[i], msg, env, r, called)
    ensures FeedSpec(t, msg, env, r, called)
  {
    RegisteredInUpTo(t.children, i, msg.method_);
    assert Registered(t, msg.method_)[0] == Registered(t.children[i], msg.method_)[0];
  }

  // ----- What follows for callers -----------------------------------------------------------

  /** A notification never gets a message, nor does a stray reply. */
  lemma OnlyRequestsAreAnswered(t: ActorTree, msg: Message, env: Environment, r: FeedResult, called: seq<Callback>)
    requires FeedSpec(t, msg, env, r, called) && !msg.Request?
    ensures r.Returned? ==> r.msg.None?
  {
  }

  /** A request always gets something: a message, or the error that carries an HTTP response. A message is
      the handler's own or has the request's id and trace id. At any depth of the tree it carries
      what the handler that ran produced: the value as the result, an RPC error as the error whether
      returned or recovered, and any other error as an internal error. */
  lemma RequestsAreAnswered(t: ActorTree, msg: Message, env: Environment, r: FeedResult, called: seq<Callback>)
    requires FeedSpec(t, msg, env, r, called) && msg.Request? && r.Returned?
    ensures r.msg.None? <==> r.err == Some(WrappedResponse)
    ensures r.msg.None? ==> |called| == 1 && env(called[0], msg) in {Fails(WrappedResponse), PanicsWith(WrappedResponse)}
    ensures r.msg.Some? ==>
              || (|called| == 1 && env(called[0], msg) == Reply(r.msg.value))
              || (r.msg.value.IsResultOrError() && r.msg.value.replyTo == Some(msg.id) && r.msg.value.traceId == msg.traceId)
    ensures called != [] ==>
              var internal := RpcError(-32603, "internal error", Null);
              match env(called[0], msg)
              case Value(v) => r == Returned(Some(Result(Some(msg.id), v, msg.traceId)), None)
              case Reply(reply) => r == Returned(Some(reply), None)
              case Fails(Rpc(e)) => r == Returned(Some(Error(Some(msg.id), e, msg.traceId)), None)
              case PanicsWith(Rpc(e)) => r == Returned(Some(Error(Some(msg.id), e, msg.traceId)), None)
              case Fails(WrappedResponse) => r == Returned(None, Some(WrappedResponse))
              case PanicsWith(WrappedResponse) => r == Returned(None, Some(WrappedResponse))
              case Fails(_) => r == Returned(Some(Error(Some(msg.id), internal, msg.traceId)), None)
              case PanicsWith(_) => r == Returned(Some(Error(Some(msg.id), internal, msg.traceId)), None)
              case PanicsOther => false
  {
  }

  /** A method registered anywhere in the tree never reaches a missing handler or a method-not-found
      reply: the first handler in preorder runs, unless its actor validates and its schema does not
      accept the message on the wire, and then error -32633 is all that comes of it. Feed panics
      exactly when that handler panics with something other than an error, or with an error under
      an owner that does not recover. */
  lemma RegisteredMethodIsServed(t: ActorTree, msg: Message, env: Environment, r: FeedResult, called: seq<Callback>)
    requires FeedSpec(t, msg, env, r, called)
    requires msg.IsRequestOrNotify() && Registered(t, msg.method_) != []
    ensures var reg := Registered(t, msg.method_)[0];
            var refused := reg.validate && reg.handler.schema.Some? && !Accepts(reg.handler.schema.value, Encode(msg));
            && called == (if refused then [] else [reg.handler.callback])
            && (refused && msg.Request? ==>
                  && r.Returned? && r.err.None? && r.msg.Some? && r.msg.value.Error?
                  && r.msg.value.replyTo == Some(msg.id) && r.msg.value.traceId == msg.traceId
                  && r.msg.value.error.code == -32633 && r.msg.value.error.data == Null)
            && (refused && msg.Notify? ==> r.Returned? && r.msg.None? && r.err.Some? && r.err.value.InvalidMessage?)
    ensures r.Panicked? <==>
              && called != []
              && var o := env(called[0], msg);
                 o.PanicsOther? || (o.PanicsWith? && !Registered(t, msg.method_)[0].recover)
  {
  }

  /** What no actor of the tree has registered goes to the missing handler of the actor fed, under that
      actor's recovery for requests and notifications and under none for stray replies; without one
      a request gets error -32601 and anything else nothing. */
  lemma UnknownMethodIsHandled(t: ActorTree, msg: Message, env: Environment, r: FeedResult, called: seq<Callback>)
    requires FeedSpec(t, msg, env, r, called)
    requires msg.IsRequestOrNotify() ==> Registered(t, msg.method_) == []
    ensures called == if t.missingHandler.Some? then [t.missingHandler.value] else []
    ensures called == [] ==>
              var unknown := RpcError(-32601, "method not found", Null);
              r == Returned(if msg.Request? then Some(Error(Some(msg.id), unknown, msg.traceId)) else None, None)
    ensures called != [] ==>
              (r.Panicked? <==> var o := env(called[0], msg);
                                o.PanicsOther? || (o.PanicsWith? && !(msg.IsRequestOrNotify() && t.recoverFromPanic)))
  {
  }

  /** The error of a handler is what Feed returns for a notification, whose message and value are dropped. */
  lemma NotificationsReportErrors(t: ActorTree, msg: Message, env: Environment, r: FeedResult, called: seq<Callback>)
    requires FeedSpec(t, msg, env, r, called) && !msg.Request? && called != [] && r.Returned?
    ensures r == Returned(None, match env(called[0], msg)
                                case Fails(e) => Some(e)
                                case PanicsWith(e) => Some(e)
                                case _ => None)
  {
  }

  // ----- The order of registrations ---------------------------------------------------------

  /** An actor alone has what is in its own table; a child added to a tree adds its registrations after
      all that were there. */
  lemma RegistrationsGrow(t: ActorTree, child: ActorTree, name: string)
    ensures t.children == [] ==>
              Registered(t, name) == if name in t.methodHandlers
                                     then [Registration(t.methodHandlers[name], t.validateSchema, t.recoverFromPanic)] else []
    ensures Registered(t.(children := t.children + [child]), name) == Registered(t, name) + Registered(child, name)
  {
    var grown := t.(children := t.children + [child]);
    RegisteredInParts(t.children, [child], name);
    assert RegisteredIn([child], name) == Registered(child, name) + RegisteredIn([], name);
    assert Registered(grown, name) == OwnRegistration(t, name) + RegisteredIn(grown.children, name);
  }

  /** GetSchema finds the first schema, not the schema of the first handler: it tells the truth about
      the handler that Feed runs exactly when that handler has a schema or no other one has. */
  lemma GetSchemaIsOwn(t: ActorTree, name: string)
    ensures var regs := Registered(t, name);
            FirstSchema(regs) == (if regs == [] then None else regs[0].handler.schema) <==>
              regs == [] || regs[0].handler.schema.Some? || forall i | 0 <= i < |regs| :: regs[i].handler.schema.None?
    ensures |Registered(t, name)| == 1 ==> FirstSchema(Registered(t, name)) == Registered(t, name)[0].handler.schema
  {
    FirstSchemaNone(Registered(t, name));
  }

  lemma {:induction false} FirstSchemaNone(regs: seq<Registration>)
    ensures FirstSchema(regs).None? <==> forall i | 0 <= i < |regs| :: regs[i].handler.schema.None?
  {
    if regs != [] {
      FirstSchemaNone(regs[1..]);
      assert forall i | 1 <= i < |regs| :: regs[i] == regs[1..][i - 1];
      if forall i | 0 <= i < |regs| :: regs[i].handler.schema.None? {
        assert forall i | 0 <= i < |regs[1..]| :: regs[1..][i].handler.schema.None?;
      }
    }
  }

  /** A handler shadowed by another lends its schema: a root without a schema over a child with one. */
  lemma ShadowedSchemaIsReported(root: ActorTree, child: ActorTree, name: string)
    requires root.children == [child]
    requires name in root.methodHandlers && root.methodHandlers[name].schema.None?
    requires name in child.methodHandlers && child.methodHandlers[name].schema.Some?
    ensures Registered(root, name)[0].handler == root.methodHandlers[name]
    ensures FirstSchema(Registered(root, name)) == child.methodHandlers[name].schema
  {
    var regs := Registered(root, name);
    assert RegisteredIn([child], name) == Registered(child, name) + RegisteredIn([], name);
    assert regs[0].handler == root.methodHandlers[name] && regs[1].handler == child.methodHandlers[name];
    assert FirstSchema(regs) == FirstSchema(regs[1..]);
  }

  /** Behind a method schema, a handler only ever sees list parameters, each accepted by its own
      schema and the surplus by the schema for additional parameters. */
  lemma ServedParamsAreAccepted(t: ActorTree, msg: Message, env: Environment, r: FeedResult, called: seq<Callback>)
    requires FeedSpec(t, msg, env, r, called)
    requires msg.IsRequestOrNotify() && Registered(t, msg.method_) != [] && called != []
    requires var reg := Registered(t, msg.method_)[0];
             reg.validate && reg.handler.schema.Some? && reg.handler.schema.value.MethodSchema?
    ensures var s := Registered(t, msg.method_)[0].handler.schema.value;
            var sent := EncodeParams(msg.params, msg.paramsAreList);
            && sent.List? && |sent.items| >= |s.params|
            && (forall i | 0 <= i < |s.params| :: Accepts(s.params[i], sent.items[i]))
            && (|sent.items| > |s.params| ==> s.additional.Some?)
            && forall i | |s.params| <= i < |sent.items| :: Accepts(s.additional.value, sent.items[i])
  {
    MessageFields(msg);
  }

  lemma MessageFields(msg: Message)
    requires msg.IsRequestOrNotify()
    ensures var f := Encode(msg).fields;
            "params" in f && f["params"] == EncodeParams(msg.params, msg.paramsAreList) && "result" !in f
  {
  }

  /** A request whose parameters are a single value other than a list is refused by every method
      schema, even `params: []` with any additional parameters. */
  lemma SingleValueIsRefused(reg: Registration, msg: Message)
    requires reg.validate && reg.handler.schema.Some? && reg.handler.schema.value.MethodSchema?
    requires msg.IsRequestOrNotify() && !msg.paramsAreList && |msg.params| > 0 && !msg.params[0].List?
    ensures Refused(reg, msg)
  {
    MessageFields(msg);
  }

  // ----- Closing ----------------------------------------------------------------------------

  /** Close handlers in the order they run: those of the children, then the actor's own. */
  function CloseOrder(t: ActorTree): seq<Callback>
    decreases t
  {
    CloseOrderIn(t.children) + if t.closeHandler.Some? then [t.closeHandler.value] else []
  }

  function CloseOrderIn(ts: seq<ActorTree>): seq<Callback>
    decreases ts
  {
    if ts == [] then [] else CloseOrder(ts[0]) + CloseOrderIn(ts[1..])
  }

  lemma {:induction false} CloseOrderInParts(a: seq<ActorTree>, b: seq<ActorTree>)
    ensures CloseOrderIn(a + b) == CloseOrderIn(a) + CloseOrderIn(b)
  {
    if a == [] {
      assert a + b == b;
    } else {
      assert (a + b)[1..] == a[1..] + b;
      CloseOrderInParts(a[1..], b);
    }
  }

  lemma CloseOrderInUpTo(ts: seq<ActorTree>, i: nat)
    requires i < |ts|
    ensures CloseOrderIn(ts[..i + 1]) == CloseOrderIn(ts[..i]) + CloseOrder(ts[i])
  {
    assert ts[..i + 1] == ts[..i] + [ts[i]];
    CloseOrderInParts(ts[..i], [ts[i]]);
    assert CloseOrderIn([ts[i]]) == CloseOrder(ts[i]) + CloseOrderIn([]);
  }

  /** An actor alone closes with its own handler; a child added to a tree closes after the children that
      were there and before the actor itself. */
  lemma ClosingGrows(t: ActorTree, child: ActorTree)
    ensures t.children == [] ==> CloseOrder(t) == if t.closeHandler.Some? then [t.closeHandler.value] else []
    ensures CloseOrder(t.(children := t.children + [child])) ==
            CloseOrder(t.(closeHandler := None)) + CloseOrder(child) + (if t.closeHandler.Some? then [t.closeHandler.value] else [])
  {
    CloseOrderInParts(t.children, [child]);
    assert CloseOrderIn([child]) == CloseOrder(child) + CloseOrderIn([]);
    assert CloseOrder(t.(closeHandler := None)) == CloseOrderIn(t.children);
  }

  /** The actors of a tree, an actor before its children. */
  function Actors(t: ActorTree): seq<ActorTree>
    decreases t
  {
    [t] + ActorsIn(t.children)
  }

  function ActorsIn(ts: seq<ActorTree>): seq<ActorTree>
    decreases ts
  {
    if ts == [] then [] else Actors(ts[0]) + ActorsIn(ts[1..])
  }

  function ClosersOf(ts: seq<ActorTree>): multiset<Callback> {
    if ts == [] then multiset{}
    else (if ts[0].closeHandler.Some? then multiset{ts[0].closeHandler.value} else multiset{}) + ClosersOf(ts[1..])
  }

  lemma {:induction false} ClosersOfParts(a: seq<ActorTree>, b: seq<ActorTree>)
    ensures ClosersOf(a + b) == ClosersOf(a) + ClosersOf(b)
  {
    if a == [] {
      assert a + b == b;
    } else {
      assert (a + b)[1..] == a[1..] + b;
      ClosersOfParts(a[1..], b);
    }
  }

  /** Closing runs the close handler of every actor in the tree, each as often as it is registered. */
  lemma {:induction false} EveryActorIsClosed(t: ActorTree)
    ensures multiset(CloseOrder(t)) == ClosersOf(Actors(t))
    decreases t
  {
    EveryActorIsClosedIn(t.children);
    ClosersOfParts([t], ActorsIn(t.children));
    assert ClosersOf([t]) == (if t.closeHandler.Some? then multiset{t.closeHandler.value} else multiset{}) + ClosersOf([]);
  }

  lemma {:induction false} EveryActorIsClosedIn(ts: seq<ActorTree>)
    ensures multiset(CloseOrderIn(ts)) == ClosersOf(ActorsIn(ts))
    decreases ts
  {
    if ts != [] {
      EveryActorIsClosed(ts[0]);
      EveryActorIsClosedIn(ts[1..]);
      ClosersOfParts(Actors(ts[0]), ActorsIn(ts[1..]));
    }
  }
}
