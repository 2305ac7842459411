/**
 The whole way of a call: renamed or not, encoded, decoded by the server, dispatched through the
 actor tree, and its answer encoded, decoded and matched by the client.
 */
module EndToEnd {
  import opened Basics
  import opened JsonValues
  import opened Messages
  import opened Schemas
  import opened ActorTrees
  import opened StreamingProtocol
  import opened StreamingTheorems
  import opened Correlation

  /** A message of the handler's own making is not the answer to `msg` unless it says so. */
  predicate Answering(outcome: Outcome, msg: RequestMessage) {
    outcome.Reply? ==> outcome.msg.IsResultOrError() && outcome.msg.replyTo == Some(msg.id)
  }

  /** `answer` is what the client decodes when a server with tree `t` feeds the decoded wire form of
      `wire` and sends back the message Feed returned. */
  ghost predicate Serves(t: ActorTree, env: Environment, wire: RequestMessage, answer: Message) {
    exists msg, r, called ::
      && Decode(Encode(wire)) == Some(msg)
      && FeedSpec(t, msg, env, r, called)
      && (|called| == 1 && msg.Request? ==> Answering(env(called[0], msg), msg))
      && r.Returned? && r.msg.Some? && Decode(Encode(r.msg.value)) == Some(answer)
  }

  ghost function ServedAnswers(t: ActorTree, env: Environment): Answers {
    (wire: RequestMessage, answer: Message) => Serves(t, env, wire, answer)
  }

  /** The one answer under `id` that the server owes to a request: a refusal if the schema of the first
      registration of its method does not accept it, method-not-found if nobody takes it, else what the
      handler made, an error that is no RPC error being internal. */
  predicate Settles(t: ActorTree, env: Environment, wire: RequestMessage, id: Id, answer: Message) {
    var regs := Registered(t, wire.method_);
    if regs != [] && Refused(regs[0], wire) then
      answer.Error? && answer == Error(Some(id), RpcError(InvalidSchemaCode, answer.error.message, Null), wire.traceId)
    else if regs == [] && t.missingHandler.None? then
      answer == Error(Some(id), ErrMethodNotFound, wire.traceId)
    else
      match env(if regs != [] then regs[0].handler.callback else t.missingHandler.value, wire)
      case Value(v) => answer == Result(Some(id), v, wire.traceId)
      case Fails(Rpc(e)) => answer == Error(Some(id), e, wire.traceId)
      case PanicsWith(Rpc(e)) => answer == Error(Some(id), e, wire.traceId)
      case Fails(e) => !e.WrappedResponse? && answer == Error(Some(id), ErrInternalError, wire.traceId)
      case PanicsWith(e) => !e.WrappedResponse? && answer == Error(Some(id), ErrInternalError, wire.traceId)
      case Reply(own) => Answering(Reply(own), wire) && answer == ReplaceId(own, id)
      case PanicsOther => false
  }

  /** A server made of this library echoes ids, and sends what it owes. */
  lemma ServerEchoes(t: ActorTree, env: Environment, wire: RequestMessage, answer: Message)
    requires Faithful(wire) && Serves(t, env, wire, answer)
    ensures answer.IsResultOrError() && answer.replyTo == Some(wire.id)
    ensures Settles(t, env, wire, wire.id, answer)
  {
    DecodeEncode(wire);
    var msg, r, called :|
      && Decode(Encode(wire)) == Some(msg)
      && FeedSpec(t, msg, env, r, called)
      && (|called| == 1 && msg.Request? ==> Answering(env(called[0], msg), msg))
      && r.Returned? && r.msg.Some? && Decode(Encode(r.msg.value)) == Some(answer);
    RequestsAreAnswered(t, msg, env, r, called);
    DecodeEncode(r.msg.value);
  }

  /** A request stays faithful when it is renamed. */
  lemma RenamedStaysFaithful(req: RequestMessage, id: Id)
    requires Faithful(req)
    ensures Faithful(Clone(req, id))
  {
  }

  /** What arrives as the answer to a call was served to its request, after that was written. Anything
      else may arrive at any time: pushes, replies to nobody's call, a handler's own message
      under another id. */
  ghost predicate ServedStep(s: State, step: Step, t: ActorTree, env: Environment) {
    step.Arrive? && IsReply(step.msg) && step.origin.Some? ==>
      && step.origin.value in s.calls && (s.calls[step.origin.value].wire, step.origin) in s.written
      && Serves(t, env, s.calls[step.origin.value].wire, step.msg)
  }

  ghost predicate ServedRun(s: State, steps: seq<Step>, t: ActorTree, env: Environment)
    requires Run(s, steps)
    decreases |steps|
  {
    steps == [] ||
    (ServedStep(s, steps[0], t, env) && ServedRun(Next(s, steps[0]), steps[1..], t, env))
  }

  ghost predicate FaithfulCalls(s: State) {
    forall c | c in s.calls :: Faithful(s.calls[c].req)
  }

  lemma ServedIsHonest(s: State, step: Step, t: ActorTree, env: Environment)
    requires Inv(s) && step.Arrive? && ServedStep(s, step, t, env) && FaithfulCalls(s)
    ensures Honest(s.calls, s.written, step.msg, step.origin, ServedAnswers(t, env))
  {
    if IsReply(step.msg) && step.origin.Some? {
      var c := step.origin.value;
      assert CallOk(s.calls, c);
      RenamedStaysFaithful(s.calls[c].req, s.calls[c].wire.id);
      ServerEchoes(t, env, s.calls[c].wire, step.msg);
    }
  }

  lemma {:induction false} ServedRunIsHonest(s: State, steps: seq<Step>, t: ActorTree, env: Environment)
    requires Inv(s) && Run(s, steps) && ServedRun(s, steps, t, env) && FaithfulCalls(After(s, steps))
    ensures HonestRun(s, steps, ServedAnswers(t, env)) && FaithfulCalls(s)
    decreases |steps|
  {
    if steps != [] {
      var s2 := Next(s, steps[0]);
      InvNext(s, steps[0]);
      ServedRunIsHonest(s2, steps[1..], t, env);
      RequestsStay(s, steps[0]);
      if steps[0].Arrive? { ServedIsHonest(s, steps[0], t, env); }
    }
  }

  /** What the caller gets is the one answer the server owes to its own request as it was written,
      under the id the caller gave it, or the timeout of its own timer. */
  ghost predicate Answered(s: State, t: ActorTree, env: Environment, c: CallId, d: Delivery) {
    && c in s.calls
    && var call := s.calls[c];
    && (call.wire == call.req || call.wire == Clone(call.req, call.wire.id))
    && match d.source
       case FromServer(_, origin) => origin == Some(c) && Settles(t, env, call.wire, call.req.id, d.msg)
       case FromTimer(owner) => owner == c && d.msg == Error(Some(call.req.id), ErrTimeout, call.req.traceId)
  }

  ghost predicate GetsAnswered(s: State, t: ActorTree, env: Environment, c: CallId) {
    forall d | Gets(s, c, d) :: Answered(s, t, env, c, d)
  }

  lemma OwnIsAnswered(s: State, t: ActorTree, env: Environment, c: CallId, d: Delivery)
    requires FaithfulCalls(s) && OwnAnswer(s, c, d, ServedAnswers(t, env))
    ensures Answered(s, t, env, c, d)
  {
    var call := s.calls[c];
    RenamedStaysFaithful(call.req, call.wire.id);
    if d.source.FromServer? { ServerEchoes(t, env, call.wire, d.source.sent); }
  }

  /** In every run of client and server, ids reused or not: a caller gets what it is owed, and nothing
      else, exactly when no step misroutes to it. */
  lemma CallerGetsHandlersAnswer(steps: seq<Step>, t: ActorTree, env: Environment, c: CallId)
    requires Run(Initial, steps) && ServedRun(Initial, steps, t, env) && FaithfulCalls(After(Initial, steps))
    ensures GetsAnswered(After(Initial, steps), t, env, c) <==> !RunMisroutes(Initial, steps, c)
  {
    var s := After(Initial, steps);
    InvInitial();
    ServedRunIsHonest(Initial, steps, t, env);
    AnswersAreOwn(steps, ServedAnswers(t, env), c);
    if !RunMisroutes(Initial, steps, c) {
      forall d | Gets(s, c, d) ensures Answered(s, t, env, c, d) { OwnIsAnswered(s, t, env, c, d); }
    } else {
      ForeignIffMisrouted(Initial, steps, c);
      var d :| Gets(s, c, d) && Foreign(c, d);
      assert !Answered(s, t, env, c, d);
    }
  }
}
