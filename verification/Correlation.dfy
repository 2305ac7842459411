/**
 Whose answer a caller gets.
 */
module Correlation {
  import opened Basics
  import opened JsonValues
  import opened Messages
  import opened StreamingProtocol
  import opened StreamingTheorems

  // ----- What is meant for a call, and how it changes ---------------------------------------

  /** `d` is in the channel of `c` or was taken from it. */
  predicate Has(s: State, c: CallId, d: Delivery) {
    c in s.calls && (d in s.calls[c].buffer || s.calls[c].received == Some(d))
  }

  ghost predicate TimerCarries(s: State, c: CallId, d: Delivery) {
    exists x :: x in s.calls && s.calls[x].timer == Delivering(c, d)
  }

  /** `d` is in the channel of `c`, was taken from it, or is on its way there. */
  ghost predicate Gets(s: State, c: CallId, d: Delivery) {
    Has(s, c, d) || s.receiver == Some(Carried(c, d)) || TimerCarries(s, c, d)
  }

  /** What a step takes out of the table: the entry's channel and the message for it. */
  function Issued(s: State, step: Step): Option<Carried>
    requires Enabled(s, step)
  {
    match step
    case Take => Next(s, Take).receiver
    case Expire(c) =>
      var timer := Next(s, step).calls[c].timer;
      if timer.Delivering? then Some(Carried(timer.target, timer.timeout)) else None
    case _ => None
  }

  lemma HasStays(s: State, step: Step, c: CallId, d: Delivery)
    requires Inv(s) && Enabled(s, step) && Has(s, c, d)
    ensures Has(Next(s, step), c, d)
  {
    assert CallOk(s.calls, c);
  }

  lemma PushedIsHad(calls: Calls, c: CallId, d: Delivery)
    requires c in calls
    ensures d in Pushed(calls, c, d)[c].buffer
  {
    assert Pushed(calls, c, d)[c].buffer[|calls[c].buffer|] == d;
  }

  lemma GetsStays(s: State, step: Step, c: CallId, d: Delivery)
    requires Inv(s) && Enabled(s, step) && Gets(s, c, d)
    ensures Gets(Next(s, step), c, d)
  {
    var t := Next(s, step);
    if Has(s, c, d) {
      HasStays(s, step, c, d);
    } else if s.receiver == Some(Carried(c, d)) {
      if step.Deliver? { PushedIsHad(s.calls, c, d); }
    } else {
      var x :| x in s.calls && s.calls[x].timer == Delivering(c, d);
      if step == DeliverTimeout(x) {
        PushedIsHad(s.calls[x := s.calls[x].(timer := Done)], c, d);
      } else {
        CarryingTimerStays(s, step, x);
      }
    }
  }

  lemma IssuedIsGot(s: State, step: Step, c: CallId, d: Delivery)
    requires Enabled(s, step) && Issued(s, step) == Some(Carried(c, d))
    ensures Gets(Next(s, step), c, d)
  {
    if step.Expire? { assert step.c in Next(s, step).calls; }
  }

  lemma HadOrCarried(s: State, step: Step, c: CallId, d: Delivery)
    requires Enabled(s, step) && Has(Next(s, step), c, d)
    ensures Has(s, c, d) || s.receiver == Some(Carried(c, d)) || TimerCarries(s, c, d)
  {
    match step
    case Deliver =>
    case DeliverTimeout(x) => assert x in s.calls && s.calls[x].timer == Delivering(s.calls[x].timer.target, s.calls[x].timer.timeout);
    case Receive(_) =>
    case _ =>
  }

  lemma CarriedBefore(s: State, step: Step, c: CallId, d: Delivery)
    requires Enabled(s, step) && TimerCarries(Next(s, step), c, d)
    ensures TimerCarries(s, c, d) || Issued(s, step) == Some(Carried(c, d))
  {
    var t := Next(s, step);
    var x :| x in t.calls && t.calls[x].timer == Delivering(c, d);
    if x in s.calls && s.calls[x].timer == t.calls[x].timer { assert TimerCarries(s, c, d); }
  }

  lemma NothingElseIsGot(s: State, step: Step, c: CallId, d: Delivery)
    requires Enabled(s, step) && Gets(Next(s, step), c, d)
    ensures Gets(s, c, d) || Issued(s, step) == Some(Carried(c, d))
  {
    if Has(Next(s, step), c, d) {
      HadOrCarried(s, step, c, d);
    } else if TimerCarries(Next(s, step), c, d) {
      CarriedBefore(s, step, c, d);
    }
  }

  // ----- Exactly when a call gets what is not its own ---------------------------------------

  /** The server's answer to some other request or to none, or the timeout of another call's timer. */
  predicate Foreign(c: CallId, d: Delivery) {
    match d.source
    case FromServer(_, origin) => origin != Some(c)
    case FromTimer(owner) => owner != c
  }

  /** A LoadAndDelete that finds the entry of `c`, though it looks for another: the receive loop
      with what was not the answer to `c`, or the timer of another call. */
  predicate Misroutes(s: State, step: Step, c: CallId)
    requires Enabled(s, step)
  {
    match step
    case Take =>
      var (msg, origin) := s.incoming[0];
      && IsReply(msg) && msg.replyTo.value in s.pending
      && s.pending[msg.replyTo.value].channel == c && origin != Some(c)
    case Expire(x) =>
      s.calls[x].wire.id in s.pending && s.pending[s.calls[x].wire.id].channel == c && x != c
    case _ => false
  }

  predicate RunMisroutes(s: State, steps: seq<Step>, c: CallId)
    requires Run(s, steps)
    decreases |steps|
  {
    steps != [] && (Misroutes(s, steps[0], c) || RunMisroutes(Next(s, steps[0]), steps[1..], c))
  }

  ghost predicate GetsForeign(s: State, c: CallId) { exists d :: Gets(s, c, d) && Foreign(c, d) }

  lemma StepMisroutes(s: State, step: Step, c: CallId)
    requires Inv(s) && Enabled(s, step)
    ensures GetsForeign(Next(s, step), c) <==> GetsForeign(s, c) || Misroutes(s, step, c)
  {
    var t := Next(s, step);
    if d :| Gets(s, c, d) && Foreign(c, d) {
      GetsStays(s, step, c, d);
    } else if Misroutes(s, step, c) {
      var d := Issued(s, step).value.result;
      IssuedIsGot(s, step, c, d);
      assert Foreign(c, d);
    } else if d :| Gets(t, c, d) && Foreign(c, d) {
      NothingElseIsGot(s, step, c, d);
    }
  }

  /** In every run: a call gets something foreign exactly when it had it before or some step
      misroutes to it. */
  lemma {:induction false} ForeignIffMisrouted(s: State, steps: seq<Step>, c: CallId)
    requires Inv(s) && Run(s, steps)
    ensures GetsForeign(After(s, steps), c) <==> GetsForeign(s, c) || RunMisroutes(s, steps, c)
    decreases |steps|
  {
    if steps != [] {
      InvNext(s, steps[0]);
      StepMisroutes(s, steps[0], c);
      ForeignIffMisrouted(Next(s, steps[0]), steps[1..], c);
    }
  }

  /** The packet of which a step makes a delivery, if any. */
  function RoutedBy(s: State, step: Step): multiset<Packet>
    requires Enabled(s, step)
  {
    var issued := Issued(s, step);
    if issued.Some? && issued.value.result.source.FromServer?
    then multiset{(issued.value.result.source.sent, issued.value.result.source.origin)} else multiset{}
  }

  function Routed(s: State, steps: seq<Step>): multiset<Packet>
    requires Run(s, steps)
    decreases |steps|
  {
    if steps == [] then multiset{} else RoutedBy(s, steps[0]) + Routed(Next(s, steps[0]), steps[1..])
  }

  lemma StepUsesPackets(s: State, step: Step)
    requires Enabled(s, step)
    ensures var t := Next(s, step);
            multiset(s.incoming) + multiset(s.handled) + multiset(Arrived([step]))
            == multiset(t.incoming) + multiset(t.handled) + RoutedBy(s, step)
  {
    match step
    case Take => TakeUsesPacket(s);
    case Arrive(msg, origin) => assert Arrived([step]) == [(msg, origin)];
    case _ =>
      OtherStepNotices(s, step);
      OtherStepRoutes(s, step);
  }

  lemma TakeUsesPacket(s: State)
    requires Enabled(s, Take)
    ensures var t := Next(s, Take);
            multiset(s.incoming) + multiset(s.handled) == multiset(t.incoming) + multiset(t.handled) + RoutedBy(s, Take)
  {
    var p, t := s.incoming[0], Next(s, Take);
    assert p == (p.0, p.1);
    assert s.incoming == [p] + s.incoming[1..];
    assert multiset(s.incoming) == multiset{p} + multiset(t.incoming);
    if t.receiver.Some? {
      assert RoutedBy(s, Take) == multiset{p} && t.handled == s.handled;
    } else {
      assert RoutedBy(s, Take) == multiset{} && t.handled == s.handled + [p];
    }
  }

  lemma OtherStepRoutes(s: State, step: Step)
    requires Enabled(s, step) && !step.Take?
    ensures RoutedBy(s, step) == multiset{}
  {
    if step.Expire? {
      var timer := Next(s, step).calls[step.c].timer;
      assert timer.Delivering? ==> timer.timeout.source == FromTimer(step.c);
    }
  }

  lemma SumsChain<T>(before: multiset<T>, first: multiset<T>, rest: multiset<T>, between: multiset<T>, used1: multiset<T>,
                     after: multiset<T>, used2: multiset<T>)
    requires before + first == between + used1 && between + rest == after + used2
    ensures before + (first + rest) == after + (used1 + used2)
  {
    assert before + (first + rest) == (before + first) + rest;
    assert after + (used1 + used2) == (after + used2) + used1;
  }

  lemma ArrivedParts(steps: seq<Step>)
    requires steps != []
    ensures multiset(Arrived(steps)) == multiset(Arrived([steps[0]])) + multiset(Arrived(steps[1..]))
  {
    var first, rest := Arrived([steps[0]]), Arrived(steps[1..]);
    assert [steps[0]][1..] == [];
    assert first == if steps[0].Arrive? then [(steps[0].msg, steps[0].origin)] else [];
    assert Arrived(steps) == first + rest;
  }

  /** Every packet the server sends is used exactly once: it waits, went to the message handler, or
      became a caller's delivery. */
  lemma {:induction false} EveryPacketIsUsedOnce(s: State, steps: seq<Step>)
    requires Run(s, steps)
    ensures var t := After(s, steps);
            multiset(s.incoming) + multiset(s.handled) + multiset(Arrived(steps))
            == multiset(t.incoming) + multiset(t.handled) + Routed(s, steps)
    decreases |steps|
  {
    if steps != [] {
      var first, rest := Arrived([steps[0]]), Arrived(steps[1..]);
      ArrivedParts(steps);
      var t1, t := Next(s, steps[0]), After(s, steps);
      StepUsesPackets(s, steps[0]);
      EveryPacketIsUsedOnce(t1, steps[1..]);
      SumsChain(multiset(s.incoming) + multiset(s.handled), multiset(first), multiset(rest),
                multiset(t1.incoming) + multiset(t1.handled), RoutedBy(s, steps[0]),
                multiset(t.incoming) + multiset(t.handled), Routed(t1, steps[1..]));
    }
  }

  // ----- Honest servers ---------------------------------------------------------------------

  /** Which messages the server may give as the answer to a request as it went out. */
  type Answers = (RequestMessage, Message) -> bool

  /** When the server answers a call, the request was written, and the answer has the id it was
      written with. Whatever else it sends, requests, notifications or replies to nobody's
      call, it may send at any time. */
  ghost predicate Honest(calls: Calls, written: seq<Packet>, msg: Message, origin: Option<CallId>, answers: Answers) {
    IsReply(msg) && origin.Some? ==>
      && origin.value in calls && (calls[origin.value].wire, origin) in written
      && msg.replyTo == Some(calls[origin.value].wire.id) && answers(calls[origin.value].wire, msg)
  }

  ghost predicate HonestRun(s: State, steps: seq<Step>, answers: Answers)
    requires Run(s, steps)
    decreases |steps|
  {
    steps == [] ||
    (&& (steps[0].Arrive? ==> Honest(s.calls, s.written, steps[0].msg, steps[0].origin, answers))
     && HonestRun(Next(s, steps[0]), steps[1..], answers))
  }

  ghost predicate HonestDelivery(s: State, d: Delivery, answers: Answers) {
    d.source.FromServer? ==> Honest(s.calls, s.written, d.source.sent, d.source.origin, answers)
  }

  ghost predicate AllHonest(s: State, answers: Answers) {
    && (forall p | p in s.incoming :: Honest(s.calls, s.written, p.0, p.1, answers))
    && (forall c, d | Gets(s, c, d) :: HonestDelivery(s, d, answers))
  }

  lemma HonestStable(s: State, step: Step, msg: Message, origin: Option<CallId>, answers: Answers)
    requires Enabled(s, step) && Honest(s.calls, s.written, msg, origin, answers)
    ensures Honest(Next(s, step).calls, Next(s, step).written, msg, origin, answers)
  {
  }

  lemma StepKeepsHonest(s: State, step: Step, answers: Answers)
    requires Inv(s) && AllHonest(s, answers) && Enabled(s, step)
    requires step.Arrive? ==> Honest(s.calls, s.written, step.msg, step.origin, answers)
    ensures AllHonest(Next(s, step), answers)
  {
    var t := Next(s, step);
    forall p | p in t.incoming ensures Honest(t.calls, t.written, p.0, p.1, answers) {
      HonestStable(s, step, p.0, p.1, answers);
    }
    forall c, d | Gets(t, c, d) ensures HonestDelivery(t, d, answers) {
      NothingElseIsGot(s, step, c, d);
      if d.source.FromServer? { HonestStable(s, step, d.source.sent, d.source.origin, answers); }
    }
  }

  lemma {:induction false} HonestRunIsHonest(s: State, steps: seq<Step>, answers: Answers)
    requires Inv(s) && AllHonest(s, answers) && Run(s, steps) && HonestRun(s, steps, answers)
    ensures AllHonest(After(s, steps), answers)
    decreases |steps|
  {
    if steps != [] {
      InvNext(s, steps[0]);
      StepKeepsHonest(s, steps[0], answers);
      HonestRunIsHonest(Next(s, steps[0]), steps[1..], answers);
    }
  }

  // ----- Answers are own --------------------------------------------------------------------

  /** What a call gets is its own: the server's answer to its own request as it was written, renamed
      at most, and unchanged but for the caller's id put back, or the timeout of its own timer. */
  ghost predicate OwnAnswer(s: State, c: CallId, d: Delivery, answers: Answers) {
    && c in s.calls
    && var call := s.calls[c];
    && (call.wire == call.req || call.wire == Clone(call.req, call.wire.id))
    && match d.source
       case FromServer(sent, origin) =>
         && origin == Some(c) && (call.wire, Some(c)) in s.written
         && IsReply(sent) && sent.replyTo == Some(call.wire.id) && answers(call.wire, sent)
         && d.msg == ReplaceId(sent, call.req.id)
       case FromTimer(owner) => owner == c && d.msg == ToMessage(ErrTimeout, call.req)
  }

  ghost predicate GetsOwn(s: State, c: CallId, answers: Answers) {
    forall d | Gets(s, c, d) :: OwnAnswer(s, c, d, answers)
  }

  lemma GotFits(s: State, c: CallId, d: Delivery)
    requires Inv(s) && Gets(s, c, d)
    ensures Fits(s.calls, c, d) && CallOk(s.calls, c)
  {
    if x :| x in s.calls && s.calls[x].timer == Delivering(c, d) { assert TimerOk(s.calls, s.pending, s.receiver, x); }
    assert CallOk(s.calls, c);
  }

  lemma OwnIffNotForeign(s: State, c: CallId, d: Delivery, answers: Answers)
    requires Inv(s) && AllHonest(s, answers) && Gets(s, c, d)
    ensures OwnAnswer(s, c, d, answers) <==> !Foreign(c, d)
  {
    GotFits(s, c, d);
    assert HonestDelivery(s, d, answers);
  }

  /** In every run with an honest server, ids reused or not: what a call gets is its own exactly when
      no step misroutes to it. */
  lemma AnswersAreOwn(steps: seq<Step>, answers: Answers, c: CallId)
    requires Run(Initial, steps) && HonestRun(Initial, steps, answers)
    ensures GetsOwn(After(Initial, steps), c, answers) <==> !RunMisroutes(Initial, steps, c)
  {
    var s := After(Initial, steps);
    InvInitial();
    RunKeepsInv(Initial, steps);
    HonestRunIsHonest(Initial, steps, answers);
    ForeignIffMisrouted(Initial, steps, c);
    forall d | Gets(s, c, d) ensures OwnAnswer(s, c, d, answers) <==> !Foreign(c, d) {
      OwnIffNotForeign(s, c, d, answers);
    }
  }

  // ----- When a wire id may be used again ----------------------------------------------------

  predicate StillComes(s: State, rest: seq<Step>, x: CallId) {
    || (exists p | p in s.incoming :: p.1 == Some(x))
    || (exists step | step in rest :: step.Arrive? && step.origin == Some(x))
  }

  /** Stored, and its timer has not fired or an answer to it still comes. */
  predicate Unsettled(s: State, rest: seq<Step>, x: CallId) {
    && x in s.calls && s.calls[x].phase != Loaded
    && (s.calls[x].timer.Unarmed? || s.calls[x].timer.Armed? || StillComes(s, rest, x))
  }

  /** A Store under a wire id that an unsettled call went out with. */
  predicate Reuses(s: State, step: Step, rest: seq<Step>)
    requires Enabled(s, step)
  {
    step.Store? && exists x | x in s.calls :: x != step.c && s.calls[x].wire.id == s.calls[step.c].wire.id && Unsettled(s, rest, x)
  }

  predicate RunReuses(s: State, steps: seq<Step>)
    requires Run(s, steps)
    decreases |steps|
  {
    steps != [] && (Reuses(s, steps[0], steps[1..]) || RunReuses(Next(s, steps[0]), steps[1..]))
  }

  /** Whoever went out with the wire id of an entry that is another's is settled. */
  ghost predicate OthersSettled(s: State, rest: seq<Step>) {
    forall k, x | k in s.pending && x in s.calls ::
      x != s.pending[k].channel && s.calls[x].wire.id == k ==> !Unsettled(s, rest, x)
  }

  /** The server replies to nothing but calls of this client. */
  predicate Solicited(packets: seq<Packet>) { forall p | p in packets && IsReply(p.0) :: p.1.Some? }

  predicate SolicitedRun(steps: seq<Step>) {
    forall step | step in steps && step.Arrive? && IsReply(step.msg) :: step.origin.Some?
  }

  lemma CameBefore(s: State, steps: seq<Step>, x: CallId)
    requires Run(s, steps) && steps != [] && StillComes(Next(s, steps[0]), steps[1..], x)
    ensures StillComes(s, steps, x)
  {
    if p :| p in Next(s, steps[0]).incoming && p.1 == Some(x) {
      if p !in s.incoming { assert steps[0].Arrive? && steps[0] in steps; }
    } else {
      var step :| step in steps[1..] && step.Arrive? && step.origin == Some(x);
      assert step in steps;
    }
  }

  lemma UnsettledBefore(s: State, steps: seq<Step>, x: CallId)
    requires Inv(s) && Run(s, steps) && steps != [] && x in s.calls && s.calls[x].phase != Loaded
    requires Unsettled(Next(s, steps[0]), steps[1..], x)
    ensures Unsettled(s, steps, x)
  {
    assert CallOk(s.calls, x);
    if StillComes(Next(s, steps[0]), steps[1..], x) { CameBefore(s, steps, x); }
  }

  lemma StoredBefore(s: State, step: Step, k: Id, x: CallId)
    requires Enabled(s, step) && x in Next(s, step).calls && Next(s, step).calls[x].phase != Loaded
    requires k in Next(s, step).pending && Next(s, step).pending[k].channel != x && Next(s, step).calls[x].wire.id == k
    ensures x in s.calls && s.calls[x].phase != Loaded && s.calls[x].wire == Next(s, step).calls[x].wire
    ensures || (step.Store? && step.c != x && s.calls[step.c].wire.id == k)
            || (k in s.pending && s.pending[k] == Next(s, step).pending[k])
  {
  }

  lemma OthersStaySettled(s: State, steps: seq<Step>)
    requires Inv(s) && Run(s, steps) && steps != [] && OthersSettled(s, steps) && !Reuses(s, steps[0], steps[1..])
    ensures OthersSettled(Next(s, steps[0]), steps[1..])
  {
    var t := Next(s, steps[0]);
    forall k, x | k in t.pending && x in t.calls && x != t.pending[k].channel && t.calls[x].wire.id == k
      ensures !Unsettled(t, steps[1..], x)
    {
      if Unsettled(t, steps[1..], x) {
        StoredBefore(s, steps[0], k, x);
        UnsettledBefore(s, steps, x);
      }
    }
  }

  lemma SettledTakeRoutes(s: State, rest: seq<Step>, answers: Answers, c: CallId)
    requires AllHonest(s, answers) && Solicited(s.incoming) && PacketsOk(s) && OthersSettled(s, rest)
    requires Enabled(s, Take)
    ensures !Misroutes(s, Take, c)
  {
    var p := s.incoming[0];
    assert p in s.incoming && Honest(s.calls, s.written, p.0, p.1, answers);
    if IsReply(p.0) {
      var x := p.1.value;
      assert (s.calls[x].wire, Some(x)) in s.written;
      assert StillComes(s, rest, x);
      assert Unsettled(s, rest, x);
    }
  }

  lemma SettledTimerRoutes(s: State, rest: seq<Step>, x: CallId, c: CallId)
    requires Inv(s) && OthersSettled(s, rest) && Enabled(s, Expire(x))
    ensures !Misroutes(s, Expire(x), c)
  {
    assert CallOk(s.calls, x);
    assert Unsettled(s, rest, x);
  }

  lemma SettledStepRoutes(s: State, steps: seq<Step>, answers: Answers, c: CallId)
    requires Inv(s) && AllHonest(s, answers) && Solicited(s.incoming) && PacketsOk(s) && OthersSettled(s, steps)
    requires steps != [] && Enabled(s, steps[0])
    ensures !Misroutes(s, steps[0], c)
  {
    match steps[0]
    case Take => SettledTakeRoutes(s, steps, answers, c);
    case Expire(x) => SettledTimerRoutes(s, steps, x, c);
    case _ =>
  }

  lemma StaysSolicited(s: State, steps: seq<Step>)
    requires steps != [] && Enabled(s, steps[0]) && Solicited(s.incoming) && SolicitedRun(steps)
    ensures Solicited(Next(s, steps[0]).incoming) && SolicitedRun(steps[1..])
  {
    assert steps[0] in steps;
  }

  /** No step misroutes while the server replies to calls only and no wire id is used again before the
      call that had it is settled: its timer has fired and its answers have come. */
  lemma {:induction false} SettledIdsNeverMisroute(s: State, steps: seq<Step>, answers: Answers, c: CallId)
    requires Inv(s) && AllHonest(s, answers) && Solicited(s.incoming) && PacketsOk(s) && OthersSettled(s, steps)
    requires Run(s, steps) && HonestRun(s, steps, answers) && SolicitedRun(steps) && !RunReuses(s, steps)
    ensures !RunMisroutes(s, steps, c)
    decreases |steps|
  {
    if steps != [] {
      SettledStepRoutes(s, steps, answers, c);
      InvNext(s, steps[0]);
      StepKeepsHonest(s, steps[0], answers);
      StepKeepsPackets(s, steps[0]);
      OthersStaySettled(s, steps);
      StaysSolicited(s, steps);
      SettledIdsNeverMisroute(Next(s, steps[0]), steps[1..], answers, c);
    }
  }

  /** So with ids used again only when settled, every caller gets its own. */
  lemma SettledIdsGetOwn(steps: seq<Step>, answers: Answers, c: CallId)
    requires Run(Initial, steps) && HonestRun(Initial, steps, answers) && SolicitedRun(steps)
    requires !RunReuses(Initial, steps)
    ensures GetsOwn(After(Initial, steps), c, answers)
  {
    InvInitial();
    SettledIdsNeverMisroute(Initial, steps, answers, c);
    AnswersAreOwn(steps, answers, c);
  }

  ghost predicate DistinctWireIds(s: State) {
    forall c1, c2 | c1 in s.calls && c2 in s.calls && s.calls[c1].wire.id == s.calls[c2].wire.id :: c1 == c2
  }

  /** Ids never used twice are a special case. */
  lemma {:induction false} DistinctIdsAreNotReused(s: State, steps: seq<Step>)
    requires Run(s, steps) && DistinctWireIds(After(s, steps))
    ensures DistinctWireIds(s) && !RunReuses(s, steps)
    decreases |steps|
  {
    if steps != [] {
      DistinctIdsAreNotReused(Next(s, steps[0]), steps[1..]);
      RequestsStay(s, steps[0]);
    }
  }

  // ----- What goes wrong when a wire id is reused -------------------------------------------

  /** The state once a first call has armed its timer. */
  function FirstCall(req: RequestMessage, uuid: Id): (s: State)
    ensures s == Initial.(calls := map[0 := Call(req, req, Waiting, Armed, [], None)],
                          pending := map[req.id := PendingRequest(req, 0)], sendQueue := [(req, Some(0))])
  {
    Next(Next(Next(Next(Initial, Load(0, req, uuid)), Store(0)), Enqueue(0)), Arm(0))
  }

  /** The state once the server's answer to it has been taken off the wire. */
  function FirstAnswered(req: RequestMessage, uuid: Id, reply: Message): (s: State)
    requires reply.IsResultOrError() && reply.replyTo == Some(req.id)
    ensures s == State(FirstCall(req, uuid).calls, map[], [], [(req, Some(0))], [],
                       Some(Carried(0, Delivery(reply, FromServer(reply, Some(0))))), [])
  {
    var s := Next(Next(FirstCall(req, uuid), Write), Arrive(reply, Some(0)));
    assert s.pending - {req.id} == map[];
    Next(s, Take)
  }

  /** The state once a second call with the same id has been stored and the first timer fires. */
  function SecondTimedOut(req: RequestMessage, uuid: Id, reply: Message): (s: State)
    requires reply.IsResultOrError() && reply.replyTo == Some(req.id)
    ensures 1 in s.calls && s.calls[1].req == s.calls[1].wire == req && s.calls[1].phase == Stored
    ensures s.calls[1].buffer == [Delivery(ToMessage(ErrTimeout, req), FromTimer(0))]
  {
    var s := Next(Next(FirstAnswered(req, uuid, reply), Load(1, req, uuid)), Store(1));
    Next(Next(s, Expire(0)), DeliverTimeout(0))
  }

  lemma FirstCallRun(req: RequestMessage, uuid: Id, rest: seq<Step>) returns (steps: seq<Step>)
    requires Run(FirstCall(req, uuid), rest)
    ensures Run(Initial, steps) && After(Initial, steps) == After(FirstCall(req, uuid), rest)
  {
    var s1 := Next(Initial, Load(0, req, uuid));
    var s2 := Next(s1, Store(0));
    var s3 := Next(s2, Enqueue(0));
    RunCons(s3, Arm(0), rest);
    RunCons(s2, Enqueue(0), [Arm(0)] + rest);
    RunCons(s1, Store(0), [Enqueue(0)] + ([Arm(0)] + rest));
    RunCons(Initial, Load(0, req, uuid), [Store(0)] + ([Enqueue(0)] + ([Arm(0)] + rest)));
    steps := [Load(0, req, uuid)] + ([Store(0)] + ([Enqueue(0)] + ([Arm(0)] + rest)));
  }

  lemma FirstAnsweredRun(req: RequestMessage, uuid: Id, reply: Message, rest: seq<Step>) returns (steps: seq<Step>)
    requires reply.IsResultOrError() && reply.replyTo == Some(req.id) && Run(FirstAnswered(req, uuid, reply), rest)
    ensures Run(FirstCall(req, uuid), steps)
    ensures After(FirstCall(req, uuid), steps) == After(FirstAnswered(req, uuid, reply), rest)
  {
    var s4 := FirstCall(req, uuid);
    var s5 := Next(s4, Write);
    var s6 := Next(s5, Arrive(reply, Some(0)));
    RunCons(s6, Take, rest);
    RunCons(s5, Arrive(reply, Some(0)), [Take] + rest);
    RunCons(s4, Write, [Arrive(reply, Some(0))] + ([Take] + rest));
    steps := [Write] + ([Arrive(reply, Some(0))] + ([Take] + rest));
  }

  lemma SecondTimedOutRun(req: RequestMessage, uuid: Id, reply: Message) returns (steps: seq<Step>)
    requires reply.IsResultOrError() && reply.replyTo == Some(req.id)
    ensures Run(FirstAnswered(req, uuid, reply), steps)
    ensures After(FirstAnswered(req, uuid, reply), steps) == SecondTimedOut(req, uuid, reply)
  {
    var s7 := FirstAnswered(req, uuid, reply);
    var s8 := Next(s7, Load(1, req, uuid));
    var s9 := Next(s8, Store(1));
    var s10 := Next(s9, Expire(0));
    RunCons(s10, DeliverTimeout(0), []);
    RunCons(s9, Expire(0), [DeliverTimeout(0)] + []);
    RunCons(s8, Store(1), [Expire(0)] + ([DeliverTimeout(0)] + []));
    RunCons(s7, Load(1, req, uuid), [Store(1)] + ([Expire(0)] + ([DeliverTimeout(0)] + [])));
    steps := [Load(1, req, uuid)] + ([Store(1)] + ([Expire(0)] + ([DeliverTimeout(0)] + [])));
  }

  /** Timers are not cancelled, so reusing a wire id loses correlation even when Load and Store are
      one step: the timer of an answered call times out the next call with the same id. */
  lemma StaleTimerAnswersNextCall(req: RequestMessage, uuid: Id, reply: Message) returns (steps: seq<Step>)
    requires reply.IsResultOrError() && reply.replyTo == Some(req.id)
    ensures Run(Initial, steps)
    ensures var s := After(Initial, steps);
            && 1 in s.calls && s.calls[1].phase == Stored
            && s.calls[1].buffer == [Delivery(ToMessage(ErrTimeout, req), FromTimer(0))]
            && forall answers :: !OwnAnswer(s, 1, s.calls[1].buffer[0], answers)
  {
    steps := SecondTimedOutRun(req, uuid, reply);
    steps := FirstAnsweredRun(req, uuid, reply, steps);
    steps := FirstCallRun(req, uuid, steps);
  }
}
