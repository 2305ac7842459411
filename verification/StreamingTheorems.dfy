/**
 What the request table guarantees over whole runs of the streaming client.
 */
module StreamingTheorems {
  import opened Basics
  import opened JsonValues
  import opened Messages
  import opened StreamingProtocol

  lemma {:induction false} RunKeepsInv(s: State, steps: seq<Step>)
    requires Inv(s) && Run(s, steps)
    ensures Inv(After(s, steps))
    decreases |steps|
  {
    if steps != [] {
      InvNext(s, steps[0]);
      RunKeepsInv(Next(s, steps[0]), steps[1..]);
    }
  }

  lemma RunCons(s: State, step: Step, rest: seq<Step>)
    requires Enabled(s, step) && Run(Next(s, step), rest)
    ensures Run(s, [step] + rest) && After(s, [step] + rest) == After(Next(s, step), rest)
  {
    assert ([step] + rest)[1..] == rest;
  }

  // ----- At most one message, always with the caller's id -----------------------------------

  /** Does the step put a message on the result channel of `c`? */
  predicate PushesTo(s: State, step: Step, c: CallId)
    requires Enabled(s, step)
  {
    || (step.Deliver? && s.receiver.value.target == c)
    || (step.DeliverTimeout? && s.calls[step.c].timer.target == c)
  }

  function Pushes(s: State, steps: seq<Step>, c: CallId): nat
    requires Run(s, steps)
    decreases |steps|
  {
    if steps == [] then 0
    else (if PushesTo(s, steps[0], c) then 1 else 0) + Pushes(Next(s, steps[0]), steps[1..], c)
  }

  /** The messages a call has had on its channel: waiting there, or taken by the caller. */
  function Held(s: State, c: CallId): nat {
    if c in s.calls then |s.calls[c].buffer| + (if s.calls[c].received.Some? then 1 else 0) else 0
  }

  lemma {:induction false} MessagesAreConserved(s: State, steps: seq<Step>, c: CallId)
    requires Inv(s) && Run(s, steps)
    ensures Held(s, c) + Pushes(s, steps, c) == Held(After(s, steps), c)
    decreases |steps|
  {
    if steps != [] {
      var t := Next(s, steps[0]);
      InvNext(s, steps[0]);
      StepHolds(s, steps[0], c);
      MessagesAreConserved(t, steps[1..], c);
    }
  }

  lemma StepHolds(s: State, step: Step, c: CallId)
    requires Inv(s) && Enabled(s, step)
    ensures Held(Next(s, step), c) == Held(s, c) + if PushesTo(s, step, c) then 1 else 0
  {
    match step
    case DeliverTimeout(x) => TimeoutHolds(s, x, c);
    case Receive(x) => ReceiveHolds(s, x, c);
    case _ => OtherStepHolds(s, step, c);
  }

  lemma TimeoutHolds(s: State, x: CallId, c: CallId)
    requires Enabled(s, DeliverTimeout(x))
    ensures Held(Next(s, DeliverTimeout(x)), c) == Held(s, c) + if s.calls[x].timer.target == c then 1 else 0
  {
  }

  lemma ReceiveHolds(s: State, x: CallId, c: CallId)
    requires Inv(s) && Enabled(s, Receive(x))
    ensures Held(Next(s, Receive(x)), c) == Held(s, c)
  {
    assert CallOk(s.calls, x);
  }

  lemma OtherStepHolds(s: State, step: Step, c: CallId)
    requires Enabled(s, step) && !step.DeliverTimeout? && !step.Receive?
    ensures Held(Next(s, step), c) == Held(s, c) + if PushesTo(s, step, c) then 1 else 0
  {
  }

  /** In every run, with Load and Store as separate steps and any interleaving of replies and
      timers, a call's channel gets at most one message, so no send on it ever blocks, and that
      message has the caller's own id even if the request was renamed. */
  lemma AtMostOneMessage(steps: seq<Step>, c: CallId)
    requires Run(Initial, steps)
    ensures Pushes(Initial, steps, c) <= 1
    ensures var s := After(Initial, steps);
            && (s.receiver.Some? ==> Enabled(s, Deliver))
            && (c in s.calls && s.calls[c].timer.Delivering? ==> Enabled(s, DeliverTimeout(c)))
    ensures var s := After(Initial, steps);
            c in s.calls ==>
              && (forall d | d in s.calls[c].buffer :: d.msg.IsResultOrError() && d.msg.replyTo == Some(s.calls[c].req.id))
              && (s.calls[c].received.Some? ==>
                    var m := s.calls[c].received.value.msg; m.IsResultOrError() && m.replyTo == Some(s.calls[c].req.id))
  {
    InvInitial();
    RunKeepsInv(Initial, steps);
    MessagesAreConserved(Initial, steps, c);
    var s := After(Initial, steps);
    if c in s.calls { assert CallOk(s.calls, c) && TimerOk(s.calls, s.pending, s.receiver, c); }
  }

  // ----- The message handler gets what is no reply ------------------------------------------

  /** The packets that are no replies: requests, notifications, results and errors without an id. */
  function Notices(packets: seq<Packet>): seq<Packet> {
    if packets == [] then []
    else (if IsReply(packets[0].0) then [] else [packets[0]]) + Notices(packets[1..])
  }

  lemma {:induction false} NoticesParts(a: seq<Packet>, b: seq<Packet>)
    ensures Notices(a + b) == Notices(a) + Notices(b)
  {
    if a == [] {
      assert a + b == b;
    } else {
      assert (a + b)[1..] == a[1..] + b;
      NoticesParts(a[1..], b);
    }
  }

  function Arrived(steps: seq<Step>): seq<Packet> {
    if steps == [] then []
    else (if steps[0].Arrive? then [(steps[0].msg, steps[0].origin)] else []) + Arrived(steps[1..])
  }

  lemma StepNotices(s: State, step: Step)
    requires Enabled(s, step)
    ensures var t := Next(s, step);
            Notices(s.handled) + Notices(s.incoming) + Notices(Arrived([step])) == Notices(t.handled) + Notices(t.incoming)
  {
    match step
    case Arrive(msg, origin) => NoticesParts(s.incoming, [(msg, origin)]);
    case Take => NoticesParts(s.handled, [s.incoming[0]]);
    case _ => OtherStepNotices(s, step);
  }

  lemma OtherStepNotices(s: State, step: Step)
    requires Enabled(s, step) && !step.Arrive? && !step.Take?
    ensures var t := Next(s, step); t.handled == s.handled && t.incoming == s.incoming && Arrived([step]) == []
  {
  }

  /** In every run, what the server sends that is no reply reaches the message handler, all of it,
      once and in order, as far as the receive loop has come. */
  lemma {:induction false} HandlerGetsNotices(s: State, steps: seq<Step>)
    requires Run(s, steps)
    ensures var t := After(s, steps);
            Notices(s.handled) + Notices(s.incoming) + Notices(Arrived(steps)) == Notices(t.handled) + Notices(t.incoming)
    decreases |steps|
  {
    if steps != [] {
      StepNotices(s, steps[0]);
      HandlerGetsNotices(Next(s, steps[0]), steps[1..]);
      assert Arrived(steps) == Arrived([steps[0]]) + Arrived(steps[1..]);
      NoticesParts(Arrived([steps[0]]), Arrived(steps[1..]));
    }
  }

  // ----- What goes out ----------------------------------------------------------------------

  /** `call` is `c` as some Load of the run made it: the request as the caller gave it, under its own id
      on the wire unless that id was in the table just then, and under the fresh one otherwise. */
  predicate LoadedIn(s: State, steps: seq<Step>, c: CallId, call: Call)
    requires Run(s, steps)
    decreases |steps|
  {
    steps != [] &&
    (|| (&& steps[0].Load? && steps[0].c == c && call.req == steps[0].req
         && call.wire == if steps[0].req.id in s.pending then Clone(steps[0].req, steps[0].uuid) else steps[0].req)
     || LoadedIn(Next(s, steps[0]), steps[1..], c, call))
  }

  lemma RequestsStay(s: State, step: Step)
    requires Enabled(s, step)
    ensures SameRequests(s.calls, Next(s, step).calls)
  {
  }

  lemma {:induction false} CallIsKept(s: State, steps: seq<Step>, c: CallId)
    requires Run(s, steps) && c in s.calls
    ensures c in After(s, steps).calls && SameRequest(s.calls[c], After(s, steps).calls[c])
    decreases |steps|
  {
    if steps != [] {
      RequestsStay(s, steps[0]);
      CallIsKept(Next(s, steps[0]), steps[1..], c);
    }
  }

  /** What a call has on the wire was settled by its Load and is never changed. */
  lemma {:induction false} WireIsFromLoad(s: State, steps: seq<Step>, c: CallId)
    requires Run(s, steps) && c !in s.calls && c in After(s, steps).calls
    ensures LoadedIn(s, steps, c, After(s, steps).calls[c])
    decreases |steps|
  {
    var t := Next(s, steps[0]);
    if c in t.calls {
      assert steps[0].Load? && steps[0].c == c;
      CallIsKept(t, steps[1..], c);
    } else {
      WireIsFromLoad(t, steps[1..], c);
    }
  }

  /** Every packet of a call, queued or written, is that call's request as it goes on the wire, and the
      call was stored before. */
  ghost predicate PacketsOk(s: State) {
    forall p | (p in s.sendQueue || p in s.written) && p.1.Some? ::
      p.1.value in s.calls && p.0 == s.calls[p.1.value].wire && s.calls[p.1.value].phase != Loaded
  }

  lemma StepKeepsPackets(s: State, step: Step)
    requires Inv(s) && Enabled(s, step) && PacketsOk(s)
    ensures PacketsOk(Next(s, step))
  {
    if step.Write? { assert s.sendQueue[0] in s.sendQueue; }
  }

  lemma {:induction false} PacketsAreTheWire(s: State, steps: seq<Step>)
    requires Inv(s) && PacketsOk(s) && Run(s, steps)
    ensures PacketsOk(After(s, steps))
    decreases |steps|
  {
    if steps != [] {
      InvNext(s, steps[0]);
      StepKeepsPackets(s, steps[0]);
      PacketsAreTheWire(Next(s, steps[0]), steps[1..]);
    }
  }

  /** What a step hands to the send loop. */
  function Queued(s: State, step: Step): seq<Packet>
    requires Enabled(s, step)
  {
    match step
    case Enqueue(c) => [(s.calls[c].wire, Some(c))]
    case Send(msg) => [(msg, None)]
    case _ => []
  }

  function Outgoing(s: State, steps: seq<Step>): seq<Packet>
    requires Run(s, steps)
    decreases |steps|
  {
    if steps == [] then [] else Queued(s, steps[0]) + Outgoing(Next(s, steps[0]), steps[1..])
  }

  lemma StepWrites(s: State, step: Step)
    requires Enabled(s, step)
    ensures var t := Next(s, step);
            s.written <= t.written && s.written + s.sendQueue + Queued(s, step) == t.written + t.sendQueue
  {
    match step
    case Write => assert s.sendQueue == [s.sendQueue[0]] + s.sendQueue[1..];
    case Enqueue(_) =>
    case Send(_) =>
    case _ => OtherStepWrites(s, step);
  }

  lemma OtherStepWrites(s: State, step: Step)
    requires Enabled(s, step) && !step.Write? && !step.Enqueue? && !step.Send?
    ensures var t := Next(s, step); t.written == s.written && t.sendQueue == s.sendQueue && Queued(s, step) == []
  {
  }

  /** Everything handed to the send loop is written, once and in order, and nothing else is. */
  lemma {:induction false} WrittenInOrder(s: State, steps: seq<Step>)
    requires Run(s, steps)
    ensures var t := After(s, steps);
            s.written <= t.written && s.written + s.sendQueue + Outgoing(s, steps) == t.written + t.sendQueue
    decreases |steps|
  {
    if steps != [] {
      var first, rest := Queued(s, steps[0]), Outgoing(Next(s, steps[0]), steps[1..]);
      StepWrites(s, steps[0]);
      WrittenInOrder(Next(s, steps[0]), steps[1..]);
      assert s.written + s.sendQueue + (first + rest) == (s.written + s.sendQueue + first) + rest;
    }
  }

  // ----- What comes in ----------------------------------------------------------------------

  /** A reply that comes in time is what the caller gets, under its own id: the next packet is for a
      waiting call whose entry is in the table. */
  lemma TimelyReplyIsReceived(s: State, c: CallId)
    requires Inv(s) && At(s, c, Waiting) && InTable(s.calls, s.pending, c)
    requires Enabled(s, Take) && IsReply(s.incoming[0].0) && s.incoming[0].0.replyTo == Some(s.calls[c].wire.id)
    ensures var (msg, origin) := s.incoming[0];
            && Enabled(Next(s, Take), Deliver) && Enabled(Next(Next(s, Take), Deliver), Receive(c))
            && var t := Next(Next(Next(s, Take), Deliver), Receive(c));
            && At(t, c, Returned)
            && t.calls[c].received == Some(Delivery(ReplaceId(msg, s.calls[c].req.id), FromServer(msg, origin)))
            && !InTable(t.calls, t.pending, c) && t.handled == s.handled
  {
    assert EntryOk(s.calls, s.pending, s.calls[c].wire.id) && CallOk(s.calls, c);
    InvNext(s, Take);
    var t1 := Next(s, Take);
    assert t1.receiver.Some? && t1.receiver.value.target == c && Untouched(t1.calls[c]);
  }

  /** Otherwise the caller gets the timeout for its own request once its timer fires. */
  lemma TimeoutIsReceived(s: State, c: CallId)
    requires Inv(s) && At(s, c, Waiting) && InTable(s.calls, s.pending, c)
    ensures && Enabled(s, Expire(c)) && Enabled(Next(s, Expire(c)), DeliverTimeout(c))
            && Enabled(Next(Next(s, Expire(c)), DeliverTimeout(c)), Receive(c))
            && var t := Next(Next(Next(s, Expire(c)), DeliverTimeout(c)), Receive(c));
            && At(t, c, Returned) && !InTable(t.calls, t.pending, c)
            && t.calls[c].received == Some(Delivery(Error(Some(s.calls[c].req.id), RpcError(200, "request timeout", Null),
                                                          s.calls[c].req.traceId), FromTimer(c)))
  {
    assert EntryOk(s.calls, s.pending, s.calls[c].wire.id) && CallOk(s.calls, c);
  }

  // ----- No caller is stranded unless an entry is overwritten -------------------------------

  /** Stored or waiting, with no message, none on the way, and no longer in the table. */
  ghost predicate Stranded(s: State, c: CallId) {
    && c in s.calls && (s.calls[c].phase == Stored || s.calls[c].phase == Sent || s.calls[c].phase == Waiting)
    && Untouched(s.calls[c]) && !InTable(s.calls, s.pending, c) && !Carrying(s, c)
  }

  /** A Store that finds its key taken. */
  predicate Overwrites(s: State, step: Step)
    requires Enabled(s, step)
  {
    step.Store? && s.calls[step.c].wire.id in s.pending
  }

  predicate RunOverwrites(s: State, steps: seq<Step>)
    requires Run(s, steps)
    decreases |steps|
  {
    steps != [] && (Overwrites(s, steps[0]) || RunOverwrites(Next(s, steps[0]), steps[1..]))
  }

  lemma OverwriteStrands(s: State, step: Step)
    requires Inv(s) && Enabled(s, step) && Overwrites(s, step)
    ensures Stranded(Next(s, step), s.pending[s.calls[step.c].wire.id].channel)
  {
    var victim := s.pending[s.calls[step.c].wire.id].channel;
    var t := Next(s, step);
    assert EntryOk(s.calls, s.pending, s.calls[step.c].wire.id) && CallOk(s.calls, victim);
    if Carrying(t, victim) {
      assert Carrying(s, victim);
      NotCarriedInTable(s, victim);
    }
  }

  lemma NotCarriedInTable(s: State, c: CallId)
    requires Inv(s) && InTable(s.calls, s.pending, c)
    ensures !Carrying(s, c)
  {
    forall x | x in s.calls && s.calls[x].timer.Delivering? ensures s.calls[x].timer.target != c {
      assert TimerOk(s.calls, s.pending, s.receiver, x);
    }
  }

  lemma StrandedForever(s: State, step: Step, c: CallId)
    requires Inv(s) && Enabled(s, step) && Stranded(s, c)
    ensures Stranded(Next(s, step), c)
  {
    var t := Next(s, step);
    assert CallOk(s.calls, c);
    NoEntryStays(s, step, c);
    NoCarrierStays(s, step, c);
  }

  lemma NoEntryStays(s: State, step: Step, c: CallId)
    requires Inv(s) && Enabled(s, step) && c in s.calls && s.calls[c].phase != Loaded
    requires !InTable(s.calls, s.pending, c)
    ensures !InTable(Next(s, step).calls, Next(s, step).pending, c)
  {
  }

  lemma NoCarrierStays(s: State, step: Step, c: CallId)
    requires Inv(s) && Enabled(s, step) && c in s.calls
    requires !InTable(s.calls, s.pending, c) && !Carrying(s, c)
    ensures !Carrying(Next(s, step), c)
  {
    var t := Next(s, step);
    forall k | k in s.pending ensures s.pending[k].channel != c { assert EntryOk(s.calls, s.pending, k); }
    forall x | x in t.calls && t.calls[x].timer.Delivering? ensures t.calls[x].timer.target != c {
      if x in s.calls && s.calls[x].timer.Delivering? { assert s.calls[x].timer.target != c; }
    }
  }

  lemma CarriedStays(s: State, step: Step, c: CallId)
    requires Inv(s) && Enabled(s, step) && Carrying(s, c)
    ensures var t := Next(s, step); Carrying(t, c) || (c in t.calls && !Untouched(t.calls[c]))
  {
    if !(s.receiver.Some? && s.receiver.value.target == c) {
      var x :| x in s.calls && s.calls[x].timer.Delivering? && s.calls[x].timer.target == c;
      if step != DeliverTimeout(x) { CarryingTimerStays(s, step, x); }
    }
  }

  lemma CarryingTimerStays(s: State, step: Step, x: CallId)
    requires Inv(s) && Enabled(s, step) && x in s.calls && s.calls[x].timer.Delivering? && step != DeliverTimeout(x)
    ensures x in Next(s, step).calls && Next(s, step).calls[x].timer == s.calls[x].timer
  {
    assert CallOk(s.calls, x);
  }

  lemma TakenFromTable(s: State, step: Step, c: CallId)
    requires Inv(s) && Enabled(s, step) && (step.Take? || step.Expire?)
    requires InTable(s.calls, s.pending, c) && !InTable(Next(s, step).calls, Next(s, step).pending, c)
    ensures Carrying(Next(s, step), c)
  {
    var t := Next(s, step);
    if step.Expire? { assert step.c in t.calls && t.calls[step.c].timer.Delivering? && t.calls[step.c].timer.target == c; }
  }

  lemma OnlyOverwritingStrands(s: State, step: Step, c: CallId)
    requires Inv(s) && Enabled(s, step) && !Stranded(s, c) && Stranded(Next(s, step), c)
    ensures Overwrites(s, step)
  {
    var t := Next(s, step);
    if c in s.calls {
      assert CallOk(s.calls, c);
      if Carrying(s, c) { CarriedStays(s, step, c); }
      else if InTable(s.calls, s.pending, c) && (step.Take? || step.Expire?) { TakenFromTable(s, step, c); }
    }
  }

  ghost predicate SomeStranded(s: State) { exists c :: Stranded(s, c) }

  lemma StepStrands(s: State, step: Step)
    requires Inv(s) && Enabled(s, step)
    ensures SomeStranded(Next(s, step)) <==> SomeStranded(s) || Overwrites(s, step)
  {
    var t := Next(s, step);
    if SomeStranded(s) {
      var c :| Stranded(s, c);
      StrandedForever(s, step, c);
    } else if Overwrites(s, step) {
      OverwriteStrands(s, step);
    } else if SomeStranded(t) {
      var c :| Stranded(t, c);
      OnlyOverwritingStrands(s, step, c);
    }
  }

  /** In every run with Load and Store as separate steps: some caller is left stranded exactly
      when one was before or some Store found its key taken. */
  lemma {:induction false} StrandedIffOverwritten(s: State, steps: seq<Step>)
    requires Inv(s) && Run(s, steps)
    ensures SomeStranded(After(s, steps)) <==> SomeStranded(s) || RunOverwrites(s, steps)
    decreases |steps|
  {
    if steps == [] {
      assert After(s, steps) == s;
    } else {
      InvNext(s, steps[0]);
      StepStrands(s, steps[0]);
      StrandedIffOverwritten(Next(s, steps[0]), steps[1..]);
    }
  }

  /** A blocked call that is not lost: a message is in its channel or on its way, or its entry is
      in the table under its own key with its own timer still armed. */
  ghost predicate Answerable(s: State, c: CallId) {
    && c in s.calls
    && (|| |s.calls[c].buffer| == 1
        || Carrying(s, c)
        || (InTable(s.calls, s.pending, c) && s.calls[c].timer == Armed))
  }

  lemma NoCallerStranded(steps: seq<Step>)
    requires Run(Initial, steps) && !RunOverwrites(Initial, steps)
    ensures var s := After(Initial, steps); forall c | At(s, c, Waiting) :: Answerable(s, c)
  {
    InvInitial();
    RunKeepsInv(Initial, steps);
    StrandedIffOverwritten(Initial, steps);
    assert !SomeStranded(Initial);
    var s := After(Initial, steps);
    forall c | At(s, c, Waiting) ensures Answerable(s, c) {
      assert CallOk(s.calls, c) && !Stranded(s, c);
      if InTable(s.calls, s.pending, c) { assert EntryOk(s.calls, s.pending, s.calls[c].wire.id); }
    }
  }

  // ----- Load and Store as one step ---------------------------------------------------------

  /** Every Load is followed at once by its Store, and a replacement id is not in the table. */
  predicate Atomic(s: State, steps: seq<Step>)
    requires Run(s, steps)
    decreases |steps|
  {
    if steps == [] then true
    else if steps[0].Load? then
      var t, rest := Next(s, steps[0]), steps[1..];
      assert Run(t, rest);
      && rest != [] && rest[0] == Store(steps[0].c) && steps[0].uuid !in s.pending
      && Atomic(Next(t, rest[0]), rest[1..])
    else !steps[0].Store? && Atomic(Next(s, steps[0]), steps[1..])
  }

  lemma {:induction false} AtomicNeverOverwrites(s: State, steps: seq<Step>)
    requires Run(s, steps) && Atomic(s, steps)
    ensures !RunOverwrites(s, steps)
    decreases |steps|
  {
    if steps != [] {
      var t := Next(s, steps[0]);
      if steps[0].Load? {
        AtomicNeverOverwrites(Next(t, steps[1..][0]), steps[1..][1..]);
      } else {
        AtomicNeverOverwrites(t, steps[1..]);
      }
    }
  }

  // ----- Firing the remaining timers unblocks everyone --------------------------------------

  predicate TimerStep(step: Step) { step.Deliver? || step.Expire? || step.DeliverTimeout? }

  ghost predicate Quiet(s: State) {
    s.receiver.None? && forall c | c in s.calls :: !s.calls[c].timer.Armed? && !s.calls[c].timer.Delivering?
  }

  ghost function ArmedTimers(s: State): set<CallId> { set c | c in s.calls && s.calls[c].timer.Armed? }

  ghost function CarryingTimers(s: State): set<CallId> { set c | c in s.calls && s.calls[c].timer.Delivering? }

  ghost function Remaining(s: State): nat {
    2 * |ArmedTimers(s)| + |CarryingTimers(s)| + if s.receiver.Some? then 1 else 0
  }

  lemma DeliverRemains(s: State)
    requires Inv(s) && s.receiver.Some?
    ensures Enabled(s, Deliver) && Remaining(Next(s, Deliver)) < Remaining(s)
  {
    assert CallOk(s.calls, s.receiver.value.target);
    var t := Next(s, Deliver);
    assert ArmedTimers(t) == ArmedTimers(s) && CarryingTimers(t) == CarryingTimers(s);
  }

  lemma DeliverTimeoutRemains(s: State, c: CallId)
    requires Inv(s) && c in s.calls && s.calls[c].timer.Delivering?
    ensures Enabled(s, DeliverTimeout(c)) && Remaining(Next(s, DeliverTimeout(c))) < Remaining(s)
  {
    assert TimerOk(s.calls, s.pending, s.receiver, c) && CallOk(s.calls, s.calls[c].timer.target);
    TimeoutDelivered(s, c);
  }

  lemma TimeoutDelivered(s: State, c: CallId)
    requires Enabled(s, DeliverTimeout(c))
    ensures Remaining(Next(s, DeliverTimeout(c))) < Remaining(s)
  {
    var t := Next(s, DeliverTimeout(c));
    assert ArmedTimers(t) == ArmedTimers(s);
    assert CarryingTimers(t) == CarryingTimers(s) - {c};
  }

  lemma ExpireRemains(s: State, c: CallId)
    requires Inv(s) && c in s.calls && s.calls[c].timer.Armed?
    ensures Enabled(s, Expire(c)) && Remaining(Next(s, Expire(c))) < Remaining(s)
  {
    var t := Next(s, Expire(c));
    assert t.calls == s.calls[c := t.calls[c]] && !t.calls[c].timer.Armed? && t.receiver == s.receiver;
    FiredTimer(s, t, c);
  }

  lemma FiredTimer(s: State, t: State, c: CallId)
    requires c in s.calls && s.calls[c].timer.Armed? && c in t.calls && !t.calls[c].timer.Armed?
    requires t.calls == s.calls[c := t.calls[c]] && t.receiver == s.receiver
    ensures Remaining(t) < Remaining(s)
  {
    FiredIsNotArmed(s, t, c);
    FiredMayCarry(s, t, c);
  }

  lemma FiredIsNotArmed(s: State, t: State, c: CallId)
    requires c in s.calls && s.calls[c].timer.Armed? && c in t.calls && !t.calls[c].timer.Armed?
    requires t.calls == s.calls[c := t.calls[c]]
    ensures |ArmedTimers(t)| == |ArmedTimers(s)| - 1
  {
    assert ArmedTimers(t) == ArmedTimers(s) - {c};
  }

  lemma FiredMayCarry(s: State, t: State, c: CallId)
    requires c in s.calls && s.calls[c].timer.Armed? && c in t.calls
    requires t.calls == s.calls[c := t.calls[c]]
    ensures |CarryingTimers(t)| <= |CarryingTimers(s)| + 1
  {
    if t.calls[c].timer.Delivering? {
      assert CarryingTimers(t) == CarryingTimers(s) + {c};
    } else {
      assert CarryingTimers(t) == CarryingTimers(s);
    }
  }

  lemma TimerStepRemains(s: State, step: Step)
    requires Inv(s) && Enabled(s, step) && TimerStep(step)
    ensures Remaining(Next(s, step)) < Remaining(s)
  {
    match step
    case Deliver => DeliverRemains(s);
    case Expire(c) => ExpireRemains(s, c);
    case DeliverTimeout(c) => DeliverTimeoutRemains(s, c);
    case _ =>
  }

  lemma NextTimerStep(s: State) returns (step: Step)
    requires Inv(s) && !Quiet(s)
    ensures TimerStep(step) && Enabled(s, step)
  {
    if s.receiver.Some? {
      DeliverRemains(s);
      return Deliver;
    }
    var c :| c in s.calls && (s.calls[c].timer.Armed? || s.calls[c].timer.Delivering?);
    if s.calls[c].timer.Armed? {
      return Expire(c);
    }
    DeliverTimeoutRemains(s, c);
    return DeliverTimeout(c);
  }

  lemma StaysWaiting(s: State, step: Step, c: CallId)
    requires Enabled(s, step) && TimerStep(step) && At(s, c, Waiting)
    ensures At(Next(s, step), c, Waiting)
  {
  }

  predicate TimerSteps(steps: seq<Step>) { forall step | step in steps :: TimerStep(step) }

  /** In whatever order the timers fire, they run out, and no caller is moved by it. */
  lemma {:induction false} TimersRunOut(s: State, more: seq<Step>)
    requires Inv(s) && Run(s, more) && TimerSteps(more)
    ensures |more| + Remaining(After(s, more)) <= Remaining(s)
    ensures !RunOverwrites(s, more) && forall c | At(s, c, Waiting) :: At(After(s, more), c, Waiting)
    decreases |more|
  {
    if more != [] {
      var step := more[0];
      InvNext(s, step);
      TimerStepRemains(s, step);
      TimersRunOut(Next(s, step), more[1..]);
      forall c | At(s, c, Waiting) ensures At(After(s, more), c, Waiting) { StaysWaiting(s, step, c); }
    }
  }

  /** Until they have all fired, one of them can. */
  lemma {:induction false} DrainTimers(s: State) returns (steps: seq<Step>)
    requires Inv(s)
    ensures Run(s, steps) && TimerSteps(steps) && Quiet(After(s, steps))
    decreases Remaining(s)
  {
    if Quiet(s) { return []; }
    var step := NextTimerStep(s);
    InvNext(s, step);
    TimerStepRemains(s, step);
    steps := DrainTimers(Next(s, step));
    RunCons(s, step, steps);
    steps := [step] + steps;
  }

  /** From any state reached without overwriting, firing the timers that are left (and nothing
      else), in any order, leaves every blocked caller with exactly one message in its channel. */
  lemma TimersUnblockEveryCaller(steps: seq<Step>, more: seq<Step>)
    requires Run(Initial, steps) && !RunOverwrites(Initial, steps)
    requires Run(After(Initial, steps), more) && TimerSteps(more) && Quiet(After(After(Initial, steps), more))
    ensures var s := After(Initial, steps);
            var t := After(s, more);
            forall c | At(s, c, Waiting) :: At(t, c, Waiting) && |t.calls[c].buffer| == 1
  {
    InvInitial();
    RunKeepsInv(Initial, steps);
    StrandedIffOverwritten(Initial, steps);
    assert !SomeStranded(Initial);
    var s := After(Initial, steps);
    TimersRunOut(s, more);
    RunKeepsInv(s, more);
    StrandedIffOverwritten(s, more);
    var t := After(s, more);
    forall c | At(s, c, Waiting) ensures |t.calls[c].buffer| == 1 {
      assert At(t, c, Waiting);
      assert CallOk(t.calls, c) && !Stranded(t, c);
      assert InTable(t.calls, t.pending, c) ==> EntryOk(t.calls, t.pending, t.calls[c].wire.id);
    }
  }

  // ----- What goes wrong when Load and Store are not one step -------------------------------

  lemma {:induction false} StrandedThroughout(s: State, steps: seq<Step>, c: CallId)
    requires Inv(s) && Run(s, steps) && Stranded(s, c)
    ensures Stranded(After(s, steps), c)
    decreases |steps|
  {
    if steps != [] {
      InvNext(s, steps[0]);
      StrandedForever(s, steps[0], c);
      StrandedThroughout(Next(s, steps[0]), steps[1..], c);
    }
  }

  /** Two calls with one id whose Loads both come before the first Store: the earlier caller is
      stranded, whatever happens next. */
  lemma RacingCallsStrand(req: RequestMessage, uuid: Id, more: seq<Step>)
    ensures var race := [Load(0, req, uuid)] + ([Load(1, req, uuid)] + ([Store(0)] + ([Store(1)] + [])));
            && Run(Initial, race)
            && (Run(After(Initial, race), more) ==> Stranded(After(After(Initial, race), more), 0))
  {
    var s1 := Next(Initial, Load(0, req, uuid));
    var s2 := Next(s1, Load(1, req, uuid));
    var s3 := Next(s2, Store(0));
    var s4 := Next(s3, Store(1));
    RunCons(s3, Store(1), []);
    RunCons(s2, Store(0), [Store(1)] + []);
    RunCons(s1, Load(1, req, uuid), [Store(0)] + ([Store(1)] + []));
    RunCons(Initial, Load(0, req, uuid), [Load(1, req, uuid)] + ([Store(0)] + ([Store(1)] + [])));
    InvInitial();
    InvNext(Initial, Load(0, req, uuid));
    InvNext(s1, Load(1, req, uuid));
    InvNext(s2, Store(0));
    InvNext(s3, Store(1));
    OverwriteStrands(s3, Store(1));
    if Run(s4, more) { StrandedThroughout(s4, more, 0); }
  }
}
