/**
 The request table of the streaming client as a step system: callers, the send loop, the
 receive loop, the timers and the server interleave at the granularity of single operations
 on the shared table (Load, Store, LoadAndDelete) and on channels.
 */
module StreamingProtocol {
  import opened Basics
  import opened JsonValues
  import opened Messages

  type CallId = nat

  /** Where `request` stands: after its Load, its Store, its Send, blocked on its channel,
      or back with the caller. */
  datatype Phase = Loaded | Stored | Sent | Waiting | Returned

  /** Who put a message on a result channel: the receive loop, with the message as it came
      from the server and the call the server answered, or a call's timer. */
  datatype Source = FromServer(sent: Message, origin: Option<CallId>) | FromTimer(owner: CallId)

  datatype Delivery = Delivery(msg: Message, source: Source)

  /** `Delivering` is the moment between the timer's LoadAndDelete and its channel send. */
  datatype Timer = Unarmed | Armed | Delivering(target: CallId, timeout: Delivery) | Done

  datatype Call = Call(req: RequestMessage, wire: RequestMessage, phase: Phase, timer: Timer,
                       buffer: seq<Delivery>, received: Option<Delivery>)

  /** The receive loop between its LoadAndDelete and its channel send. */
  datatype Carried = Carried(target: CallId, result: Delivery)

  /** An entry of the request table: the caller's own request and its result channel. */
  datatype PendingRequest = PendingRequest(reqmsg: RequestMessage, channel: CallId)

  /** A message with the call it was sent for, or that the server answers with it, if any. */
  type Packet = (Message, Option<CallId>)

  /** `handled` is what the message handler was given. */
  datatype State = State(
    calls: map<CallId, Call>,
    pending: map<Id, PendingRequest>,
    sendQueue: seq<Packet>,
    written: seq<Packet>,
    incoming: seq<Packet>,
    receiver: Option<Carried>,
    handled: seq<Packet>)

  const Initial := State(map[], map[], [], [], [], None, [])

  const SEND_CAPACITY := 100
  const RESULT_CAPACITY := 10

  datatype Step =
    | Load(c: CallId, req: RequestMessage, uuid: Id)
    | Store(c: CallId)
    | Enqueue(c: CallId)
    | Arm(c: CallId)
    | Send(msg: Message)
    | Write
    | Arrive(msg: Message, origin: Option<CallId>)
    | Take
    | Deliver
    | Expire(c: CallId)
    | DeliverTimeout(c: CallId)
    | Receive(c: CallId)

  predicate At(s: State, c: CallId, phase: Phase) { c in s.calls && s.calls[c].phase == phase }

  predicate Enabled(s: State, step: Step) {
    match step
    case Load(c, _, _) => c !in s.calls
    case Store(c) => At(s, c, Loaded)
    case Enqueue(c) => At(s, c, Stored) && |s.sendQueue| < SEND_CAPACITY
    case Arm(c) => At(s, c, Sent)
    case Send(_) => |s.sendQueue| < SEND_CAPACITY
    case Write => |s.sendQueue| > 0
    case Arrive(_, _) => true
    case Take => |s.incoming| > 0 && s.receiver.None?
    case Deliver =>
      && s.receiver.Some? && s.receiver.value.target in s.calls
      && |s.calls[s.receiver.value.target].buffer| < RESULT_CAPACITY
    case Expire(c) => c in s.calls && s.calls[c].timer.Armed?
    case DeliverTimeout(c) =>
      && c in s.calls && s.calls[c].timer.Delivering? && s.calls[c].timer.target in s.calls
      && |s.calls[s.calls[c].timer.target].buffer| < RESULT_CAPACITY
    case Receive(c) => At(s, c, Waiting) && |s.calls[c].buffer| > 0
  }

  function Next(s: State, step: Step): State
    requires Enabled(s, step)
  {
    match step
    case Load(c, req, uuid) =>
      // a colliding id is replaced on the wire by a fresh one
      var wire := if req.id in s.pending then Clone(req, uuid) else req;
      s.(calls := s.calls[c := Call(req, wire, Loaded, Unarmed, [], None)])
    case Store(c) =>
      var call := s.calls[c];
      s.(calls := s.calls[c := call.(phase := Stored)],
         pending := s.pending[call.wire.id := PendingRequest(call.req, c)])
    case Enqueue(c) =>
      s.(calls := s.calls[c := s.calls[c].(phase := Sent)],
         sendQueue := s.sendQueue + [(s.calls[c].wire, Some(c))])
    case Arm(c) =>
      s.(calls := s.calls[c := s.calls[c].(phase := Waiting, timer := Armed)])
    case Send(msg) =>
      // a message of the caller's own, for which no answer is awaited
      s.(sendQueue := s.sendQueue + [(msg, None)])
    case Write =>
      s.(sendQueue := s.sendQueue[1..], written := s.written + [s.sendQueue[0]])
    case Arrive(msg, origin) =>
      s.(incoming := s.incoming + [(msg, origin)])
    case Take => TakeNext(s)
    case Deliver =>
      s.(calls := Pushed(s.calls, s.receiver.value.target, s.receiver.value.result), receiver := None)
    case Expire(c) =>
      var key := s.calls[c].wire.id;
      if key in s.pending then
        var entry := s.pending[key];
        var timeout := Delivery(ToMessage(ErrTimeout, entry.reqmsg), FromTimer(c));
        s.(calls := s.calls[c := s.calls[c].(timer := Delivering(entry.channel, timeout))], pending := s.pending - {key})
      else s.(calls := s.calls[c := s.calls[c].(timer := Done)])
    case DeliverTimeout(c) =>
      var timer := s.calls[c].timer;
      s.(calls := Pushed(s.calls[c := s.calls[c].(timer := Done)], timer.target, timer.timeout))
    case Receive(c) =>
      var call := s.calls[c];
      s.(calls := s.calls[c := call.(phase := Returned, buffer := call.buffer[1..], received := Some(call.buffer[0]))])
  }

  function Pushed(calls: map<CallId, Call>, c: CallId, d: Delivery): map<CallId, Call>
    requires c in calls
  {
    calls[c := calls[c].(buffer := calls[c].buffer + [d])]
  }

  predicate IsReply(msg: Message) { msg.IsResultOrError() && msg.replyTo.Some? }

  /** One round of the receive loop up to its channel send. A message that is no reply, or whose id
      is not in the table, goes to the message handler. */
  function TakeNext(s: State): State
    requires |s.incoming| > 0
  {
    var (msg, origin) := s.incoming[0];
    var rest := s.(incoming := s.incoming[1..]);
    if IsReply(msg) && msg.replyTo.value in s.pending then
      var key := msg.replyTo.value;
      var entry := s.pending[key];
      var result := if key != entry.reqmsg.id then ReplaceId(msg, entry.reqmsg.id) else msg;
      rest.(pending := s.pending - {key},
            receiver := Some(Carried(entry.channel, Delivery(result, FromServer(msg, origin)))))
    else rest.(handled := s.handled + [(msg, origin)])
  }

  // ----- Runs -------------------------------------------------------------------------------

  predicate Run(s: State, steps: seq<Step>)
    decreases |steps|
  {
    steps == [] || (Enabled(s, steps[0]) && Run(Next(s, steps[0]), steps[1..]))
  }

  function After(s: State, steps: seq<Step>): State
    requires Run(s, steps)
    decreases |steps|
  {
    if steps == [] then s else After(Next(s, steps[0]), steps[1..])
  }

  // ----- Where a call's message can be ------------------------------------------------------

  type Calls = map<CallId, Call>
  type Table = map<Id, PendingRequest>

  predicate InTable(calls: Calls, pending: Table, c: CallId) {
    c in calls && calls[c].wire.id in pending && pending[calls[c].wire.id].channel == c
  }

  predicate Untouched(call: Call) { call.buffer == [] && call.received.None? }

  /** A delivery is fit for a call: it carries the caller's own id, and is either the timeout of
      that request or what the server sent with nothing but the id replaced; whoever sent it used
      the call's wire id. */
  predicate Fits(calls: Calls, c: CallId, d: Delivery) {
    && c in calls
    && d.msg.IsResultOrError() && d.msg.replyTo == Some(calls[c].req.id)
    && match d.source
       case FromTimer(x) =>
         x in calls && calls[x].wire.id == calls[c].wire.id && d.msg == ToMessage(ErrTimeout, calls[c].req)
       case FromServer(sent, _) =>
         && sent.IsResultOrError() && sent.replyTo == Some(calls[c].wire.id)
         && d.msg == ReplaceId(sent, calls[c].req.id)
  }

  ghost predicate CallOk(calls: Calls, c: CallId) {
    && c in calls
    && var call := calls[c];
    && (call.wire == call.req || call.wire == Clone(call.req, call.wire.id))
    && (call.phase == Loaded ==> Untouched(call))
    && (call.phase == Loaded || call.phase == Stored || call.phase == Sent <==> call.timer == Unarmed)
    && (call.phase == Returned <==> call.received.Some?)
    && |call.buffer| + (if call.received.Some? then 1 else 0) <= 1
    && (forall d | d in call.buffer :: Fits(calls, c, d))
    && (call.received.Some? ==> Fits(calls, c, call.received.value))
  }

  /** A call that may be in the table: stored, without a message, and its own timer still runs
      once it is waiting. */
  predicate Pending(call: Call) {
    call.phase != Loaded && Untouched(call) && (call.phase == Waiting ==> call.timer == Armed)
  }

  ghost predicate EntryOk(calls: Calls, pending: Table, k: Id) {
    && k in pending
    && var c := pending[k].channel;
    && c in calls && calls[c].wire.id == k && pending[k].reqmsg == calls[c].req && Pending(calls[c])
  }

  /** A message on its way: its call has none yet and is no longer in the table. */
  ghost predicate CarriedOk(calls: Calls, pending: Table, c: CallId, d: Delivery) {
    c in calls && calls[c].phase != Loaded && Untouched(calls[c]) && !InTable(calls, pending, c) && Fits(calls, c, d)
  }

  ghost predicate ReceiverOk(calls: Calls, pending: Table, receiver: Option<Carried>) {
    receiver.Some? ==> CarriedOk(calls, pending, receiver.value.target, receiver.value.result)
  }

  /** The timer of `x`, if it carries a timeout, is alone in carrying something to its target. */
  ghost predicate TimerOk(calls: Calls, pending: Table, receiver: Option<Carried>, x: CallId) {
    && x in calls
    && var timer := calls[x].timer;
    timer.Delivering? ==>
      && CarriedOk(calls, pending, timer.target, timer.timeout)
      && (receiver.Some? ==> receiver.value.target != timer.target)
      && forall y | y in calls && calls[y].timer.Delivering? && calls[y].timer.target == timer.target :: y == x
  }

  ghost predicate CallsOk(calls: Calls) { forall c | c in calls :: CallOk(calls, c) }

  ghost predicate TableOk(calls: Calls, pending: Table) { forall k | k in pending :: EntryOk(calls, pending, k) }

  ghost predicate TimersOk(calls: Calls, pending: Table, receiver: Option<Carried>) {
    forall x | x in calls :: TimerOk(calls, pending, receiver, x)
  }

  ghost predicate Inv(s: State) {
    && CallsOk(s.calls)
    && TableOk(s.calls, s.pending)
    && ReceiverOk(s.calls, s.pending, s.receiver)
    && TimersOk(s.calls, s.pending, s.receiver)
  }

  // ----- One call changes: what the others keep ---------------------------------------------

  ghost predicate SameRequest(a: Call, b: Call) { a.req == b.req && a.wire == b.wire }

  /** No step changes what a call asked or what goes on the wire for it. */
  ghost predicate SameRequests(calls: Calls, calls': Calls) {
    forall c | c in calls :: c in calls' && SameRequest(calls[c], calls'[c])
  }

  lemma FitsStable(calls: Calls, calls': Calls)
    requires SameRequests(calls, calls')
    ensures forall c, d | Fits(calls, c, d) :: Fits(calls', c, d)
  {
  }

  lemma CallsKept(calls: Calls, c: CallId, call: Call)
    requires c in calls ==> SameRequest(calls[c], call)
    requires CallsOk(calls) && CallOk(calls[c := call], c)
    ensures CallsOk(calls[c := call])
  {
    var calls' := calls[c := call];
    FitsStable(calls, calls');
    forall x | x in calls' ensures CallOk(calls', x) { assert x != c ==> CallOk(calls, x); }
  }

  lemma CarriedKept(calls: Calls, pending: Table, c: CallId, call: Call, pending': Table, x: CallId, d: Delivery)
    requires CarriedOk(calls, pending, x, d)
    requires c in calls ==> SameRequest(calls[c], call)
    requires x == c ==> call.phase != Loaded && Untouched(call)
    requires InTable(calls, pending', x) ==> InTable(calls, pending, x)
    ensures CarriedOk(calls[c := call], pending', x, d)
  {
    FitsStable(calls, calls[c := call]);
  }

  // ----- The invariant is kept --------------------------------------------------------------

  lemma InvInitial()
    ensures Inv(Initial)
  {
  }

  /** Every step keeps the invariant. */
  lemma InvNext(s: State, step: Step)
    requires Inv(s) && Enabled(s, step)
    ensures Inv(Next(s, step))
  {
    match step
    case Load(c, req, uuid) => InvLoad(s, c, req, uuid);
    case Store(c) => InvStore(s, c);
    case Enqueue(c) => InvAdvance(s, step, c, s.calls[c].(phase := Sent));
    case Arm(c) => InvAdvance(s, step, c, s.calls[c].(phase := Waiting, timer := Armed));
    case Send(_) =>
    case Write =>
    case Arrive(_, _) =>
    case Take => InvTake(s);
    case Deliver => InvDeliver(s);
    case Expire(c) => InvExpire(s, c);
    case DeliverTimeout(c) => InvDeliverTimeout(s, c);
    case Receive(c) => InvReceive(s, c);
  }

  /** Something is on its way to `c`. */
  ghost predicate Carrying(s: State, c: CallId) {
    || (s.receiver.Some? && s.receiver.value.target == c)
    || exists x :: x in s.calls && s.calls[x].timer.Delivering? && s.calls[x].timer.target == c
  }

  /** One call becomes `call` and the table `pending'`, which may lose entries or gain that of `c`. */
  ghost predicate Moves(s: State, c: CallId, call: Call, pending': Table) {
    && CallOk(s.calls[c := call], c)
    && (c in s.calls ==> SameRequest(s.calls[c], call))
    && (c in s.calls && s.calls[c].phase != Loaded ==> call.phase != Loaded)
    && (c in s.calls && Untouched(s.calls[c]) && Carrying(s, c) ==> Untouched(call))
    && (call.timer.Delivering? ==>
          (c in s.calls && s.calls[c].timer == call.timer) || TimerOk(s.calls[c := call], pending', s.receiver, c))
    && (forall k | k in pending' :: pending'[k].channel != c ==> k in s.pending && pending'[k] == s.pending[k])
    && (forall k | k in pending' && pending'[k].channel == c ::
          && k == call.wire.id && Pending(call) && pending'[k].reqmsg == call.req
          && (c in s.calls && s.calls[c].phase != Loaded ==> k in s.pending && s.pending[k].channel == c))
  }

  lemma CarriedMoves(s: State, c: CallId, call: Call, pending': Table, x: CallId, d: Delivery)
    requires Inv(s) && Moves(s, c, call, pending')
    requires CarriedOk(s.calls, s.pending, x, d) && (x == c ==> Carrying(s, c))
    ensures CarriedOk(s.calls[c := call], pending', x, d)
  {
    CarriedKept(s.calls, s.pending, c, call, pending', x, d);
  }

  lemma TimerMoves(s: State, c: CallId, call: Call, pending': Table, x: CallId)
    requires Inv(s) && Moves(s, c, call, pending') && x in s.calls[c := call]
    ensures TimerOk(s.calls[c := call], pending', s.receiver, x)
  {
    var calls, calls' := s.calls, s.calls[c := call];
    if x in calls && calls'[x].timer == calls[x].timer && calls[x].timer.Delivering? {
      assert TimerOk(calls, s.pending, s.receiver, x);
      var timer := calls[x].timer;
      CarriedMoves(s, c, call, pending', timer.target, timer.timeout);
    }
  }

  lemma CallMoves(s: State, c: CallId, call: Call, pending': Table)
    requires Inv(s) && Moves(s, c, call, pending')
    ensures Inv(s.(calls := s.calls[c := call], pending := pending'))
  {
    var calls, calls' := s.calls, s.calls[c := call];
    CallsKept(calls, c, call);
    forall k | k in pending' ensures EntryOk(calls', pending', k) {
      assert pending'[k].channel != c ==> EntryOk(calls, s.pending, k);
    }
    if s.receiver.Some? {
      CarriedMoves(s, c, call, pending', s.receiver.value.target, s.receiver.value.result);
    }
    forall x | x in calls' ensures TimerOk(calls', pending', s.receiver, x) { TimerMoves(s, c, call, pending', x); }
  }

  lemma InvLoad(s: State, c: CallId, req: RequestMessage, uuid: Id)
    requires Inv(s) && Enabled(s, Load(c, req, uuid))
    ensures Inv(Next(s, Load(c, req, uuid)))
  {
    var t := Next(s, Load(c, req, uuid));
    forall k | k in s.pending ensures s.pending[k].channel != c { assert EntryOk(s.calls, s.pending, k); }
    CallMoves(s, c, t.calls[c], s.pending);
  }

  lemma InvStore(s: State, c: CallId)
    requires Inv(s) && Enabled(s, Store(c))
    ensures Inv(Next(s, Store(c)))
  {
    var t := Next(s, Store(c));
    assert CallOk(s.calls, c);
    forall k | k in s.pending ensures s.pending[k].channel != c { assert EntryOk(s.calls, s.pending, k); }
    CallMoves(s, c, t.calls[c], t.pending);
  }

  lemma InvAdvance(s: State, step: Step, c: CallId, call: Call)
    requires Inv(s) && Enabled(s, step)
    requires || (step == Enqueue(c) && call == s.calls[c].(phase := Sent))
             || (step == Arm(c) && call == s.calls[c].(phase := Waiting, timer := Armed))
    ensures Inv(Next(s, step))
  {
    assert CallOk(s.calls, c);
    FitsStable(s.calls, s.calls[c := call]);
    forall k | k in s.pending ensures EntryOk(s.calls, s.pending, k) {}
    CallMoves(s, c, call, s.pending);
  }

  lemma InvReceive(s: State, c: CallId)
    requires Inv(s) && Enabled(s, Receive(c))
    ensures Inv(Next(s, Receive(c)))
  {
    var t := Next(s, Receive(c));
    assert CallOk(s.calls, c) && TimerOk(s.calls, s.pending, s.receiver, c);
    FitsStable(s.calls, t.calls);
    forall k | k in s.pending ensures s.pending[k].channel != c { assert EntryOk(s.calls, s.pending, k); }
    CallMoves(s, c, t.calls[c], s.pending);
  }

  lemma InvTake(s: State)
    requires Inv(s) && Enabled(s, Take)
    ensures Inv(Next(s, Take))
  {
    var t := Next(s, Take);
    if t.receiver.Some? {
      var key := s.incoming[0].0.replyTo.value;
      assert EntryOk(s.calls, s.pending, key);
      forall k | k in t.pending ensures EntryOk(t.calls, t.pending, k) { assert EntryOk(s.calls, s.pending, k); }
      forall x | x in t.calls ensures TimerOk(t.calls, t.pending, t.receiver, x) {
        assert TimerOk(s.calls, s.pending, s.receiver, x);
      }
    }
  }

  /** A message reaches the channel of a call to which nothing else is on its way. */
  lemma InvPushed(s: State, c: CallId, d: Delivery)
    requires Inv(s) && CarriedOk(s.calls, s.pending, c, d) && !Carrying(s, c)
    ensures Inv(s.(calls := Pushed(s.calls, c, d)))
  {
    var call := s.calls[c].(buffer := s.calls[c].buffer + [d]);
    assert CallOk(s.calls, c);
    FitsStable(s.calls, s.calls[c := call]);
    assert call.buffer == [d];
    forall k | k in s.pending ensures s.pending[k].channel != c { assert EntryOk(s.calls, s.pending, k); }
    CallMoves(s, c, call, s.pending);
  }

  lemma InvDeliver(s: State)
    requires Inv(s) && Enabled(s, Deliver)
    ensures Inv(Next(s, Deliver))
  {
    var rest := s.(receiver := None);
    forall x | x in s.calls
      ensures TimerOk(s.calls, s.pending, None, x)
      ensures s.calls[x].timer != Delivering(s.receiver.value.target, s.receiver.value.result)
    {
      assert TimerOk(s.calls, s.pending, s.receiver, x);
    }
    forall x | x in s.calls && s.calls[x].timer.Delivering? ensures s.calls[x].timer.target != s.receiver.value.target {
      assert TimerOk(s.calls, s.pending, s.receiver, x);
    }
    InvPushed(rest, s.receiver.value.target, s.receiver.value.result);
  }

  lemma InvDeliverTimeout(s: State, c: CallId)
    requires Inv(s) && Enabled(s, DeliverTimeout(c))
    ensures Inv(Next(s, DeliverTimeout(c)))
  {
    var timer := s.calls[c].timer;
    var call := s.calls[c].(timer := Done);
    assert CallOk(s.calls, c) && TimerOk(s.calls, s.pending, s.receiver, c);
    FitsStable(s.calls, s.calls[c := call]);
    forall k | k in s.pending ensures EntryOk(s.calls, s.pending, k) {}
    CallMoves(s, c, call, s.pending);
    CarriedKept(s.calls, s.pending, c, call, s.pending, timer.target, timer.timeout);
    InvPushed(s.(calls := s.calls[c := call]), timer.target, timer.timeout);
  }

  lemma ExpireCarries(s: State, c: CallId)
    requires Inv(s) && Enabled(s, Expire(c)) && s.calls[c].wire.id in s.pending
    ensures var t := Next(s, Expire(c)); TimerOk(t.calls, t.pending, s.receiver, c)
  {
    var t := Next(s, Expire(c));
    var timer := t.calls[c].timer;
    assert EntryOk(s.calls, s.pending, s.calls[c].wire.id);
    FitsStable(s.calls, t.calls);
    assert CarriedOk(t.calls, t.pending, timer.target, timer.timeout);
    forall y | y in t.calls && t.calls[y].timer.Delivering? && t.calls[y].timer.target == timer.target ensures y == c {
      assert TimerOk(s.calls, s.pending, s.receiver, y);
    }
  }

  lemma InvExpire(s: State, c: CallId)
    requires Inv(s) && Enabled(s, Expire(c))
    ensures Inv(Next(s, Expire(c)))
  {
    var t := Next(s, Expire(c));
    assert CallOk(s.calls, c);
    FitsStable(s.calls, t.calls);
    forall k | k in s.pending ensures EntryOk(s.calls, s.pending, k) {}
    if s.calls[c].wire.id in s.pending { ExpireCarries(s, c); }
    CallMoves(s, c, t.calls[c], t.pending);
  }
}
