/**
 The streaming client's methods, cut at the points where other goroutines may run. Each
 piece changes the fields the source changes and is one step of the protocol.
 */
module StreamingClients {
  import opened Basics
  import opened Messages
  import opened StreamingProtocol

  class StreamingClient {
    var pendingRequests: map<Id, PendingRequest>
    var sendChannel: seq<Packet>
    var calls: map<CallId, Call>
    var carried: Option<Carried>
    var written: seq<Packet>
    var incoming: seq<Packet>
    var handled: seq<Packet>

    ghost function Model(): State
      reads this
    {
      State(calls, pendingRequests, sendChannel, written, incoming, carried, handled)
    }

    constructor ()
      ensures Model() == Initial
    {
      pendingRequests, sendChannel, calls, carried := map[], [], map[], None;
      written, incoming, handled := [], [], [];
    }

    /** sync.Map.LoadAndDelete */
    method LoadAndDelete(key: Id) returns (entry: Option<PendingRequest>)
      modifies this`pendingRequests
      ensures entry == if key in old(pendingRequests) then Some(old(pendingRequests)[key]) else None
      ensures pendingRequests == old(pendingRequests) - {key}
    {
      if key in pendingRequests {
        entry := Some(pendingRequests[key]);
        pendingRequests := pendingRequests - {key};
      } else {
        entry := None;
      }
    }

    /** A send on the result channel of `c`. */
    method SendResult(c: CallId, d: Delivery)
      requires c in calls && |calls[c].buffer| < RESULT_CAPACITY
      modifies this`calls
      ensures calls == Pushed(old(calls), c, d)
    {
      calls := calls[c := calls[c].(buffer := calls[c].buffer + [d])];
    }

    /** A send on the channel to the send loop. */
    method SendPacket(packet: Packet)
      requires |sendChannel| < SEND_CAPACITY
      modifies this`sendChannel
      ensures sendChannel == old(sendChannel) + [packet]
    {
      sendChannel := sendChannel + [packet];
    }

    /** `request` up to its Load. */
    method RequestLoad(c: CallId, reqmsg: RequestMessage, uuid: Id)
      requires Enabled(Model(), Load(c, reqmsg, uuid))
      modifies this`calls
      ensures Model() == Next(old(Model()), Load(c, reqmsg, uuid))
    {
      var sendmsg := reqmsg;
      if reqmsg.id in pendingRequests {
        sendmsg := Clone(reqmsg, uuid);
      }
      calls := calls[c := Call(reqmsg, sendmsg, Loaded, Unarmed, [], None)];
    }

    method RequestStore(c: CallId)
      requires Enabled(Model(), Store(c))
      modifies this`calls, this`pendingRequests
      ensures Model() == Next(old(Model()), Store(c))
    {
      var call := calls[c];
      pendingRequests := pendingRequests[call.wire.id := PendingRequest(call.req, c)];
      calls := calls[c := call.(phase := Stored)];
    }

    method RequestSend(c: CallId)
      requires Enabled(Model(), Enqueue(c))
      modifies this`calls, this`sendChannel
      ensures Model() == Next(old(Model()), Enqueue(c))
    {
      SendPacket((calls[c].wire, Some(c)));
      calls := calls[c := calls[c].(phase := Sent)];
    }

    /** `Send` called by the user of the client, with a message of any kind. */
    method SendMessage(msg: Message)
      requires Enabled(Model(), Send(msg))
      modifies this`sendChannel
      ensures Model() == Next(old(Model()), Send(msg))
    {
      SendPacket((msg, None));
    }

    /** `go self.expire(...)`, after which the caller blocks on its channel. */
    method RequestWait(c: CallId)
      requires Enabled(Model(), Arm(c))
      modifies this`calls
      ensures Model() == Next(old(Model()), Arm(c))
    {
      calls := calls[c := calls[c].(phase := Waiting, timer := Armed)];
    }

    method RequestReturn(c: CallId) returns (resmsg: Message)
      requires Enabled(Model(), Receive(c))
      modifies this`calls
      ensures Model() == Next(old(Model()), Receive(c))
      ensures resmsg == old(calls[c].buffer[0].msg)
    {
      var call := calls[c];
      resmsg := call.buffer[0].msg;
      calls := calls[c := call.(phase := Returned, buffer := call.buffer[1..], received := Some(call.buffer[0]))];
    }

    /** One round of sendLoop. */
    method SendOne()
      requires Enabled(Model(), Write)
      modifies this`sendChannel, this`written
      ensures Model() == Next(old(Model()), Write)
    {
      written := written + [sendChannel[0]];
      sendChannel := sendChannel[1..];
    }

    /** The call of the message handler. */
    method HandleMessage(packet: Packet)
      modifies this`handled
      ensures handled == old(handled) + [packet]
    {
      handled := handled + [packet];
    }

    /** One round of recvLoop, up to the channel send of handleResult. */
    method ReceiveOne()
      requires Enabled(Model(), Take)
      modifies this`incoming, this`pendingRequests, this`carried, this`handled
      ensures Model() == Next(old(Model()), Take)
    {
      var (msg, origin) := incoming[0];
      incoming := incoming[1..];
      if !msg.IsResultOrError() || msg.replyTo.None? {
        HandleMessage((msg, origin));
        return;
      }
      var msgId := msg.replyTo.value;
      var pending := LoadAndDelete(msgId);
      if pending.None? {
        assert old(pendingRequests) - {msgId} == old(pendingRequests);
        HandleMessage((msg, origin));
        return;
      }
      var reqmsg := pending.value.reqmsg;
      var resmsg := msg;
      if msgId != reqmsg.id {
        resmsg := ReplaceId(msg, reqmsg.id);
      }
      carried := Some(Carried(pending.value.channel, Delivery(resmsg, FromServer(msg, origin))));
    }

    method DeliverResult()
      requires Enabled(Model(), Deliver)
      modifies this`calls, this`carried
      ensures Model() == Next(old(Model()), Deliver)
    {
      SendResult(carried.value.target, carried.value.result);
      carried := None;
    }

    /** What `expire` does when its time is up, up to its channel send. */
    method TimerFires(c: CallId)
      requires Enabled(Model(), Expire(c))
      modifies this`calls, this`pendingRequests
      ensures Model() == Next(old(Model()), Expire(c))
    {
      var key := calls[c].wire.id;
      var pending := LoadAndDelete(key);
      if pending.Some? {
        var timeout := ToMessage(ErrTimeout, pending.value.reqmsg);
        calls := calls[c := calls[c].(timer := Delivering(pending.value.channel, Delivery(timeout, FromTimer(c))))];
      } else {
        assert old(pendingRequests) - {key} == old(pendingRequests);
        calls := calls[c := calls[c].(timer := Done)];
      }
    }

    method DeliverTimeoutOf(c: CallId)
      requires Enabled(Model(), DeliverTimeout(c))
      modifies this`calls
      ensures Model() == Next(old(Model()), DeliverTimeout(c))
    {
      var timer := calls[c].timer;
      calls := calls[c := calls[c].(timer := Done)];
      SendResult(timer.target, timer.timeout);
    }
  }
}
