/**
 Delivering a reply: from a packet on the wire, through the receiver and a handler, into the
 channel of the call that waits for it, and to the end of that call.
 */
module EngineDelivery {
  import opened Bytes
  import opened Packets
  import opened Engine
  import opened EngineSafety
  import opened EngineShutdown

  /** A call waits under its own ID for a first reply, and the receiver is at work. */
  predicate CanReceive(s: State, r: nat) {
    && Running(s.receiver) && (s.receiver == Reading || !s.cancelled) && !s.transportClosed
    && r in s.requests && s.requests[r].phase == Waiting
    && InvokeId(s.requests[r].ticket) in s.pending && s.pending[InvokeId(s.requests[r].ticket)] == r
    && r in s.channels && s.channels[r].buffer == None
  }

  /** The receiver, its handlers, and the call itself; the call's context is not among them. */
  predicate IsDeliveryStep(x: Step, r: nat) {
    x.OfReceiver? || x.OfHandler? || (x.OfRequest? && x.r == r && x.request != Cancel)
  }

  predicate NoneDelivering(handlers: map<nat, Handler>, r: nat) {
    forall h :: h in handlers && handlers[h].Delivering? ==> handlers[h].channel != r
  }

  /** No call but those delivered to already is about to be delivered to. */
  ghost predicate NoNewDelivery(handlers: map<nat, Handler>, handlers': map<nat, Handler>) {
    forall r :: NoneDelivering(handlers, r) ==> NoneDelivering(handlers', r)
  }

  // ---- Receiver ------------------------------------------------------------

  function ReadRank(r: Receiver): (n: nat) {
    match r
    case Got(_) => 3
    case Added(_) => 2
    case Polling => 1
    case _ => 0
  }

  /** A receiver at work can reach its next read. */
  lemma {:induction false} ReceiverCanRead(s: State) returns (steps: seq<Step>, s': State)
    requires Running(s.receiver) && (s.receiver == Reading || !s.cancelled)
    ensures Leads(s, steps, s') && SameCalls(s, s') && s'.receiver == Reading
    ensures NoNewDelivery(s.handlers, s'.handlers)
    ensures forall x :: x in steps ==> x.OfReceiver?
    decreases ReadRank(s.receiver)
  {
    if s.receiver == Reading {
      steps, s' := [], s;
    } else {
      var h := FreshHandler(s.handlers.Keys);
      ReceiverMoves(s, h);
      assert NoNewDelivery(s.handlers, ApplyReceiver(s, NextReceive(s.receiver, h)).handlers);
      hide ReceiverEnabled, ApplyReceiver, NextReceive;
      var x := NextReceive(s.receiver, h);
      var t := ApplyReceiver(s, x);
      OneStep(s, OfReceiver(x));
      hide Leads;
      var rest;
      rest, s' := ReceiverCanRead(t);
      LeadsOn(s, [OfReceiver(x)], t, rest, s');
      steps := [OfReceiver(x)] + rest;
    }
  }

  /** Reading the packet, counting a handler and starting it. */
  lemma PacketIsHandled(s: State, packet: seq<byte>, h: nat)
    requires s.receiver == Reading && !s.transportClosed && h !in s.handlers
    ensures Leads(s, [OfReceiver(Read(Some(packet))), OfReceiver(AddHandler), OfReceiver(SpawnHandler(h))],
                  s.(receiver := Polling, waitGroup := s.waitGroup + 1, handlers := s.handlers[h := Decoding(packet)]))
  {
    var s1 := s.(receiver := Got(packet));
    var s2 := s1.(receiver := Added(packet), waitGroup := s.waitGroup + 1);
    var s3 := s2.(receiver := Polling, handlers := s.handlers[h := Decoding(packet)]);
    StepLeads(s, OfReceiver(Read(Some(packet))), s1);
    StepLeads(s1, OfReceiver(AddHandler), s2);
    StepLeads(s2, OfReceiver(SpawnHandler(h)), s3);
    hide Leads;
    LeadsOn(s1, [OfReceiver(AddHandler)], s2, [OfReceiver(SpawnHandler(h))], s3);
    LeadsOn(s, [OfReceiver(Read(Some(packet)))], s1, [OfReceiver(AddHandler)] + [OfReceiver(SpawnHandler(h))], s3);
    assert [OfReceiver(Read(Some(packet)))] + ([OfReceiver(AddHandler)] + [OfReceiver(SpawnHandler(h))])
           == [OfReceiver(Read(Some(packet))), OfReceiver(AddHandler), OfReceiver(SpawnHandler(h))];
  }

  lemma LookupLeads(s: State, r: nat, h: nat, packet: seq<byte>, a: Apdu)
    requires h in s.handlers && s.handlers[h] == Decoding(packet)
    requires HandlePacket(packet) == ToResponse(a) && a.invokeId in s.pending && s.pending[a.invokeId] == r
    ensures Leads(s, [OfHandler(h, Lookup)], s.(handlers := s.handlers[h := Delivering(r, a)]))
  {
    hide HandlePacket, Leads;
    StepLeads(s, OfHandler(h, Lookup), s.(handlers := s.handlers[h := Delivering(r, a)]));
  }

  lemma SendLeads(s: State, r: nat, h: nat, a: Apdu)
    requires h in s.handlers && s.handlers[h] == Delivering(r, a)
    requires r in s.channels && s.channels[r] == Channel(None, false)
    ensures Leads(s, [OfHandler(h, Deliver)],
                  s.(handlers := s.handlers[h := Returning], channels := s.channels[r := Channel(Some(a), false)]))
  {
    hide Leads;
    StepLeads(s, OfHandler(h, Deliver),
              s.(handlers := s.handlers[h := Returning], channels := s.channels[r := Channel(Some(a), false)]));
  }

  /** Looking the channel up and sending on it. */
  lemma HandlerDelivers(s: State, r: nat, h: nat, packet: seq<byte>, a: Apdu)
    requires h in s.handlers && s.handlers[h] == Decoding(packet)
    requires HandlePacket(packet) == ToResponse(a) && a.invokeId in s.pending && s.pending[a.invokeId] == r
    requires r in s.channels && s.channels[r] == Channel(None, false)
    ensures Leads(s, [OfHandler(h, Lookup), OfHandler(h, Deliver)],
                  s.(handlers := s.handlers[h := Returning], channels := s.channels[r := Channel(Some(a), false)]))
  {
    hide HandlePacket, Leads;
    var s1 := s.(handlers := s.handlers[h := Delivering(r, a)]);
    var s2 := s.(handlers := s.handlers[h := Returning], channels := s.channels[r := Channel(Some(a), false)]);
    LookupLeads(s, r, h, packet, a);
    assert s1.handlers[h := Returning] == s.handlers[h := Returning];
    SendLeads(s1, r, h, a);
    LeadsOn(s, [OfHandler(h, Lookup)], s1, [OfHandler(h, Deliver)], s2);
    assert [OfHandler(h, Lookup)] + [OfHandler(h, Deliver)] == [OfHandler(h, Lookup), OfHandler(h, Deliver)];
  }

  lemma WaiterIsOpen(s: State, r: nat)
    requires Inv(s) && CanReceive(s, r)
    ensures s.channels[r] == Channel(None, false)
  {
    hide RequestsOk, TicketsDistinct, HandlersOk, ShutdownOk, InvokeId, Holding;
    assert EntryOk(InvokeId(s.requests[r].ticket), r, s.requests, s.channels, s.swaps);
  }

  /** From the read to the buffered reply. */
  lemma PacketIsDelivered(s: State, r: nat, packet: seq<byte>, a: Apdu) returns (steps: seq<Step>, s': State)
    requires Inv(s) && CanReceive(s, r) && s.receiver == Reading
    requires HandlePacket(packet) == ToResponse(a) && a.invokeId == InvokeId(s.requests[r].ticket)
    ensures Leads(s, steps, s')
    ensures OfReceiver(Read(Some(packet))) in steps && forall x :: x in steps ==> x.OfReceiver? || x.OfHandler?
    ensures s'.connection == s.connection && s'.counter == s.counter && s'.swaps == s.swaps
    ensures s'.cancelled == s.cancelled && s'.transportClosed == s.transportClosed
    ensures s'.requests == s.requests && s'.pending == s.pending && s'.receiver == Polling
    ensures s'.channels == s.channels[r := Channel(Some(a), false)]
    ensures NoNewDelivery(s.handlers, s'.handlers)
  {
    hide Inv, InvokeId, HandlePacket, Leads;
    WaiterIsOpen(s, r);
    var h := FreshHandler(s.handlers.Keys);
    PacketIsHandled(s, packet, h);
    var t := s.(receiver := Polling, waitGroup := s.waitGroup + 1, handlers := s.handlers[h := Decoding(packet)]);
    var first := [OfReceiver(Read(Some(packet))), OfReceiver(AddHandler), OfReceiver(SpawnHandler(h))];
    HandlerDelivers(t, r, h, packet, a);
    s' := t.(handlers := t.handlers[h := Returning], channels := t.channels[r := Channel(Some(a), false)]);
    var second := [OfHandler(h, Lookup), OfHandler(h, Deliver)];
    LeadsOn(s, first, t, second, s');
    steps := first + second;
    assert steps[0] == OfReceiver(Read(Some(packet)));
  }

  // ---- The whole way -------------------------------------------------------

  /** The call has ended with the reply, and nothing else that is in progress is disturbed. */
  ghost predicate Answers(s: State, s': State, r: nat, a: Apdu)
    requires r in s.requests
  {
    && r in s'.requests && s'.requests[r].phase == Done(if IsAck(a) then Answered(a) else Refused(a))
    && s'.requests == s.requests[r := s'.requests[r]]
    && r in s'.channels && s'.channels == s.channels[r := s'.channels[r]]
    && NoNewDelivery(s.handlers, s'.handlers)
    && s'.pending == s.pending - {InvokeId(s.requests[r].ticket)}
    && s'.connection == s.connection && s'.counter == s.counter && s'.swaps == s.swaps
    && s'.cancelled == s.cancelled && s'.transportClosed == s.transportClosed && s'.receiver == Polling
  }

  lemma BufferedIsSupplied(s: State, r: nat, a: Apdu)
    requires r in s.requests && s.requests[r].phase == Waiting
    requires r in s.channels && s.channels[r].buffer == Some(a) && IsReplyType(a.pduType)
    ensures Supplied(s, r) && Fate(Waiting, Buffered(s, r), s.transportClosed)
                              == if IsAck(a) then Answered(a) else Refused(a)
  {
  }

  lemma ReadReachesCaller(s: State, r: nat, packet: seq<byte>, a: Apdu) returns (steps: seq<Step>, s': State)
    requires Inv(s) && CanReceive(s, r) && s.receiver == Reading
    requires HandlePacket(packet) == ToResponse(a) && a.invokeId == InvokeId(s.requests[r].ticket)
    ensures Leads(s, steps, s') && Answers(s, s', r, a)
    ensures OfReceiver(Read(Some(packet))) in steps && forall x :: x in steps ==> IsDeliveryStep(x, r)
  {
    hide Inv, InvokeId, HandlePacket, Leads, Supplied, Fate;
    var first, t := PacketIsDelivered(s, r, packet, a);
    BufferedIsSupplied(t, r, a);
    var second;
    second, s' := SuppliedCanFinish(t, r);
    LeadsOn(s, first, t, second, s');
    steps := first + second;
  }

  /** Any reply that carries the ID of a waiting call can be brought to that call, which ends with it. */
  lemma ReplyReachesCaller(s: State, r: nat, packet: seq<byte>, a: Apdu) returns (steps: seq<Step>, s': State)
    requires Inv(s) && CanReceive(s, r)
    requires HandlePacket(packet) == ToResponse(a) && a.invokeId == InvokeId(s.requests[r].ticket)
    ensures Leads(s, steps, s') && Inv(s') && Answers(s, s', r, a)
    ensures OfReceiver(Read(Some(packet))) in steps && forall x :: x in steps ==> IsDeliveryStep(x, r)
  {
    hide Inv, InvokeId, HandlePacket, Leads;
    var first, t := ReceiverCanRead(s);
    LeadsKeepsInv(s, first, t);
    var second;
    second, s' := ReadReachesCaller(t, r, packet, a);
    LeadsOn(s, first, t, second, s');
    steps := first + second;
    LeadsKeepsInv(s, steps, s');
  }

  /** A call that ended with a reply took that reply and no other. */
  lemma DoneHasReply(s: State, r: nat)
    requires Inv(s) && r in s.requests && s.requests[r].phase.Done? && OutcomeReply(s.requests[r].phase.outcome).Some?
    ensures s.requests[r].got == [OutcomeReply(s.requests[r].phase.outcome).value]
  {
    hide TicketsDistinct, PendingOk, HandlersOk, ShutdownOk, Fits, HasTicket;
    assert RequestOk(s.requests[r], ChannelOf(s.channels, r), s.counter, s.swaps);
  }
}
