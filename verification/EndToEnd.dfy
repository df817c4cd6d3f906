/**
 The layers put together: a ReadPropertyMultiple exchange from the caller's list of requests
 to the device, and from the device's Ack through the receiver and a handler to the waiting call.
 */
module EndToEnd {
  import opened Bytes
  import opened Integers
  import opened Packets
  import opened ErrorReplies
  import opened ReadPropertyMultiple
  import opened RpmRoundTrip
  import opened RpmRequest
  import opened Engine
  import opened EngineSafety
  import opened EngineShutdown
  import opened EngineDelivery

  const READ_PROPERTY_MULTIPLE: byte := 14

  // ---- To the device -------------------------------------------------------

  /** What a device makes of a packet: the requests in a ReadPropertyMultiple confirmed request. */
  function Served(packet: seq<byte>): (r: Result<(byte, seq<ReadRequest>)>) {
    var d := DecodePacket(packet);
    if d.Err? || d.value.1.pduType != CONFIRMED_REQUEST || d.value.1.service != READ_PROPERTY_MULTIPLE then Err
    else
      var requests := ReadBlocks(d.value.1.data);
      if requests.Err? then Err else Ok((d.value.1.invokeId, requests.value))
  }

  /**
   The packet built for any list of requests, under any map order, is served as a permutation
   of that list, in order within each object, exactly when every object is in range.
   */
  lemma RequestsReachDevice(invokeId: byte, order: seq<ObjectIdentifier>, requests: seq<ReadRequest>)
    requires IsIterationOrder(order, requests)
    ensures var served := Served(RequestPacket(invokeId, READ_PROPERTY_MULTIPLE, Blocks(order, requests)));
            (forall r :: r in requests ==> InRange(r.oid)) <==>
            && served.Ok? && served.value.0 == invokeId
            && multiset(served.value.1) == multiset(requests)
            && forall o :: Select(served.value.1, o) == Select(requests, o)
  {
    hide RequestPacket, DecodePacket, DecodeBvlc, ReadBlocks, Blocks, Select, IsIterationOrder;
    RequestPacketRoundTrip(invokeId, READ_PROPERTY_MULTIPLE, Blocks(order, requests));
    RequestRoundTrip(order, requests);
  }

  // ---- To the caller -------------------------------------------------------

  /** The reply a Complex-Ack packet carries. */
  function Ack(invokeId: byte, data: seq<byte>): (a: Apdu) {
    Apdu(COMPLEX_ACK, false, false, 0, 0, invokeId, 0, 0, READ_PROPERTY_MULTIPLE, data)
  }

  /**
   From any reachable state in which a call waits under its own ID with nothing in its channel
   and the receiver is at work, the packet of a device's Ack can be read and brought to the call
   by receiver, handler and the call's own steps. The call then ends answered with that Ack, and
   decodes exactly the successes the device printed, if and only if no content but that of the
   last success ends in an odd number of Boolean trues.
   */
  lemma AckReachesCaller(s: State, r: nat, os: seq<ObjectResult>) returns (steps: seq<Step>, s': State)
    requires Inv(s) && CanReceive(s, r) && WellformedAck(os)
    ensures var id := InvokeId(s.requests[r].ticket);
            && Leads(s, steps, s') && Inv(s')
            && (forall x :: x in steps ==> IsDeliveryStep(x, r))
            && OfReceiver(Read(Some(ComplexAckPacket(id, READ_PROPERTY_MULTIPLE, PrintAck(os))))) in steps
            && r in s'.requests && s'.requests[r].phase == Done(Answered(Ack(id, PrintAck(os))))
            && s'.requests[r].got == [Ack(id, PrintAck(os))]
    ensures DecodeObjects(s'.requests[r].phase.outcome.ack.data).results == Expected(os)
            <==> DerailsOnlyLast(AllEntries(os))
  {
    hide Inv, InvokeId, HandlePacket, DecodeObjects, PrintAck, WellformedAck, ComplexAckPacket, Leads, DerailsOnlyLast,
      AllEntries, Expected;
    var id := InvokeId(s.requests[r].ticket);
    var packet := ComplexAckPacket(id, READ_PROPERTY_MULTIPLE, PrintAck(os));
    ComplexAckDispatch(id, READ_PROPERTY_MULTIPLE, PrintAck(os));
    steps, s' := ReplyReachesCaller(s, r, packet, Ack(id, PrintAck(os)));
    DoneHasReply(s', r);
    RpmAckRoundTrip(os);
  }

  /** The reply that a refusing packet carries. */
  function Refusal(pduType: byte, invokeId: byte, service: byte, data: seq<byte>): (a: Apdu) {
    Apdu(pduType, false, false, 0, 0, invokeId, 0, 0, service, if pduType == ERROR then data else [])
  }

  /**
   Under the same conditions the packet of an Error, Reject or Abort can be read and brought to the
   call, which then ends refused with precisely that reply.
   */
  lemma RefusalReachesCaller(s: State, r: nat, pduType: byte, service: byte, data: seq<byte>)
    returns (steps: seq<Step>, s': State)
    requires Inv(s) && CanReceive(s, r) && pduType in {ERROR, REJECT, ABORT}
    ensures var id := InvokeId(s.requests[r].ticket);
            && Leads(s, steps, s') && Inv(s')
            && (forall x :: x in steps ==> IsDeliveryStep(x, r))
            && OfReceiver(Read(Some(RefusalPacket(pduType, id, service, data)))) in steps
            && r in s'.requests && s'.requests[r].phase == Done(Refused(Refusal(pduType, id, service, data)))
            && s'.requests[r].got == [Refusal(pduType, id, service, data)]
  {
    hide Inv, InvokeId, HandlePacket, RefusalPacket, Leads;
    var id := InvokeId(s.requests[r].ticket);
    RefusalDispatch(pduType, id, service, data);
    var packet, a := RefusalPacket(pduType, id, service, data), Refusal(pduType, id, service, data);
    steps, s' := ReplyReachesCaller(s, r, packet, a);
    DoneHasReply(s', r);
  }

  /** The error that the caller of a refused call is given is the device's, exactly when both numbers fit a byte. */
  lemma ErrorReachesCaller(s: State, r: nat, service: byte, errorClass: uint32, errorCode: uint32)
    returns (steps: seq<Step>, s': State)
    requires Inv(s) && CanReceive(s, r)
    ensures var id := InvokeId(s.requests[r].ticket);
            && Leads(s, steps, s') && Inv(s')
            && OfReceiver(Read(Some(RefusalPacket(ERROR, id, service, PrintError(errorClass, errorCode))))) in steps
            && r in s'.requests && s'.requests[r].phase.Done? && s'.requests[r].phase.outcome.Refused?
            && (DecodeError(s'.requests[r].phase.outcome.error.data) == Ok((errorClass, errorCode))
                <==> errorClass < 0x100 && errorCode < 0x100)
  {
    hide Inv, InvokeId, HandlePacket, RefusalPacket, Leads, DecodeError, PrintError, CanReceive;
    steps, s' := RefusalReachesCaller(s, r, ERROR, service, PrintError(errorClass, errorCode));
    assert PrintError(errorClass, errorCode) + [] == PrintError(errorClass, errorCode);
    ErrorRoundTrip(errorClass, errorCode, []);
  }
}
