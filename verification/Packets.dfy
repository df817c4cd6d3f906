/**
 The packet stack: BVLC, NPDU and APDU (protocol.go) and the dispatch of incoming
 packets (`handlePacket`, client.go).
 */
module Packets {
  import opened Bytes

  // ---- BVLC ----------------------------------------------------------------

  const BACNET_IP: byte := 0x81
  const FORWARDED_NPDU: byte := 0x04
  const ORIGINAL_UNICAST: byte := 0x0A
  const ORIGINAL_BROADCAST: byte := 0x0B

  datatype Bvlc = Bvlc(bvlcType: byte, function_: byte, length: uint16)

  function EncodeBvlc(function_: byte, npduLength: nat): (s: seq<byte>)
    ensures |s| == 4
  {
    [BACNET_IP, function_] + Put16(4 + npduLength)
  }

  function DecodeBvlc(data: seq<byte>): (r: Result<Bvlc>)
    ensures r.Ok? <==> |data| >= 4
  {
    if |data| < 4 then Err else Ok(Bvlc(data[0], data[1], BigEndian16(data[2..4])))
  }

  /** The three fields are taken as they stand; none of them is checked. */
  lemma BvlcReads(bvlcType: byte, function_: byte, length: uint16, rest: seq<byte>)
    ensures DecodeBvlc([bvlcType, function_] + Put16(length) + rest) == Ok(Bvlc(bvlcType, function_, length))
  {
    hide Put16, BigEndian16;
    var data := [bvlcType, function_] + Put16(length) + rest;
    assert data[2..4] == Put16(length) + [];
    Put16Inverse(length, []);
  }

  /** The length field tells the true packet length exactly up to 65535 bytes. */
  lemma BvlcRoundTrip(function_: byte, npdu: seq<byte>)
    ensures var packet := EncodeBvlc(function_, |npdu|) + npdu;
            && DecodeBvlc(packet) == Ok(Bvlc(BACNET_IP, function_, |packet| % 0x1_0000))
            && (DecodeBvlc(packet).value.length == |packet| <==> |packet| < 0x1_0000)
  {
    var packet := EncodeBvlc(function_, |npdu|) + npdu;
    assert packet[2..4] == Put16(4 + |npdu|) + [];
    Put16Inverse(4 + |npdu|, []);
    assert packet[0] == BACNET_IP && packet[1] == function_;
  }

  // ---- NPDU ----------------------------------------------------------------

  /** Bit positions of the control byte. */
  const NETWORK_MESSAGE: nat := 7
  const DESTINATION: nat := 5
  const SOURCE: nat := 3
  const EXPECTING_REPLY: nat := 2

  datatype Npdu = Npdu(
    control: byte, destNet: uint16, destAddr: seq<byte>, hopCount: byte,
    srcNet: uint16, srcAddr: seq<byte>, messageType: byte, vendorId: uint16)

  function WithFlag(control: byte, bit: nat, on: bool): (c: byte)
    requires bit < 8
    ensures forall j: nat :: HasBit(c, j) == (HasBit(control, j) || (on && j == bit))
  {
    if !on then control
    else
      assert forall j: nat :: HasBit(SetBit(control, bit), j) == (j == bit || HasBit(control, j)) by {
        forall j: nat ensures HasBit(SetBit(control, bit), j) == (j == bit || HasBit(control, j)) {
          SetBitReads(control, bit, j);
        }
      }
      assert Pow2(8) == 0x100;
      SetBitBound(control, bit, 8);
      SetBit(control, bit)
  }

  function EncodeNpdu(expectingReply: bool, priority: byte): (s: seq<byte>)
    ensures |s| == 2
  {
    [1, WithFlag(priority, EXPECTING_REPLY, expectingReply)]
  }

  function RoutedControl(expectingReply: bool, priority: byte): (c: byte) {
    WithFlag(WithFlag(priority, DESTINATION, true), EXPECTING_REPLY, expectingReply)
  }

  function EncodeNpduWithDest(destNet: uint16, destAddr: seq<byte>, hopCount: byte,
                              expectingReply: bool, priority: byte): (s: seq<byte>)
    ensures |s| == 6 + |destAddr|
  {
    [1, RoutedControl(expectingReply, priority)] + Put16(destNet) + [|destAddr| % 0x100] + destAddr + [hopCount]
  }

  /** A network number and a length-prefixed address at `offset`, with `after` bytes still to follow. */
  function ReadAddress(data: seq<byte>, offset: nat, after: nat): (r: Result<(uint16, seq<byte>, nat)>)
    ensures r.Ok? ==> offset + 3 <= r.value.2 && r.value.2 + after <= |data|
  {
    if |data| < offset + 3 then Err
    else
      var addrLen := data[offset + 2];
      if |data| < offset + 3 + addrLen + after then Err
      else Ok((BigEndian16(data[offset..]), data[offset + 3..offset + 3 + addrLen], offset + 3 + addrLen))
  }

  /** Message type and, for vendor-specific types, vendor identifier. */
  function ReadMessage(data: seq<byte>, offset: nat): (r: Result<(byte, uint16, nat)>)
    ensures r.Ok? ==> offset < r.value.2 <= |data|
  {
    if |data| < offset + 1 then Err
    else if data[offset] < 0x80 then Ok((data[offset], 0, offset + 1))
    else if |data| < offset + 3 then Err
    else Ok((data[offset], BigEndian16(data[offset + 1..]), offset + 3))
  }

  /** The decoded header and the offset of what follows it. */
  function DecodeNpdu(data: seq<byte>): (r: Result<(Npdu, nat)>)
    ensures r.Ok? ==> 2 <= r.value.1 <= |data|
  {
    if |data| < 2 || data[0] != 1 then Err
    else
      var control := data[1];
      var d := if HasBit(control, DESTINATION) then ReadAddress(data, 2, 1) else Ok((0, [], 2));
      if d.Err? then Err
      else
        var hop := if HasBit(control, DESTINATION) then data[d.value.2] else 0;
        var offset := if HasBit(control, DESTINATION) then d.value.2 + 1 else 2;
        var s := if HasBit(control, SOURCE) then ReadAddress(data, offset, 0) else Ok((0, [], offset));
        if s.Err? then Err
        else
          var m := if HasBit(control, NETWORK_MESSAGE) then ReadMessage(data, s.value.2) else Ok((0, 0, s.value.2));
          if m.Err? then Err
          else Ok((Npdu(control, d.value.0, d.value.1, hop, s.value.0, s.value.1, m.value.0, m.value.1), m.value.2))
  }

  /** The same, moving an offset over the fields. */
  method ReadAddressInto(data: seq<byte>, start: nat, after: nat) returns (r: Result<(uint16, seq<byte>, nat)>)
    ensures r == ReadAddress(data, start, after)
  {
    hide BigEndian16;
    var offset := start;
    if |data| < offset + 3 { return Err; }
    var net := BigEndian16(data[offset..]);
    offset := offset + 2;
    var addrLen := data[offset];
    offset := offset + 1;
    if |data| < offset + addrLen + after { return Err; }
    var addr := data[offset..offset + addrLen];
    offset := offset + addrLen;
    r := Ok((net, addr, offset));
  }

  /** The decoder as the source runs it: one offset, and a header filled in field by field. */
  method DecodeNpduInto(data: seq<byte>) returns (r: Result<(Npdu, nat)>)
    ensures r == DecodeNpdu(data)
  {
    hide HasBit, BigEndian16, ReadAddress;
    if |data| < 2 { return Err; }
    var npdu := Npdu(data[1], 0, [], 0, 0, [], 0, 0);
    if data[0] != 1 { return Err; }
    var offset: nat := 2;
    if HasBit(npdu.control, DESTINATION) {
      var a := ReadAddressInto(data, offset, 1);
      if a.Err? { return Err; }
      npdu := npdu.(destNet := a.value.0, destAddr := a.value.1);
      offset := a.value.2;
      npdu := npdu.(hopCount := data[offset]);
      offset := offset + 1;
    }
    if HasBit(npdu.control, SOURCE) {
      var a := ReadAddressInto(data, offset, 0);
      if a.Err? { return Err; }
      npdu := npdu.(srcNet := a.value.0, srcAddr := a.value.1);
      offset := a.value.2;
    }
    if HasBit(npdu.control, NETWORK_MESSAGE) {
      if |data| < offset + 1 { return Err; }
      npdu := npdu.(messageType := data[offset]);
      offset := offset + 1;
      if npdu.messageType >= 0x80 {
        if |data| < offset + 2 { return Err; }
        npdu := npdu.(vendorId := BigEndian16(data[offset..]));
        offset := offset + 2;
      }
    }
    r := Ok((npdu, offset));
  }

  /** Neither a source specifier nor a network message flag was smuggled in as a priority. */
  predicate PlainPriority(priority: byte) {
    !HasBit(priority, SOURCE) && !HasBit(priority, NETWORK_MESSAGE)
  }

  /**
   A destination-routed header is read back, with the offset equal to its encoded length,
   exactly when the address fits its length byte and the priority sets no other specifier.
   */
  lemma RoutedNpduRoundTrip(destNet: uint16, destAddr: seq<byte>, hopCount: byte,
                            expectingReply: bool, priority: byte, rest: seq<byte>)
    ensures var enc := EncodeNpduWithDest(destNet, destAddr, hopCount, expectingReply, priority);
            DecodeNpdu(enc + rest)
            == Ok((Npdu(RoutedControl(expectingReply, priority), destNet, destAddr, hopCount, 0, [], 0, 0), |enc|))
            <==> |destAddr| <= 255 && PlainPriority(priority)
  {
    var enc := EncodeNpduWithDest(destNet, destAddr, hopCount, expectingReply, priority);
    var data := enc + rest;
    var control := RoutedControl(expectingReply, priority);
    assert HasBit(control, DESTINATION);
    assert HasBit(control, SOURCE) == HasBit(priority, SOURCE);
    assert HasBit(control, NETWORK_MESSAGE) == HasBit(priority, NETWORK_MESSAGE);
    hide HasBit, WithFlag, RoutedControl;
    RoutedAddress(destNet, destAddr, hopCount, expectingReply, priority, rest);
    assert data[0] == 1 && data[1] == control;
    if |destAddr| <= 255 {
      assert data[|enc| - 1] == hopCount;
      assert destAddr[..|destAddr| % 0x100] == destAddr;
    } else {
      assert |destAddr[..|destAddr| % 0x100]| < |destAddr|;
    }
  }

  lemma RoutedAddress(destNet: uint16, destAddr: seq<byte>, hopCount: byte,
                      expectingReply: bool, priority: byte, rest: seq<byte>)
    ensures var enc := EncodeNpduWithDest(destNet, destAddr, hopCount, expectingReply, priority);
            && |destAddr| % 0x100 <= |destAddr|
            && ReadAddress(enc + rest, 2, 1)
               == Ok((destNet, destAddr[..|destAddr| % 0x100], 5 + |destAddr| % 0x100))
  {
    hide HasBit, WithFlag, RoutedControl;
    var control := RoutedControl(expectingReply, priority);
    var enc := EncodeNpduWithDest(destNet, destAddr, hopCount, expectingReply, priority);
    var data := enc + rest;
    var n := |destAddr| % 0x100;
    var tail := [n] + destAddr + [hopCount] + rest;
    assert data == [1, control] + Put16(destNet) + tail;
    assert data[2..] == Put16(destNet) + tail;
    Put16Inverse(destNet, tail);
    assert data[4] == n;
    var prefix := [1, control] + Put16(destNet) + [n];
    assert data == prefix + (destAddr + ([hopCount] + rest));
    FieldAfter(prefix, destAddr, [hopCount] + rest, n);
  }

  /** A plain header is read back exactly when the priority sets no specifier at all. */
  lemma UnroutedNpduRoundTrip(expectingReply: bool, priority: byte, rest: seq<byte>)
    ensures DecodeNpdu(EncodeNpdu(expectingReply, priority) + rest)
            == Ok((Npdu(WithFlag(priority, EXPECTING_REPLY, expectingReply), 0, [], 0, 0, [], 0, 0), 2))
            <==> PlainPriority(priority) && !HasBit(priority, DESTINATION)
  {
    hide HasBit;
    var data := EncodeNpdu(expectingReply, priority) + rest;
    assert data[0] == 1 && data[1] == WithFlag(priority, EXPECTING_REPLY, expectingReply);
  }

  // ---- APDU ----------------------------------------------------------------

  const CONFIRMED_REQUEST: byte := 0x00
  const UNCONFIRMED_REQUEST: byte := 0x10
  const SIMPLE_ACK: byte := 0x20
  const COMPLEX_ACK: byte := 0x30
  const ERROR: byte := 0x50
  const REJECT: byte := 0x60
  const ABORT: byte := 0x70

  datatype Apdu = Apdu(
    pduType: byte, segmented: bool, moreFollows: bool, maxSegments: byte, maxApdu: byte,
    invokeId: byte, sequenceNum: byte, windowSize: byte, service: byte, data: seq<byte>)

  function EncodeConfirmedRequest(invokeId: byte, service: byte, data: seq<byte>, maxSegments: byte, maxApdu: byte)
    : (s: seq<byte>)
  {
    OrByte(maxSegments * 16 % 0x100, maxApdu);
    [CONFIRMED_REQUEST, Or(maxSegments * 16 % 0x100, maxApdu), invokeId, service] + data
  }

  lemma NegotiationByte(maxSegments: byte, maxApdu: byte)
    requires maxSegments < 8 && maxApdu < 16
    ensures Or(maxSegments * 16 % 0x100, maxApdu) == maxSegments * 16 + maxApdu
  {
    hide Or;
    assert Pow2(4) == 16;
    assert maxSegments * 16 % 0x100 == maxSegments * Pow2(4);
    OrOfFields(maxSegments, maxApdu, 4);
  }

  lemma OrByte(a: byte, b: byte)
    ensures Or(a, b) < 0x100
  {
    assert Pow2(8) == 0x100;
    OrBound(a, b, 8);
  }

  lemma {:induction false} OrBound(a: nat, b: nat, n: nat)
    requires a < Pow2(n) && b < Pow2(n)
    ensures Or(a, b) < Pow2(n)
  {
    if n > 0 {
      OrBound(a / 2, b / 2, n - 1);
    }
  }

  function EncodeUnconfirmedRequest(service: byte, data: seq<byte>): (s: seq<byte>) {
    [UNCONFIRMED_REQUEST, service] + data
  }

  function DecodeConfirmed(data: seq<byte>): (r: Result<Apdu>) {
    if |data| < 4 then Err
    else
      var segmented := data[0] / 8 % 2 == 1;
      var more := data[0] / 4 % 2 == 1;
      var segs, max := data[1] / 16 % 8, data[1] % 16;
      if !segmented then Ok(Apdu(CONFIRMED_REQUEST, false, more, segs, max, data[2], 0, 0, data[3], data[4..]))
      else if |data| < 6 then Err
      else Ok(Apdu(CONFIRMED_REQUEST, true, more, segs, max, data[2], data[4], data[5], data[3], data[6..]))
  }

  function DecodeComplexAck(data: seq<byte>): (r: Result<Apdu>) {
    if |data| < 3 then Err
    else
      var segmented := data[0] / 8 % 2 == 1;
      var more := data[0] / 4 % 2 == 1;
      if !segmented then Ok(Apdu(COMPLEX_ACK, false, more, 0, 0, data[1], 0, 0, data[2], data[3..]))
      else if |data| < 5 then Err
      else Ok(Apdu(COMPLEX_ACK, true, more, 0, 0, data[1], data[3], data[4], data[2], data[5..]))
  }

  /** Simple-Ack, Reject and Abort carry no data; Error does. */
  function DecodeShort(pduType: byte, data: seq<byte>): (r: Result<Apdu>) {
    if |data| < 3 then Err
    else Ok(Apdu(pduType, false, false, 0, 0, data[1], 0, 0, data[2], if pduType == ERROR then data[3..] else []))
  }

  function DecodeApdu(data: seq<byte>): (r: Result<Apdu>)
    ensures r.Ok? ==> |data| >= 2 && r.value.pduType == data[0] / 16 * 16
    ensures r.Ok? ==>
              r.value.pduType
              in {CONFIRMED_REQUEST, UNCONFIRMED_REQUEST, SIMPLE_ACK, COMPLEX_ACK, ERROR, REJECT, ABORT}
  {
    if |data| < 1 then Err
    else
      var t := data[0] / 16 * 16;
      if t == CONFIRMED_REQUEST then DecodeConfirmed(data)
      else if t == UNCONFIRMED_REQUEST then
        if |data| < 2 then Err
        else Ok(Apdu(UNCONFIRMED_REQUEST, false, false, 0, 0, 0, 0, 0, data[1], data[2..]))
      else if t == COMPLEX_ACK then DecodeComplexAck(data)
      else if t == SIMPLE_ACK || t == ERROR || t == REJECT || t == ABORT then DecodeShort(t, data)
      else Err
  }

  /** A request header is read back in full exactly when both negotiation fields fit their bits. */
  lemma ConfirmedRequestRoundTrip(invokeId: byte, service: byte, data: seq<byte>, maxSegments: byte, maxApdu: byte)
    ensures DecodeApdu(EncodeConfirmedRequest(invokeId, service, data, maxSegments, maxApdu))
            == Ok(Apdu(CONFIRMED_REQUEST, false, false, maxSegments, maxApdu, invokeId, 0, 0, service, data))
            <==> maxSegments < 8 && maxApdu < 16
  {
    var s := EncodeConfirmedRequest(invokeId, service, data, maxSegments, maxApdu);
    hide Or;
    assert s[4..] == data;
    if maxSegments < 8 && maxApdu < 16 {
      NegotiationByte(maxSegments, maxApdu);
      assert s[1] / 16 % 8 == maxSegments && s[1] % 16 == maxApdu;
    }
  }

  /** Fields that do not fit run into each other bit by bit. */
  lemma NegotiationBits(invokeId: byte, service: byte, data: seq<byte>, maxSegments: byte, maxApdu: byte, k: nat)
    ensures var s := EncodeConfirmedRequest(invokeId, service, data, maxSegments, maxApdu);
            HasBit(s[1], k) == (HasBit(maxSegments * 16 % 0x100, k) || HasBit(maxApdu, k))
  {
    OrReads(maxSegments * 16 % 0x100, maxApdu, k);
  }

  // ---- Incoming packets ----------------------------------------------------

  /** The decoding half of `handlePacket`; network-layer messages are not for the application. */
  function DecodePacket(data: seq<byte>): (r: Result<(Npdu, Apdu)>) {
    var b := DecodeBvlc(data);
    if b.Err? then Err
    else
      var forwarded := b.value.function_ == FORWARDED_NPDU;
      if forwarded && |data[4..]| < 6 then Err
      else
        var npduData := if forwarded then data[4..][6..] else data[4..];
        var n := DecodeNpdu(npduData);
        if n.Err? || HasBit(n.value.0.control, NETWORK_MESSAGE) then Err
        else
          var a := DecodeApdu(npduData[n.value.1..]);
          if a.Err? then Err else Ok((n.value.0, a.value))
  }

  /** Where `handlePacket` sends a packet. */
  datatype Dispatch = Dropped | ToUnconfirmed(npdu: Npdu, request: Apdu) | ToResponse(apdu: Apdu)

  predicate IsAck(a: Apdu) {
    a.pduType == SIMPLE_ACK || a.pduType == COMPLEX_ACK
  }

  predicate IsRefusal(a: Apdu) {
    a.pduType == ERROR || a.pduType == REJECT || a.pduType == ABORT
  }

  predicate IsReplyType(pduType: byte) {
    pduType in {SIMPLE_ACK, COMPLEX_ACK, ERROR, REJECT, ABORT}
  }

  function HandlePacket(data: seq<byte>): (d: Dispatch)
    ensures d.ToResponse? ==> IsReplyType(d.apdu.pduType)
  {
    var p := DecodePacket(data);
    if p.Err? then Dropped
    else if p.value.1.pduType == UNCONFIRMED_REQUEST then ToUnconfirmed(p.value.0, p.value.1)
    else if IsReplyType(p.value.1.pduType) then ToResponse(p.value.1)
    else Dropped
  }

  // ---- Whole packets -------------------------------------------------------

  function Envelope(function_: byte, npdu: seq<byte>, apdu: seq<byte>): (s: seq<byte>) {
    EncodeBvlc(function_, |npdu| + |apdu|) + (npdu + apdu)
  }

  /** The packet that `sendRequest` builds. */
  function RequestPacket(invokeId: byte, service: byte, data: seq<byte>): (s: seq<byte>) {
    Envelope(ORIGINAL_UNICAST, EncodeNpdu(true, 0), EncodeConfirmedRequest(invokeId, service, data, 0, 5))
  }

  /** An unrouted envelope hands its APDU to the APDU decoder untouched. */
  lemma EnvelopeOpens(function_: byte, expectingReply: bool, apdu: seq<byte>)
    requires function_ != FORWARDED_NPDU
    ensures var packet := Envelope(function_, EncodeNpdu(expectingReply, 0), apdu);
            && DecodeBvlc(packet) == Ok(Bvlc(BACNET_IP, function_, |packet| % 0x1_0000))
            && |packet| == 6 + |apdu|
            && var header := Npdu(WithFlag(0, EXPECTING_REPLY, expectingReply), 0, [], 0, 0, [], 0, 0);
               DecodePacket(packet) == if DecodeApdu(apdu).Err? then Err else Ok((header, DecodeApdu(apdu).value))
  {
    ZeroHasNoBits(DESTINATION);
    ZeroHasNoBits(SOURCE);
    ZeroHasNoBits(NETWORK_MESSAGE);
    UnroutedNpduRoundTrip(expectingReply, 0, apdu);
    var control := WithFlag(0, EXPECTING_REPLY, expectingReply);
    assert !HasBit(control, NETWORK_MESSAGE);
    hide HasBit, WithFlag, DecodeApdu, DecodeNpdu;
    var npdu := EncodeNpdu(expectingReply, 0);
    var packet := Envelope(function_, npdu, apdu);
    BvlcRoundTrip(function_, npdu + apdu);
    assert packet[4..] == npdu + apdu;
    assert (npdu + apdu)[2..] == apdu;
  }

  /** What a client sends decodes, through all three layers, to the request it was built from. */
  lemma RequestPacketRoundTrip(invokeId: byte, service: byte, data: seq<byte>)
    ensures var packet := RequestPacket(invokeId, service, data);
            && DecodePacket(packet).Ok?
            && DecodePacket(packet).value.1
               == Apdu(CONFIRMED_REQUEST, false, false, 0, 5, invokeId, 0, 0, service, data)
            && (DecodeBvlc(packet).value.length == |packet| <==> |packet| < 0x1_0000)
  {
    hide DecodeApdu, EncodeConfirmedRequest, DecodePacket, DecodeBvlc, Envelope;
    EnvelopeOpens(ORIGINAL_UNICAST, true, EncodeConfirmedRequest(invokeId, service, data, 0, 5));
    ConfirmedRequestRoundTrip(invokeId, service, data, 0, 5);
  }

  /** A device's Complex-Ack, in an unrouted unicast envelope. */
  function ComplexAckPacket(invokeId: byte, service: byte, data: seq<byte>): (s: seq<byte>) {
    Envelope(ORIGINAL_UNICAST, EncodeNpdu(false, 0), [COMPLEX_ACK, invokeId, service] + data)
  }

  /** It reaches the response handler with its invoke ID, service and payload. */
  lemma ComplexAckDispatch(invokeId: byte, service: byte, data: seq<byte>)
    ensures HandlePacket(ComplexAckPacket(invokeId, service, data))
            == ToResponse(Apdu(COMPLEX_ACK, false, false, 0, 0, invokeId, 0, 0, service, data))
  {
    var apdu := [COMPLEX_ACK, invokeId, service] + data;
    assert apdu[3..] == data;
    assert DecodeApdu(apdu) == Ok(Apdu(COMPLEX_ACK, false, false, 0, 0, invokeId, 0, 0, service, data));
    hide DecodeApdu, DecodePacket;
    EnvelopeOpens(ORIGINAL_UNICAST, false, apdu);
  }

  /** A segment of a Complex-Ack arrives with its number, the window and the rest as payload. */
  lemma SegmentedAckDispatch(invokeId: byte, service: byte, more: bool, sequenceNum: byte, windowSize: byte,
                             data: seq<byte>)
    ensures var flags := if more then 12 else 8;
            HandlePacket(Envelope(ORIGINAL_UNICAST, EncodeNpdu(false, 0),
                                  [COMPLEX_ACK + flags, invokeId, service, sequenceNum, windowSize] + data))
            == ToResponse(Apdu(COMPLEX_ACK, true, more, 0, 0, invokeId, sequenceNum, windowSize, service, data))
  {
    var apdu := [COMPLEX_ACK + (if more then 12 else 8), invokeId, service, sequenceNum, windowSize] + data;
    assert apdu[5..] == data;
    assert DecodeApdu(apdu)
           == Ok(Apdu(COMPLEX_ACK, true, more, 0, 0, invokeId, sequenceNum, windowSize, service, data));
    hide DecodeApdu, DecodePacket;
    EnvelopeOpens(ORIGINAL_UNICAST, false, apdu);
  }

  /** A device's Error, Reject or Abort; only an Error has a payload, of the others the reason is in the service. */
  function RefusalPacket(pduType: byte, invokeId: byte, service: byte, data: seq<byte>): (s: seq<byte>) {
    Envelope(ORIGINAL_UNICAST, EncodeNpdu(false, 0), [pduType, invokeId, service] + data)
  }

  lemma RefusalDispatch(pduType: byte, invokeId: byte, service: byte, data: seq<byte>)
    requires pduType in {ERROR, REJECT, ABORT}
    ensures HandlePacket(RefusalPacket(pduType, invokeId, service, data))
            == ToResponse(Apdu(pduType, false, false, 0, 0, invokeId, 0, 0, service,
                               if pduType == ERROR then data else []))
  {
    var apdu := [pduType, invokeId, service] + data;
    assert apdu[3..] == data;
    assert DecodeApdu(apdu) == Ok(Apdu(pduType, false, false, 0, 0, invokeId, 0, 0, service,
                                       if pduType == ERROR then data else []));
    hide DecodeApdu, DecodePacket;
    EnvelopeOpens(ORIGINAL_UNICAST, false, apdu);
  }

  /** A device's Simple-Ack, as an accepted subscription is answered. */
  function SimpleAckPacket(invokeId: byte, service: byte): (s: seq<byte>) {
    Envelope(ORIGINAL_UNICAST, EncodeNpdu(false, 0), [SIMPLE_ACK, invokeId, service])
  }

  lemma SimpleAckDispatch(invokeId: byte, service: byte)
    ensures HandlePacket(SimpleAckPacket(invokeId, service))
            == ToResponse(Apdu(SIMPLE_ACK, false, false, 0, 0, invokeId, 0, 0, service, []))
  {
    var apdu := [SIMPLE_ACK, invokeId, service];
    assert DecodeApdu(apdu) == Ok(Apdu(SIMPLE_ACK, false, false, 0, 0, invokeId, 0, 0, service, []));
    hide DecodeApdu, DecodePacket;
    EnvelopeOpens(ORIGINAL_UNICAST, false, apdu);
  }

  /** The packet that `sendUnconfirmedRequest` builds. */
  function UnconfirmedPacket(broadcast: bool, service: byte, data: seq<byte>): (s: seq<byte>) {
    Envelope(if broadcast then ORIGINAL_BROADCAST else ORIGINAL_UNICAST, EncodeNpdu(false, 0),
             EncodeUnconfirmedRequest(service, data))
  }

  /** Broadcast or not, another client dispatches it as the unconfirmed request it was built from. */
  lemma UnconfirmedDispatch(broadcast: bool, service: byte, data: seq<byte>)
    ensures var d := HandlePacket(UnconfirmedPacket(broadcast, service, data));
            d.ToUnconfirmed? && d.request == Apdu(UNCONFIRMED_REQUEST, false, false, 0, 0, 0, 0, 0, service, data)
  {
    var apdu := EncodeUnconfirmedRequest(service, data);
    assert apdu[2..] == data;
    assert DecodeApdu(apdu) == Ok(Apdu(UNCONFIRMED_REQUEST, false, false, 0, 0, 0, 0, 0, service, data));
    hide DecodeApdu, DecodePacket;
    EnvelopeOpens(if broadcast then ORIGINAL_BROADCAST else ORIGINAL_UNICAST, false, apdu);
  }
}
