/**
 Everything the packet decoders accept. Each layer is given by how its bytes may be written; what
 is written so is read as what it says, and whatever is read was written so.
 */
module PacketForms {
  import opened Bytes
  import opened Packets

  // ---- APDU ----------------------------------------------------------------

  /** The bits and bytes of an APDU that the decoder does not look at. */
  datatype Spare = Spare(low: byte, high: byte, trailer: seq<byte>)

  predicate IsSegmentable(pduType: byte) {
    pduType == CONFIRMED_REQUEST || pduType == COMPLEX_ACK
  }

  /** Simple-Ack, Reject and Abort: whatever follows their three bytes is dropped. */
  predicate IsBare(pduType: byte) {
    pduType == SIMPLE_ACK || pduType == REJECT || pduType == ABORT
  }

  /** The fields that a PDU type has; the others are zero. */
  predicate IsApdu(a: Apdu) {
    && a.pduType in {CONFIRMED_REQUEST, UNCONFIRMED_REQUEST, SIMPLE_ACK, COMPLEX_ACK, ERROR, REJECT, ABORT}
    && (!IsSegmentable(a.pduType) ==> !a.segmented && !a.moreFollows)
    && (!a.segmented ==> a.sequenceNum == 0 && a.windowSize == 0)
    && (if a.pduType == CONFIRMED_REQUEST then a.maxSegments < 8 && a.maxApdu < 16
        else a.maxSegments == 0 && a.maxApdu == 0)
    && (a.pduType == UNCONFIRMED_REQUEST ==> a.invokeId == 0)
    && (IsBare(a.pduType) ==> a.data == [])
  }

  predicate IsSpare(a: Apdu, x: Spare) {
    x.low < (if IsSegmentable(a.pduType) then 4 else 16) && x.high < 2
  }

  function Flags(a: Apdu): (b: nat) {
    (if a.segmented then 8 else 0) + if a.moreFollows then 4 else 0
  }

  function PrintApdu(a: Apdu, x: Spare): (s: seq<byte>)
    requires IsApdu(a) && IsSpare(a, x)
  {
    var segment := if a.segmented then [a.sequenceNum, a.windowSize] else [];
    var first: byte := a.pduType + Flags(a) + x.low;
    if a.pduType == CONFIRMED_REQUEST then
      [first, x.high * 128 + a.maxSegments * 16 + a.maxApdu, a.invokeId, a.service] + segment + a.data
    else if a.pduType == UNCONFIRMED_REQUEST then [first, a.service] + a.data
    else [first, a.invokeId, a.service] + segment + if IsBare(a.pduType) then x.trailer else a.data
  }

  /** A quotient is known by its remainder. */
  lemma Quotients(x: nat, q: nat, r: nat)
    ensures x == 4 * q + r && r < 4 ==> x / 4 == q
    ensures x == 8 * q + r && r < 8 ==> x / 8 == q
    ensures x == 16 * q + r && r < 16 ==> x / 16 == q
  {
  }

  lemma NibbleFlags(k: nat, segmented: bool, more: bool, low: nat)
    requires low < 4
    ensures var b := 16 * k + (if segmented then 8 else 0) + (if more then 4 else 0) + low;
            (b / 8 % 2 == 1) == segmented && (b / 4 % 2 == 1) == more && b / 16 == k
  {
    var s, m := if segmented then 1 else 0, if more then 1 else 0;
    var b := 16 * k + 8 * s + 4 * m + low;
    Quotients(b, 2 * k + s, 4 * m + low);
    Quotients(b, 4 * k + 2 * s + m, low);
    Quotients(b, k, 8 * s + 4 * m + low);
    Parity(k, s);
    Parity(2 * k + s, m);
  }

  lemma Parity(k: nat, bit: nat)
    requires bit < 2
    ensures (2 * k + bit) % 2 == bit
  {
  }

  lemma FirstByteOf(t: byte, segmented: bool, more: bool, low: byte)
    requires t % 16 == 0 && low < (if segmented || more then 4 else 16)
    ensures var b := t + (if segmented then 8 else 0) + (if more then 4 else 0) + low;
            b < 0x100 && b / 16 * 16 == t
            && (low < 4 ==> (b / 8 % 2 == 1) == segmented && (b / 4 % 2 == 1) == more)
  {
    var k := t / 16;
    assert t == 16 * k;
    if low < 4 {
      NibbleFlags(k, segmented, more, low);
    } else {
      Quotients(t + low, k, low);
    }
  }

  lemma SecondByteOf(high: byte, segs: byte, max: byte)
    requires high < 2 && segs < 8 && max < 16
    ensures var b := high * 128 + segs * 16 + max; b < 0x100 && b / 16 % 8 == segs && b % 16 == max
  {
    assert (high * 128 + segs * 16 + max) / 16 == high * 8 + segs;
  }

  /** What is written as an APDU is read as that APDU. */
  lemma ApduReads(a: Apdu, x: Spare)
    requires IsApdu(a) && IsSpare(a, x)
    ensures DecodeApdu(PrintApdu(a, x)) == Ok(a)
  {
    var s := PrintApdu(a, x);
    FirstByteOf(a.pduType, a.segmented, a.moreFollows, x.low);
    assert s[0] == a.pduType + Flags(a) + x.low && s[0] / 16 * 16 == a.pduType;
    if a.pduType == CONFIRMED_REQUEST {
      SecondByteOf(x.high, a.maxSegments, a.maxApdu);
      assert s[if a.segmented then 6 else 4..] == a.data;
    } else if a.pduType == UNCONFIRMED_REQUEST {
      assert s[2..] == a.data;
    } else if !IsBare(a.pduType) {
      assert s[if a.segmented then 5 else 3..] == a.data;
    }
  }

  /** And whatever is read as an APDU was written as one: nothing shorter and no other type is accepted. */
  lemma ApduFound(s: seq<byte>) returns (x: Spare)
    requires DecodeApdu(s).Ok?
    ensures var a := DecodeApdu(s).value; IsApdu(a) && IsSpare(a, x) && s == PrintApdu(a, x)
  {
    var a := DecodeApdu(s).value;
    FirstByteSplits(s[0]);
    x := Spare(if IsSegmentable(a.pduType) then s[0] % 4 else s[0] % 16,
               if a.pduType == CONFIRMED_REQUEST then s[1] / 128 else 0,
               if IsBare(a.pduType) then s[3..] else []);
    if a.pduType == CONFIRMED_REQUEST { SecondByteSplits(s[1]); }
    assert s == PrintApdu(a, x);
  }

  lemma FirstByteSplits(b: byte)
    ensures b == b / 16 * 16 + b % 16
    ensures b % 16 == b / 8 % 2 * 8 + b / 4 % 2 * 4 + b % 4
  {
    assert b / 16 == b / 8 / 2 && b / 8 == b / 4 / 2;
  }

  lemma SecondByteSplits(b: byte)
    ensures b == b / 128 * 128 + b / 16 % 8 * 16 + b % 16
  {
    assert b / 128 == b / 16 / 8;
  }

  // ---- NPDU ----------------------------------------------------------------

  /** The fields that the control byte announces; the others are zero or empty. */
  predicate IsNpdu(n: Npdu) {
    && |n.destAddr| <= 255 && |n.srcAddr| <= 255
    && (!HasBit(n.control, DESTINATION) ==> n.destNet == 0 && n.destAddr == [] && n.hopCount == 0)
    && (!HasBit(n.control, SOURCE) ==> n.srcNet == 0 && n.srcAddr == [])
    && (!HasBit(n.control, NETWORK_MESSAGE) ==> n.messageType == 0)
    && (n.messageType < 0x80 ==> n.vendorId == 0)
  }

  function PrintDestination(n: Npdu, rest: seq<byte>): (s: seq<byte>)
    requires IsNpdu(n)
  {
    if HasBit(n.control, DESTINATION) then Put16(n.destNet) + ([|n.destAddr|] + (n.destAddr + ([n.hopCount] + rest)))
    else rest
  }

  function PrintSource(n: Npdu, rest: seq<byte>): (s: seq<byte>)
    requires IsNpdu(n)
  {
    if HasBit(n.control, SOURCE) then Put16(n.srcNet) + ([|n.srcAddr|] + (n.srcAddr + rest)) else rest
  }

  function PrintMessage(n: Npdu, rest: seq<byte>): (s: seq<byte>)
    requires IsNpdu(n)
  {
    if !HasBit(n.control, NETWORK_MESSAGE) then rest
    else if n.messageType < 0x80 then [n.messageType] + rest
    else [n.messageType] + (Put16(n.vendorId) + rest)
  }

  /** Destination, source and message in that order, each if announced. */
  function PrintNpdu(n: Npdu, rest: seq<byte>): (s: seq<byte>)
    requires IsNpdu(n)
  {
    [1, n.control] + PrintDestination(n, PrintSource(n, PrintMessage(n, rest)))
  }

  /** An address is read wherever it stands. */
  lemma AddressReads(prefix: seq<byte>, net: uint16, addr: seq<byte>, rest: seq<byte>, after: nat)
    requires |addr| <= 255 && after <= |rest|
    ensures ReadAddress(prefix + (Put16(net) + ([|addr|] + (addr + rest))), |prefix|, after)
            == Ok((net, addr, |prefix| + 3 + |addr|))
  {
    var tail := [|addr|] + (addr + rest);
    var data := prefix + (Put16(net) + tail);
    assert data[|prefix|..] == Put16(net) + tail;
    Put16Inverse(net, tail);
    hide Put16, BigEndian16;
    assert data[|prefix| + 2] == tail[0] == |addr|;
    var p := prefix + Put16(net) + [|addr|];
    assert data == p + (addr + rest);
    FieldAfter(p, addr, rest, |addr|);
    assert addr[..|addr|] == addr;
  }

  lemma MessageReads(prefix: seq<byte>, n: Npdu, rest: seq<byte>)
    requires IsNpdu(n) && HasBit(n.control, NETWORK_MESSAGE)
    ensures var data := prefix + PrintMessage(n, rest);
            ReadMessage(data, |prefix|) == Ok((n.messageType, n.vendorId, |data| - |rest|))
  {
    hide HasBit;
    var data := prefix + PrintMessage(n, rest);
    assert data[|prefix|] == n.messageType;
    if n.messageType >= 0x80 {
      assert data[|prefix| + 1..] == Put16(n.vendorId) + rest;
      Put16Inverse(n.vendorId, rest);
    }
  }

  /** The header up to what follows the destination, as a prefix. */
  lemma DestinationReads(n: Npdu, rest: seq<byte>) returns (prefix: seq<byte>)
    requires IsNpdu(n)
    ensures [1, n.control] + PrintDestination(n, rest) == prefix + rest && |prefix| >= 2
    ensures prefix[0] == 1 && prefix[1] == n.control
    ensures if HasBit(n.control, DESTINATION) then
              && ReadAddress(prefix + rest, 2, 1) == Ok((n.destNet, n.destAddr, |prefix| - 1))
              && prefix[|prefix| - 1] == n.hopCount
            else |prefix| == 2
  {
    hide HasBit, ReadAddress, Put16;
    prefix := [1, n.control];
    if HasBit(n.control, DESTINATION) {
      AddressReads(prefix, n.destNet, n.destAddr, [n.hopCount] + rest, 1);
      prefix := prefix + Put16(n.destNet) + [|n.destAddr|] + n.destAddr + [n.hopCount];
      assert [1, n.control] + PrintDestination(n, rest) == prefix + rest;
    }
  }

  lemma SourceReads(prefix: seq<byte>, n: Npdu, rest: seq<byte>) returns (prefix': seq<byte>)
    requires IsNpdu(n)
    ensures prefix + PrintSource(n, rest) == prefix' + rest
    ensures if HasBit(n.control, SOURCE) then
              ReadAddress(prefix' + rest, |prefix|, 0) == Ok((n.srcNet, n.srcAddr, |prefix'|))
            else prefix' == prefix
  {
    hide HasBit, ReadAddress, Put16;
    prefix' := prefix;
    if HasBit(n.control, SOURCE) {
      AddressReads(prefix, n.srcNet, n.srcAddr, rest, 0);
      prefix' := prefix + Put16(n.srcNet) + [|n.srcAddr|] + n.srcAddr;
      assert prefix + PrintSource(n, rest) == prefix' + rest;
    }
  }

  /** What is written as a header is read as that header, and the offset is that of what follows. */
  lemma NpduReads(n: Npdu, rest: seq<byte>)
    requires IsNpdu(n)
    ensures DecodeNpdu(PrintNpdu(n, rest)) == Ok((n, |PrintNpdu(n, rest)| - |rest|))
    ensures |PrintNpdu(n, rest)| >= |rest| && PrintNpdu(n, rest)[|PrintNpdu(n, rest)| - |rest|..] == rest
  {
    hide HasBit, ReadAddress, ReadMessage, PrintMessage, PrintSource, PrintDestination;
    var message := PrintMessage(n, rest);
    var source := PrintSource(n, message);
    var p := DestinationReads(n, source);
    var q := SourceReads(p, n, message);
    var data := PrintNpdu(n, rest);
    assert data[0] == p[0] && data[1] == p[1] && data[|p| - 1] == p[|p| - 1] by { assert data == p + source; }
    if HasBit(n.control, NETWORK_MESSAGE) {
      MessageReads(q, n, rest);
    } else {
      NoMessage(n, rest);
    }
    MessageEnds(n, rest);
    assert data == q + PrintMessage(n, []) + rest;
  }

  lemma NoMessage(n: Npdu, rest: seq<byte>)
    requires IsNpdu(n) && !HasBit(n.control, NETWORK_MESSAGE)
    ensures PrintMessage(n, rest) == rest
  {
  }

  lemma MessageEnds(n: Npdu, rest: seq<byte>)
    requires IsNpdu(n)
    ensures PrintMessage(n, rest) == PrintMessage(n, []) + rest
  {
    hide HasBit, Put16;
    assert [n.messageType] + (Put16(n.vendorId) + rest) == [n.messageType] + (Put16(n.vendorId) + []) + rest;
  }

  lemma AddressFound(data: seq<byte>, offset: nat, after: nat)
    requires ReadAddress(data, offset, after).Ok?
    ensures var (net, addr, end) := ReadAddress(data, offset, after).value;
            |addr| <= 255 && data[offset..] == Put16(net) + ([|addr|] + (addr + data[end..]))
  {
    var (net, addr, end) := ReadAddress(data, offset, after).value;
    var word := data[offset..offset + 2];
    assert data[offset..][0] == word[0] && data[offset..][1] == word[1];
    Put16Onto(word);
    hide Put16, BigEndian16;
    assert data[offset..] == word + ([data[offset + 2]] + (data[offset + 3..end] + data[end..]));
  }

  /** And whatever is read as a header was written as one. */
  lemma NpduFound(s: seq<byte>)
    requires DecodeNpdu(s).Ok?
    ensures var (n, offset) := DecodeNpdu(s).value; IsNpdu(n) && s == PrintNpdu(n, s[offset..])
  {
    var (n, offset) := DecodeNpdu(s).value;
    var at, at' := 2, 2;
    if HasBit(n.control, DESTINATION) {
      AddressFound(s, 2, 1);
      at := ReadAddress(s, 2, 1).value.2 + 1;
      assert s[at - 1..] == [s[at - 1]] + s[at..];
    }
    at' := at;
    if HasBit(n.control, SOURCE) {
      AddressFound(s, at, 0);
      at' := ReadAddress(s, at, 0).value.2;
    }
    if HasBit(n.control, NETWORK_MESSAGE) { MessageFound(s, at'); }
    hide HasBit, ReadAddress, ReadMessage, Put16;
    assert s[at'..] == PrintMessage(n, s[offset..]);
    assert s[at..] == PrintSource(n, s[at'..]);
    assert s[2..] == PrintDestination(n, s[at..]);
    assert s == [1, n.control] + s[2..];
  }

  lemma MessageFound(s: seq<byte>, at: nat)
    requires ReadMessage(s, at).Ok?
    ensures var (t, vendor, end) := ReadMessage(s, at).value;
            && (t < 0x80 ==> vendor == 0)
            && s[at..] == if t < 0x80 then [t] + s[end..] else [t] + (Put16(vendor) + s[end..])
  {
    if s[at] >= 0x80 {
      var word := s[at + 1..at + 3];
      assert s[at + 1..][0] == word[0] && s[at + 1..][1] == word[1];
      Put16Onto(word);
      hide Put16, BigEndian16;
      assert s[at..] == [s[at]] + (word + s[at + 3..]);
    } else {
      assert s[at..] == [s[at]] + s[at + 1..];
    }
  }

  // ---- Packets -------------------------------------------------------------

  /** The six address bytes a BBMD puts in front of what it forwards. */
  predicate IsForwardAddress(function_: byte, address: seq<byte>) {
    |address| == if function_ == FORWARDED_NPDU then 6 else 0
  }

  /** Any packet, whatever its type and length bytes say. */
  function PrintPacket(bvlcType: byte, function_: byte, length: uint16, address: seq<byte>, npdu: seq<byte>)
    : (s: seq<byte>)
  {
    [bvlcType, function_] + Put16(length) + address + npdu
  }

  lemma PacketOpens(bvlcType: byte, function_: byte, length: uint16, address: seq<byte>, npdu: seq<byte>)
    requires IsForwardAddress(function_, address)
    ensures var d := DecodeNpdu(npdu);
            DecodePacket(PrintPacket(bvlcType, function_, length, address, npdu)) ==
            if d.Err? || HasBit(d.value.0.control, NETWORK_MESSAGE) then Err
            else if DecodeApdu(npdu[d.value.1..]).Err? then Err
            else Ok((d.value.0, DecodeApdu(npdu[d.value.1..]).value))
  {
    hide HasBit, DecodeNpdu, DecodeApdu, Put16;
    var s := PrintPacket(bvlcType, function_, length, address, npdu);
    assert s[4..] == address + npdu;
    assert (address + npdu)[|address|..] == npdu;
    if address == [] { assert address + npdu == npdu; }
  }

  /** What a BBMD forwards is handled as if it had come directly. */
  lemma ForwardedOpens(length: uint16, address: seq<byte>, npdu: seq<byte>)
    requires |address| == 6
    ensures HandlePacket(PrintPacket(BACNET_IP, FORWARDED_NPDU, length, address, npdu))
            == HandlePacket(EncodeBvlc(ORIGINAL_UNICAST, |npdu|) + npdu)
  {
    hide DecodePacket, DecodeNpdu, DecodeApdu, HasBit;
    PacketOpens(BACNET_IP, FORWARDED_NPDU, length, address, npdu);
    PacketOpens(BACNET_IP, ORIGINAL_UNICAST, (4 + |npdu|) % 0x1_0000, [], npdu);
    assert EncodeBvlc(ORIGINAL_UNICAST, |npdu|) + npdu
           == PrintPacket(BACNET_IP, ORIGINAL_UNICAST, (4 + |npdu|) % 0x1_0000, [], npdu) by {
      Put16Wraps(4 + |npdu|);
    }
  }

  lemma Put16Wraps(n: nat)
    ensures Put16(n) == Put16(n % 0x1_0000)
  {
    hide Put16, BigEndian16;
    Put16Inverse(n, []);
    assert Put16(n) + [] == Put16(n);
    Put16Onto(Put16(n));
  }

  /** Packets that are too short for their header or for the forwarding address are dropped. */
  lemma ShortPacketsAreDropped(s: seq<byte>)
    requires |s| < 4 || (s[1] == FORWARDED_NPDU && |s| < 10)
    ensures HandlePacket(s) == Dropped
  {
  }

  /** Where every packet goes, by what it carries; the type and length of its envelope do not matter. */
  lemma PacketDispatch(bvlcType: byte, function_: byte, length: uint16, address: seq<byte>, n: Npdu, a: Apdu, x: Spare)
    requires IsForwardAddress(function_, address) && IsNpdu(n) && IsApdu(a) && IsSpare(a, x)
    ensures HandlePacket(PrintPacket(bvlcType, function_, length, address, PrintNpdu(n, PrintApdu(a, x)))) ==
            if HasBit(n.control, NETWORK_MESSAGE) then Dropped
            else if a.pduType == UNCONFIRMED_REQUEST then ToUnconfirmed(n, a)
            else if a.pduType == CONFIRMED_REQUEST then Dropped
            else ToResponse(a)
  {
    hide HasBit, DecodeNpdu, DecodeApdu, PrintNpdu, PrintApdu, DecodePacket;
    PacketOpens(bvlcType, function_, length, address, PrintNpdu(n, PrintApdu(a, x)));
    NpduReads(n, PrintApdu(a, x));
    ApduReads(a, x);
  }

  /** And whatever is not dropped was such a packet. */
  lemma DispatchedFound(s: seq<byte>) returns (address: seq<byte>, n: Npdu, a: Apdu, x: Spare)
    requires HandlePacket(s) != Dropped
    ensures |s| >= 4 && IsForwardAddress(s[1], address) && IsNpdu(n) && IsApdu(a) && IsSpare(a, x)
    ensures s == s[..4] + address + PrintNpdu(n, PrintApdu(a, x)) && !HasBit(n.control, NETWORK_MESSAGE)
    ensures HandlePacket(s) == if a.pduType == UNCONFIRMED_REQUEST then ToUnconfirmed(n, a) else ToResponse(a)
  {
    hide HasBit, DecodeNpdu, DecodeApdu, PrintNpdu, PrintApdu, IsNpdu, IsApdu;
    var at := if s[1] == FORWARDED_NPDU then 10 else 4;
    if s[1] == FORWARDED_NPDU { DropDrop(s, 4, 6); }
    var npdu := s[at..];
    NpduFound(npdu);
    var offset := DecodeNpdu(npdu).value.1;
    address, n, a := s[4..at], DecodeNpdu(npdu).value.0, DecodeApdu(npdu[offset..]).value;
    x := ApduFound(npdu[offset..]);
    assert s == s[..4] + s[4..at] + s[at..];
  }
}
