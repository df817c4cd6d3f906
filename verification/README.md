# Verified model of bacnet-go

`bacnet-go` is a BACnet/IP client: a byte-level codec in the encoding of ANSI/ASHRAE 135, and a
concurrent engine that matches replies to outstanding requests. This project models both in Dafny
and proves what the client relies on: which values survive the wire and exactly when, what the
nested ReadPropertyMultiple decoder returns on every Ack that the repository's own encoders print,
and what holds in every state of every interleaving of requests, packet handlers and `Close` calls.

`dafny verify dfyconfig.toml` checks the whole project.

## How it is laid out

| file | models |
|---|---|
| `Bytes.dfy` | bytes, fixed widths, big-endian words and bit operations as arithmetic |
| `Integers.dfy` | unsigned and signed integers, object identifiers, dates and times |
| `Tags.dfy` | tag headers, opening and closing tags |
| `BitStrings.dfy` | bit strings and the packing loop |
| `Values.dfy` | property values: encoders against `decodePropertyValue`, and writing Go values |
| `Skipping.dfy` | `skipToContextClosingTag` |
| `ReadProperty.dfy` | context fields, optional index, ReadProperty-Ack |
| `ReadPropertyMultiple.dfy` | the two nested loops of the ReadPropertyMultiple-Ack decoder |
| `RpmRoundTrip.dfy` | printing Acks, and what the decoder makes of every printed Ack |
| `RpmRequest.dfy` | grouping and printing a ReadPropertyMultiple request, and reading it back |
| `Packets.dfy` | BVLC, NPDU, APDU and the dispatch of `handlePacket` |
| `PacketForms.dfy` | every way of writing a packet, and that the decoders read those and no others |
| `ErrorReplies.dfy` | the payload of an Error reply |
| `Engine.dfy` | the request engine as a machine of atomic steps |
| `EngineSafety.dfy` | its invariant, no panics, reply matching |
| `EngineWindow.dfy` | when the 8-bit invoke IDs keep `pending` exact, and the window in which they must |
| `EngineShutdown.dfy` | what `Close` releases, and that it can always finish |
| `EngineTermination.dfy` | why it does finish: bounded work, never stuck |
| `EngineStranding.dfy` | which waiting calls `Close` does not reach, exactly |
| `EngineReconnect.dfy` | after `Close` nothing is sent or heard any more |
| `EngineProvenance.dfy` | replies were read off the wire, and none twice |
| `EngineOutcomes.dfy` | the outcome of a call says what has happened to it |
| `EngineDelivery.dfy` | a reply from the wire to the call that waits for it |
| `EngineCollision.dfy` | a run of ordinary use in which two requests meet under one ID |
| `EngineCounters.dfy` | conservation of the request counters |
| `Maps.dfy` | counting over maps |
| `Histogram.dfy` | the latency histogram |
| `EndToEnd.dfy` | a ReadPropertyMultiple exchange through all layers |

Decoders that move an offset or grow a buffer are methods with loops and are proved equal to a
function on the bytes that remain, `data[offset..]`; the theorems are about those functions. The
histogram is a class. The engine is a transition system: its state holds every goroutine's program
counter, `Enabled` and `Apply` say what each atomic step does, a run is a sequence of states linked
by enabled steps from `INITIAL`, and theorems quantify over all runs. The network is free to send
any bytes at any time, a send may fail, and a context may end at any time.

## What the code does that its comments do not say

* The skip steps over Boolean true (0x11) as if it had one payload byte. In a ReadPropertyMultiple-Ack
  a content that ends in an odd number of Boolean trues makes it run past the closing tag, swallow the
  next success, possibly across object headers, and report later entries under the wrong object.
  `RpmRoundTrip.DecodeAck` gives the decoder's result for every such Ack;
  `RpmRoundTrip.RpmAckRoundTrip` says exactly when it is the right one.
* `EncodeTag` drops the length for tag numbers from 15 on: the header promises length 0 and extra bytes
  follow. `Tags.TagHeaderRoundTrip` gives the exact condition.
* The comment on `EncodeBooleanTag` calls 0x10 "length 1, value 0"; the length bits are 0.
* `EncodeDate` speaks of clamping the year; years outside 1900 to 2154 wrap around, and 2155 becomes the
  wildcard. `Integers.DateRoundTrip` gives the exact condition.
* Non-negative `int` and `int32` values are written as Unsigned, so the number survives but not its type;
  an `int` outside -2^31 to 2^32-1 is truncated silently.
* A negative latency sample counts as "no minimum yet" for the next sample.
* An invoke ID that wraps onto a request still in flight takes over its entry in `pending`, and the first
  request's deferred delete then unregisters the second. AUDIT.md:115-117 speaks of 256 concurrent requests;
  two in flight are enough when 256 IDs are handed out in between (`EngineCollision.TwoRequestsCollide`).
* Such a call is stranded: no reply and no `Close` reaches it any more, only its context can end it
  (`EngineStranding.SwapReleasesExactly`). A call that registers after the swap waits for its context, or for
  another `Connect` and `Close`, since a second `Close` on a disconnected client returns at once.
* A closed transport is never opened again (internal/transport/udp.go). After `Close` a second `Connect`
  succeeds and the state reads Connected, but nothing is sent and nothing is heard
  (`EngineReconnect.NothingSentAfterClose`).
* Error classes and codes are cut to eight bits, so codes from 256 on read as others
  (`ErrorReplies.ErrorRoundTrip`).
* A malformed bit string is an error to ReadProperty, but the ReadPropertyMultiple decoder reports it as an
  empty one.

## Model

| member | source | states |
|---|---|---|
| Integers.UnsignedRoundTrip | protocol.go:428-437 | decoding undoes encoding on all of uint32 |
| Integers.UnsignedShortest | protocol.go:614-627 | no payload of 1 to 4 bytes with the same value is shorter than the encoder's, and none of equal length differs from it |
| Integers.SignedRoundTrip | protocol.go:453-462 | decoding undoes encoding on all of int32, 3-byte sign extension included |
| Integers.SignedShortest | protocol.go:630-647 | the encoder's two's-complement form is the unique shortest one |
| Integers.OtherWidthsAreZero | protocol.go:614-647 | payloads of no width the format knows are read as zero |
| Integers.ObjectIdWraps | types.go:669-679 | out of range, type and instance are cut to 10 and 22 bits |
| Integers.ObjectIdRoundTrip | types.go:669-679 | packing and unpacking is the identity if and only if type < 1024 and instance < 2^22 |
| Integers.ObjectIdOnto | types.go:669-679 | every 32-bit word is the packing of what it unpacks to |
| Integers.DateRoundTrip | datetime.go:62-88 | a date survives if and only if its year is 1900 to 2154 or the wildcard |
| Integers.DateWraps | datetime.go:62-88 | out of range, the year is cut to a byte, and one of the 256 reads as the wildcard |
| Integers.TimeRoundTrip | datetime.go:116-129 | a time survives as it is |
| Integers.DateOnto | datetime.go:62-88 | every four-byte payload is re-encoded to itself |
| Tags.EncodeTagInto | protocol.go:372-403 | the buffer-growing encoder yields the specified header |
| Tags.DecodeTagNumber | protocol.go:556-611 | on any bytes the header lies within the data, is at most 7 bytes, and negative lengths occur only in context class |
| Tags.DecodeTagInto | protocol.go:556-611 | the decoder that updates number, length and header length step by step computes the specified header |
| Tags.DecodeShortNumber | protocol.go:372-403 | for numbers up to 14 the header is read back with its length modulo 2^32, whatever follows |
| Tags.TagHeaderRoundTrip | protocol.go:372-403 | number, class, length and exact header length are read back if and only if the length is 0, or the number is at most 14 and the length below 2^32 |
| Tags.BracketRoundTrip | protocol.go:412-425 | opening and closing tags of all 256 numbers are read back as such |
| Tags.HeaderReads | protocol.go:556-611 | every way of writing a header, short or long number, inline, one-, two- or four-byte length, opening or closing, is read as what it says, whatever follows |
| Tags.HeaderFound | protocol.go:556-611 | and whatever is read as a header was written in one of these ways |
| Tags.EncodesStandard | protocol.go:372-403 | the encoder prints the header of section 20.2.1 of ANSI/ASHRAE 135 if and only if the number is below 15 or the length 0 |
| Tags.TagHeaderStable | protocol.go:556-611 | a header that decodes keeps its reading under any extension of the data |
| Tags.TagHeaderShortest | protocol.go:372-403 | some shorter header reads the same if and only if the class is application and the length is 6 or 7 |
| BitStrings.NewBitStringFromBits | bitstring.go:133-148 | the in-place packing loop gives the list's length, every bit, zero padding and at most 7 unused bits |
| BitStrings.PackedUnique | bitstring.go:133-148 | bits and zero padding determine the bytes |
| BitStrings.NothingOutOfRange | bitstring.go:34-48 | no bit is set outside the length, and without bytes there is no length |
| BitStrings.BitStringRoundTrip | bitstring.go:92-120 | decode undoes encode if and only if unused bits are at most 7, and 0 when there are no bytes |
| BitStrings.BitStringCanonical | bitstring.go:92-120 | every accepted payload is the encoding of its decoding |
| Values.CharacterSets | protocol.go:689-726 | character sets 3, 4 and 5 are converted, every other one is taken as it stands |
| Values.PayloadWidths | client.go:826-875 | the fixed-width types accept exactly their width, bit strings what decodes, the others any; unknown tags yield the raw bytes |
| Values.ContextValue | client.go:805-808 | under any context header: a closing tag is nil, an opening tag an error, and a real length the raw bytes, or an error when they are cut short |
| Values.ApplicationValue | client.go:810-824 | under any application header: Null and Boolean from the header alone, all others from the payload, or an error when it is cut short |
| Values.NonNegativeIsUnsigned | client.go:942-948 | an `int32` comes back as an unsigned number if it is not negative and as a signed one if it is |
| Values.IntegersWrap | client.go:935-941 | an `int` that does not fit is read back as the same number modulo 2^32, signed if it was negative |
| Values.ValueStable | client.go:795-887 | a value that decodes keeps its reading under any extension of the data |
| Values.TaggedPrefix | client.go:821-824 | header and payload are separated as the length field, taken modulo 2^32, says |
| Values.PayloadRoundTrip | client.go:826-868 | per application tag the payload decodes to the value if and only if bit string, date or object id is representable |
| Values.ValueRoundTrip | client.go:795-887 | every application-tagged value, with any bytes behind it, is read back if and only if it is representable |
| Values.WrittenValueRoundTrip | client.go:929-964 | writing a Go value and reading it back keeps its meaning if and only if it is supported and fits (ints in -2^31 to 2^32-1, ids in range, strings below 2^32-1 bytes) |
| Skipping.SkipToContextClosingTag | client.go:1107-1126 | on any bytes the loop stops with the offset between its start and the end of the data, at what the specified skip leaves |
| Skipping.SkipElement | client.go:1108-1124 | any element, with any header the decoder accepts and the content it announces, is stepped over whole unless it is the wanted closing tag |
| Skipping.SkipExact | client.go:1107-1126 | over any list of such elements, the skip ends just past the closing tag that follows, in its one-byte or two-byte form, whatever comes behind |
| Skipping.SkipFinds | client.go:1107-1126 | conversely, where the skip leaves any bytes, what it went over is a list of such elements and such a closing tag |
| Skipping.SkipOne | client.go:1108-1124 | in particular what the repository's own encoders print is stepped over |
| Skipping.SkipTrue | client.go:1118-1123 | after Boolean true the next byte, whatever it is, is lost |
| Skipping.SkipMissesTagAfterTrue | client.go:1118-1123 | a concrete content on which the closing tag is missed, for every tag number below 15 |
| ReadProperty.ContextField | client.go:752-770 | a field is accepted only with a real length inside the data, so what remains is a strictly shorter suffix |
| ReadProperty.FieldRoundTrip | protocol.go:406-409 | a printed context field is read back with content and continuation, and is no field of any other number |
| ReadProperty.IndexRoundTrip | client.go:772-779 | peeking finds a printed index of any width and finds nothing where none was printed |
| ReadProperty.PeekIndex | client.go:1056-1066 | the offset never moves back or past the end, and the index is the one the specification finds |
| ReadProperty.FieldReads | client.go:752-770 | a context field in any form is read with content and continuation, under its own number only |
| ReadProperty.FieldFound | client.go:752-770 | and whatever is read as a field was written as one |
| ReadProperty.AckReads | client.go:745-792 | an Ack with fields in any form decodes to the value behind its opening tag, and is refused below eight bytes |
| ReadProperty.AckFound | client.go:745-792 | and whatever is accepted is such an Ack |
| ReadProperty.EmptyAckIsNil | client.go:805-808 | the Ack of an empty list, with or without index, decodes to nil without error |
| ReadProperty.DecodeReadPropertyAck | client.go:745-792 | the offset-moving decoder is total and computes the specified result |
| ReadProperty.ReadPropertyAckRoundTrip | client.go:745-792 | with any echoed object and property, with or without index, the value comes back if and only if it is representable; Boolean true included |
| ReadPropertyMultiple.BlockHead | client.go:1013-1030 | entering an object block consumes at least six bytes |
| ReadPropertyMultiple.DecodeObjects | client.go:1012-1030 | 2 * results + 6 * object blocks never exceeds the number of bytes |
| ReadPropertyMultiple.DecodeProperties | client.go:1033-1096 | the same bound from anywhere inside a block |
| ReadPropertyMultiple.MalformedBitString | client.go:1081-1081 | a malformed bit string is reported as the empty one |
| ReadPropertyMultiple.OtherErrorsAreNil | client.go:1081-1081 | any other value that does not decode is reported as nil |
| ReadPropertyMultiple.DecodeEntry | client.go:1034-1096 | one turn of the inner loop advances the offset or leaves the loop, and emits what the specification emits |
| ReadPropertyMultiple.DecodeReadPropertyMultipleAck | client.go:1008-1100 | the nested loops are total on every byte string, compute the specified results, and keep the size bound |
| RpmRoundTrip.SkipValues | client.go:1107-1126 | the walk over a content: each Boolean true takes the next one-byte value with it, or the closing tag |
| RpmRoundTrip.OverrunsOddTrues | client.go:1118-1123 | the walk loses the closing tag if and only if the content ends in an odd number of Boolean trues |
| RpmRoundTrip.SkipOwnContents | client.go:1077-1093 | skipping an entry's own content ends behind its closing tag, unless the content ends in an odd number of Boolean trues |
| RpmRoundTrip.DerailedEntry | client.go:1107-1126 | a derailed skip stops behind the next success that does not itself derail, and passes over everything else |
| RpmRoundTrip.DecodeEntryPrinted | client.go:1034-1096 | a printed entry yields its own result and the rest, or nothing for an access error, or derails |
| RpmRoundTrip.DecodeFrom | client.go:1033-1096 | anywhere inside a printed Ack the decoder returns exactly the survivors |
| RpmRoundTrip.DecodeDerailed | client.go:1107-1126 | what is returned after derailing, across entries, closing tags and object headers |
| RpmRoundTrip.DecodeAck | client.go:1008-1100 | the decoder's result for every well-formed printed Ack, misreadings included |
| RpmRoundTrip.DerailingLoses | client.go:1118-1123 | derailing never adds results, and loses at least one if any success follows |
| RpmRoundTrip.SurvivorsAreExpected | client.go:1008-1100 | the result is right if and only if no success follows a derailing entry |
| RpmRoundTrip.RpmAckRoundTrip | client.go:1008-1126 | for every list of objects and entries exactly the successes come back, in order, with object, index and value, if and only if no success whose content ends in an odd number of Boolean trues precedes another success |
| RpmRoundTrip.FirstValue | client.go:1078-1088 | of several values the first is reported, of none nil |
| RpmRoundTrip.EntriesThenAnything | client.go:1033-1096 | inside a block, whatever follows some entries that do not derail, their results come first |
| RpmRoundTrip.BlocksThenAnything | client.go:1012-1097 | whatever follows some blocks, their results come first and the rest is decoded as if alone |
| RpmRoundTrip.MissingClosingTag | client.go:1046-1049 | a block without its closing tag ends where the next one begins |
| RpmRoundTrip.NoBlockNoResults | client.go:1014-1017 | bytes that begin no block yield nothing, however much follows |
| RpmRoundTrip.RpmAckWithoutTrue | client.go:1008-1126 | Acks without Boolean true are always read back |
| RpmRoundTrip.BooleanArraysAreWalkable | client.go:1107-1126 | every array of Booleans and Nulls is among the contents these results cover |
| RpmRoundTrip.NumberBehindTrueDecides | client.go:1118-1123 | why longer values behind Boolean true are left out: the same content with one number is skipped right, with another it is not |
| RpmRoundTrip.TrueLosesTheNextProperty | client.go:1118-1123 | the smallest misread Ack and what comes back for it |
| RpmRequest.GroupByObject | client.go:975-979 | the loop maps each distinct object to its requests in the caller's order |
| RpmRequest.PrintGroup | client.go:982-991 | one group is printed as one object block |
| RpmRequest.BuildRequest | client.go:972-992 | whatever order the map is iterated in, the bytes are one block per distinct object, and they read back as a permutation that keeps the order within each object if and only if all object ids are in range |
| RpmRequest.ItemsReadBack | client.go:984-989 | property references, with and without index, are read back in order |
| RpmRequest.BlocksReadBack | client.go:981-992 | the blocks are read back object by object in the order printed |
| RpmRequest.SameSelectionsPermute | client.go:975-979 | lists that agree object by object are permutations of each other |
| RpmRequest.RequestRoundTrip | client.go:972-992 | the same of every iteration order, as a statement about the printed blocks |
| Packets.BvlcReads | protocol.go:42-51 | type, function and length are taken as they stand |
| Packets.BvlcRoundTrip | protocol.go:32-51 | type and function are read back, and the length field is the packet length if and only if that is below 65536 |
| Packets.DecodeNpdu | protocol.go:98-175 | on any bytes the reported offset lies between 2 and the end of the data |
| Packets.DecodeNpduInto | protocol.go:98-175 | the decoder that moves one offset and fills the fields computes the specified header |
| Packets.RoutedNpduRoundTrip | protocol.go:80-95 | a destination-routed header is read back with offset equal to its length if and only if the address has at most 255 bytes and the priority sets no other specifier |
| Packets.UnroutedNpduRoundTrip | protocol.go:68-77 | a plain header is read back with offset 2 if and only if the priority sets no specifier |
| Packets.DecodeApdu | protocol.go:225-252 | only seven PDU types are ever reported, each the high nibble of the first byte |
| Packets.ConfirmedRequestRoundTrip | protocol.go:193-213 | invoke ID, service, payload and negotiation fields are read back if and only if the fields fit 3 and 4 bits |
| Packets.NegotiationBits | protocol.go:200-201 | negotiation fields that do not fit run into each other bit by bit |
| PacketForms.ApduReads | protocol.go:225-367 | every APDU of the seven types, segmented or not, is read back in all its fields whatever its spare bits |
| PacketForms.ApduFound | protocol.go:225-367 | and whatever is read as an APDU was written as one |
| PacketForms.NpduReads | protocol.go:98-175 | every header, with any combination of destination, source and network message, is read back with the offset of what follows |
| PacketForms.NpduFound | protocol.go:98-175 | and whatever is read as a header was written as one |
| PacketForms.ForwardedOpens | client.go:267-275 | what a BBMD forwards, behind any six address bytes, is handled as if it had come directly |
| PacketForms.ShortPacketsAreDropped | client.go:261-275 | packets too short for their header or for the forwarding address are dropped |
| PacketForms.PacketDispatch | client.go:259-318 | where every packet goes by its contents, whatever its type and length bytes say: network messages and confirmed requests are dropped |
| PacketForms.DispatchedFound | client.go:259-318 | and whatever is not dropped was such a packet |
| ErrorReplies.UnsignedTagReads | client.go:337-350 | a number under any tag is read where it stands; a sentinel length or a cut payload is refused |
| ErrorReplies.ErrorReads | client.go:542-552 | class and code come back modulo 256, whatever follows |
| ErrorReplies.ErrorRoundTrip | client.go:542-552 | the error is told right if and only if class and code fit a byte |
| ErrorReplies.CutErrorIsRefused | client.go:542-552 | a payload that ends before or behind the class is refused |
| Packets.HandlePacket | client.go:259-318 | only the five reply types reach the response handler |
| Packets.EnvelopeOpens | client.go:470-481 | an unrouted envelope hands its APDU unchanged to the APDU decoder |
| Packets.RequestPacketRoundTrip | client.go:468-481 | the packet `sendRequest` builds decodes through all three layers to its invoke ID, service and payload, and its length field is right if and only if it is below 65536 bytes |
| Packets.ComplexAckDispatch | client.go:300-318 | a Complex-Ack packet reaches the response handler with its ID, service and payload |
| Packets.SegmentedAckDispatch | protocol.go:306-330 | a segment of a Complex-Ack reaches it with sequence number, window size and payload |
| Packets.RefusalDispatch | protocol.go:332-367 | an Error reaches it with ID, service and payload, a Reject or Abort with ID and reason |
| Packets.SimpleAckDispatch | client.go:300-318 | a Simple-Ack packet reaches it with its ID and service |
| Packets.UnconfirmedDispatch | client.go:561-579 | the packet `sendUnconfirmedRequest` builds, broadcast or not, is dispatched as the unconfirmed request it was built from |
| EngineSafety.AllocateKeeps | client.go:454-457 | taking an ID and making a channel keeps the invariant: tickets stay distinct, the channel is new and open |
| EngineSafety.RegisterKeeps | client.go:458-460 | registration keeps it even where it overwrites another's entry |
| EngineSafety.ReceiveKeeps | client.go:502-503 | receiving keeps it: the reply taken is recorded once and carries the request's ID |
| EngineSafety.DeleteKeeps | client.go:462-466 | the deferred delete keeps it even where it removes another's entry |
| EngineSafety.LookupFinds | client.go:436-438 | what a handler finds is open, registered and carries the reply's ID |
| EngineSafety.DeliverKeeps | client.go:440-445 | a delivery, though separate from its lookup, never meets a closed channel |
| EngineSafety.NoHandlersAtSwap | client.go:166-170 | when the channels are closed the receiver is gone and no handler is live |
| EngineSafety.SwapClosesOnce | client.go:173-178 | no channel in `pending` is closed already and none occurs under two IDs |
| EngineSafety.ClosedSendPanics | client.go:440-445 | a send on a closed channel would be seen |
| EngineSafety.SecondClosePanics | client.go:173-176 | and so would a second close |
| EngineSafety.StepKeepsInv | client.go:116-535 | every step of every goroutine keeps the engine invariant |
| EngineSafety.TraceKeepsInv | client.go:116-535 | so it holds in every state of every run |
| EngineSafety.RunsNeverPanic | client.go:160-178 | in no run is there a send on a closed channel or a second close; every registered channel and every channel a handler holds is open |
| EngineProvenance.RepliesWereRead | client.go:204-318 | in every run each reply a request has taken is what some packet read earlier in that run is dispatched as |
| EngineProvenance.RepliesNeverOutnumberReads | client.go:204-256 | in every run the replies taken never outnumber the packets read |
| EngineSafety.RepliesMatch | client.go:435-446 | in every run a request takes at most one reply, with its own invoke ID and a reply type, whatever wraparound did |
| EngineOutcomes.OutcomesAreTrue | client.go:502-535 | in every run a call ends answered exactly with the one acknowledgement it took, refused exactly with the one Error, Reject or Abort it took, and otherwise took nothing |
| EngineOutcomes.PhaseTellsHistory | client.go:449-535 | in every run a call is not connected, sent, failed to send, timed out, closed, or holding a reply if and only if that has happened to it, by the step where it did |
| EngineOutcomes.CallCanEnd | client.go:449-535 | from every state every call can end by its own steps and its context, and with which outcome |
| EngineOutcomes.BufferedStays | client.go:440-445 | in every run a buffered reply stays, whatever else arrives, until its request takes it |
| EngineOutcomes.ConnectionMoves | client.go:116-160 | which steps move the connection state, from where and to where |
| EngineWindow.InvokeIdIsLowByte | client.go:199-201 | the 32-bit wrap of the counter does not disturb the IDs |
| EngineWindow.IdsAreUnique | client.go:199-201 | inside the window an ID names at most one request in flight |
| EngineWindow.DeleteFindsOwn | client.go:462-466 | inside the window a deferred delete finds its own entry or none |
| EngineWindow.RegisterComplete | client.go:458-460 | from an exact map, a registration leaves it exact if and only if no other registered request holds the ID |
| EngineWindow.DeleteComplete | client.go:462-466 | the same of a deferred delete |
| EngineWindow.StepKeepsComplete | client.go:454-466 | from an exact map, any step of any goroutine leaves it exact if and only if it is no such collision |
| EngineWindow.ExactUnlessCollision | client.go:454-466 | along every run `pending` is exactly the ID-to-own-channel map of the unfinished requests registered since the last swap, up to any point, if and only if no request has registered or unregistered under an ID another registered request holds |
| EngineWindow.WindowedIsSafe | client.go:199-201 | inside the window no step collides |
| EngineWindow.WindowTheorem | client.go:454-466 | hence in every run inside the window `pending` is exact, and no delete removes another's entry |
| EngineWindow.WindowIsSharp | client.go:454-460 | from any state with a registered request 255 tickets behind the counter, the next allocation leaves the window and its registration takes the entry over |
| EngineWindow.OvertakenDeleteUnregisters | client.go:462-466 | the overtaken request's delete then unregisters the other one |
| EngineCollision.TwoRequestsCollide | client.go:1142-1158 | a complete run with never more than two requests in flight: a call waits, 127 whole subscriptions are answered, and the 128th takes over the call's entry and strands it |
| EngineCollision.Subscribes | client.go:1142-1158 | one whole subscription: an ID for itself, a request under the next one, and its Simple-Ack |
| EngineShutdown.SwapReleases | client.go:173-178 | the swap closes every registered channel and leaves what is buffered in it |
| EngineShutdown.ClosedForever | client.go:173-178 | no later step of any run reopens a channel |
| EngineShutdown.SuppliedCanFinish | client.go:497-535 | a request whose channel holds a reply or is closed can finish by its own steps, without its context, disturbing no other request: with the outcome its buffer decides, or a send error if the transport is closed before it sends |
| EngineShutdown.ReleasedCanFinish | client.go:497-507 | in particular a request whose channel `Close` closed can |
| EngineShutdown.ReleasedWaiter | client.go:497-507 | a released waiter gets its buffered reply first and otherwise the closed result |
| EngineShutdown.CloseReleasesWaiters | client.go:172-178 | in every run, each request whose channel is in `pending` at a swap can at any later moment finish by itself |
| EngineStranding.StrandedForever | client.go:172-178 | in every run, a waiting call that has lost its entry, with nothing buffered and no handler about to deliver to it, goes on waiting until its own context ends, through any replies, any `Close` and any later connection |
| EngineStranding.SwapReleasesExactly | client.go:172-178 | about to swap, a waiting request with nothing buffered can ever end without its context if and only if its channel is closed already or it is the entry under its own ID; the first is excluded for requests registered since the last swap |
| EngineStranding.LastCloseLeavesQuiet | client.go:154-186 | when the last `Close` call ends, no receiver and no handler is left |
| EngineStranding.StaysQuiet | client.go:155-157 | nothing but `Connect` changes that; a further `Close` returns at once and changes nothing |
| EngineStranding.LateCallWaits | client.go:449-507 | in every run, a call that waits then, such as one that registered after the swap, goes on waiting until its context ends or the client connects again |
| EngineStranding.QuietReleasesExactly | client.go:154-178 | it can ever end without its context, by connecting and closing again, if and only if its channel is closed already or it is the entry under its own ID |
| EngineReconnect.NothingSentAfterClose | client.go:180-182 | in every run, once a `Close` has closed the transport, no call that had not sent by then ever sends, whatever connects in between: it ends with a send error or as not connected |
| EngineReconnect.NothingHeardAfterClose | client.go:180-182 | nor does a call with nothing buffered by then ever take a reply |
| EngineShutdown.HandlerNeverBlocks | client.go:440-445 | a live handler can always take its next step |
| EngineShutdown.HandlersCanDrain | client.go:170-170 | from every reachable state handler steps alone empty the wait group's handlers |
| EngineShutdown.ReceiverCanExit | client.go:204-256 | a cancelled receiver can always reach its exit |
| EngineShutdown.CloseCanComplete | client.go:154-186 | from every reachable state a `Close` call can run to its end without any request moving |
| EngineShutdown.CloseCallCanComplete | client.go:154-160 | every `Close` call on a connected client, also beside others under way, goes through the whole shutdown and can end; on a disconnected client it changes nothing |
| EngineTermination.StepUsesWork | client.go:160-186 | once a `Close` call has cancelled the receiver, every receiver, handler and `Close` step uses up work, and no step of anything adds any |
| EngineTermination.ShutdownIsBounded | client.go:160-186 | hence in every run, from then until it ends, there are no more such steps than the work found at that moment |
| EngineTermination.ShutdownNeverStuck | client.go:160-186 | and until it has ended, one of them is possible in every state of every run |
| EngineCounters.PhaseBalance | client.go:484-535 | each step of a request moves every counter exactly with the number of requests it is about |
| EngineCounters.RepliesAreExpected | client.go:533-534 | the unexpected-PDU branch is unreachable |
| EngineCounters.StepKeepsBalance | client.go:581-597 | every step of every goroutine keeps the balances |
| EngineCounters.CountersBalance | client.go:484-535 | in every state of every run succeeded, failed and timed out are the numbers of requests with those outcomes; sent = succeeded + failed + timed out + closed + awaiting; active = requests inside their bracket; latency count = channel outcomes |
| EngineCounters.QuiescentBalance | client.go:484-535 | with nothing in progress the outcome counters account for everything sent and the gauge is 0 |
| Histogram.LatencyHistogram.constructor | metrics.go:89-94 | a new histogram summarizes no samples |
| Histogram.LatencyHistogram.Record | metrics.go:97-137 | the fields then summarize the samples so far and the new one |
| Histogram.LatencyHistogram.Stats | metrics.go:140-157 | the report is the one of the samples since the last reset |
| Histogram.LatencyHistogram.Reset | metrics.go:160-171 | the fields summarize no samples again |
| Histogram.NothingToReport | metrics.go:140-157 | an empty histogram reports zeros |
| Histogram.AverageIsCut | metrics.go:151-155 | the average of any samples is their sum divided and cut toward zero |
| Histogram.BucketsCount | metrics.go:113-136 | each bucket is the number of samples that fall into it |
| Histogram.BucketRange | metrics.go:113-136 | a duration falls into a bucket if and only if it lies between the bucket's bounds |
| Histogram.BucketsSum | metrics.go:103-136 | the buckets add up to the count |
| Histogram.MinIsTrue | metrics.go:106-108 | the minimum is right if and only if no sample is negative, or the last one is both negative and least |
| Histogram.MaxIsTrue | metrics.go:109-111 | the maximum is right if and only if some sample is not negative |
| Histogram.NegativeSampleIsForgotten | metrics.go:106-108 | a concrete pair of samples with a wrong minimum |
| Histogram.StatsAreTrue | metrics.go:140-157 | on any non-empty list of durations: true count, number of samples between each bucket's bounds, extremes and average, with Min <= Avg <= Max |
| EndToEnd.RequestsReachDevice | client.go:967-998 | the packet of any request list is served as a permutation of it, in order within each object, under its invoke ID, if and only if all object ids are in range |
| EngineDelivery.ReceiverCanRead | client.go:207-215 | a receiver at work can reach its next read, leaving all calls alone |
| EngineDelivery.ReplyReachesCaller | client.go:435-446 | any reply with the ID of a call that waits with an empty channel, while the receiver is at work and the transport open, can be read and brought to that call, which ends answered with it if it is an acknowledgement and refused if it is an Error, Reject or Abort; nothing else in progress is disturbed |
| EndToEnd.RefusalReachesCaller | client.go:514-531 | under the conditions of EngineDelivery.ReplyReachesCaller the packet of an Error, Reject or Abort is read and the call ends refused with precisely that reply |
| EndToEnd.ErrorReachesCaller | client.go:514-516 | and its caller is given the device's class and code if and only if both fit a byte |
| EndToEnd.AckReachesCaller | client.go:435-535 | under the same conditions the packet of a printed Ack is read, the call ends answered with precisely that Ack, without its context, and decodes exactly the printed successes under the condition of the round trip |

## Left out

- UDP sockets, deadlines and address resolution: of the transport only its being closed is modelled; until then sending succeeds or fails and bytes arrive nondeterministically.
- Real time, contexts and sleeping: cancellation is a step that may fire at any point of the wait; progress is stated as "can finish", not as a time bound.
- `Connect` overlapping a running `Close`: excluded by `Engine.ConnectEnabled`, as AUDIT.md:108 leaves that race to callers; several `Close` calls may overlap.
- The engine is modelled on values, as a transition system, not as an object with mutexes: each mutex section, atomic operation and channel operation is one step, and the loop that closes the pending channels is one step because it runs under the lock.
- `handleIAm`, `NewRemoteDevice`, `RegisterDevice`, `resolveDevice` and the device cache: they would add only straight-line members.
- Change-of-value subscriptions beyond the invoke ID they take, and the notification handler, which is a stub.
- BBMD registration, retries, options, version information, enumeration tables, string forms and error texts.
- Floating point: Real and Double are carried as 32-bit and 64-bit patterns.
- Character sets 3, 4 and 5: the decoded string keeps set and payload; the conversion to a Go string is not modelled.
- Conformance of an NPDU with both specifiers: the source reads the hop count before the source address, section 6.2 of ANSI/ASHRAE 135 puts it after; the model follows the source and claims no conformance there.
- Segment reassembly: the segmented flag and numbers are decoded, nothing more.
- The `recover()` net and logging: the decoders are shown total without them.
- `Metrics.Reset` in the middle of a run, and the counters for bytes, connections, devices and received PDUs.
- Overflow of the 64-bit histogram fields: `sum` and the counts are mathematical integers.
- RpmRoundTrip.RpmAckRoundTrip: speaks of Acks with object ids in range, representable values, and arrays in which a Boolean true that the skip meets is last or stands before a one-byte value, because before a longer value the skip goes on inside that value's bytes, which decide where it ends, as RpmRoundTrip.NumberBehindTrueDecides shows.
- RpmRoundTrip.SkipValues: the same restriction on what stands behind a Boolean true.
- RpmRoundTrip.SkipOwnContents: the same restriction on what stands behind a Boolean true.
- RpmRoundTrip.DerailedEntry: the same restriction on what stands behind a Boolean true.
- RpmRoundTrip.DecodeEntryPrinted: the same restriction on what stands behind a Boolean true.
- RpmRoundTrip.DecodeFrom: the same restriction on what stands behind a Boolean true.
- RpmRoundTrip.DecodeDerailed: the same restriction on what stands behind a Boolean true.
- RpmRoundTrip.DecodeAck: the same restriction on what stands behind a Boolean true.
- Skipping.SkipExact: excludes a closing tag of the wanted number inside the content, because the source does not count nesting, and counts the byte behind Boolean true as its content, because the source does.
- ReadProperty.ReadPropertyAckRoundTrip: prints opening tags in their one-byte form, because the decoder steps over them with one byte.
- EngineWindow.WindowTheorem: requires the run to have stayed in the window; EngineWindow.ExactUnlessCollision gives the exact condition without it.
