/**
 The ReadProperty-Ack decoder (client.go, section 15.5 of ANSI/ASHRAE 135), and the
 context-tagged fields that it shares with the ReadPropertyMultiple decoder.
 */
module ReadProperty {
  import opened Bytes
  import opened Integers
  import opened Tags
  import opened Values
  import opened Skipping

  // ---- Context-tagged fields -----------------------------------------------

  /**
   A context-tagged field with a real length that fits the data: its content and what
   follows it. Sentinel lengths are refused, so what follows is always shorter.
   */
  function ContextField(s: seq<byte>, tagNum: byte): (r: Result<(seq<byte>, seq<byte>)>)
    ensures r.Ok? ==> |r.value.1| < |s| && r.value.1 == s[|s| - |r.value.1|..]
    ensures r.Ok? ==> |r.value.0| + |r.value.1| < |s|
  {
    var t := DecodeTagNumber(s);
    if t.Err? then Err
    else
      var h := t.value;
      if h.tagNum != tagNum || h.cls != Context || h.length < 0 || h.headerLen + h.length > |s| then Err
      else Ok((s[h.headerLen..h.headerLen + h.length], s[h.headerLen + h.length..]))
  }

  /** The same field, read at an offset of a larger buffer. */
  lemma FieldAt(data: seq<byte>, offset: nat, tagNum: byte)
    requires offset <= |data|
    ensures var t := DecodeTagNumber(data[offset..]);
            ContextField(data[offset..], tagNum) ==
            if t.Err? || t.value.tagNum != tagNum || t.value.cls != Context || t.value.length < 0
               || offset + t.value.headerLen + t.value.length > |data| then Err
            else Ok((data[offset + t.value.headerLen..offset + t.value.headerLen + t.value.length],
                     data[offset + t.value.headerLen + t.value.length..]))
  {
    hide DecodeTagNumber;
    var s := data[offset..];
    var t := DecodeTagNumber(s);
    if t.Ok? && t.value.length >= 0 && offset + t.value.headerLen + t.value.length <= |data| {
      var a, b := t.value.headerLen, t.value.headerLen + t.value.length;
      assert s[a..b] == data[offset + a..offset + b];
      DropDrop(data, offset, b);
    }
  }

  /** The array index that may precede a value, found by peeking at the next tag. */
  function OptionalIndex(s: seq<byte>, tagNum: byte): (r: (Option<uint32>, seq<byte>))
    ensures |r.1| <= |s| && r.1 == s[|s| - |r.1|..]
  {
    var f := ContextField(s, tagNum);
    if f.Ok? then (Some(DecodeUnsigned(f.value.0)), f.value.1) else (None, s)
  }

  predicate StartsWithOpening(s: seq<byte>, tagNum: byte)
    ensures StartsWithOpening(s, tagNum) ==> |s| >= 1
  {
    var t := DecodeTagNumber(s);
    t.Ok? && t.value.tagNum == tagNum && t.value.cls == Context && t.value.length == OPENING
  }

  /** A field as any peer may write it. */
  predicate IsField(f: HeaderForm, content: seq<byte>, tagNum: byte) {
    IsForm(f) && f.cls == Context && f.tagNum == tagNum && LengthOf(f.form) == |content|
  }

  /** It is read with its content and its continuation, and under its own number only. */
  lemma FieldReads(f: HeaderForm, content: seq<byte>, rest: seq<byte>, tagNum: byte)
    requires IsField(f, content, tagNum)
    ensures ContextField(PrintHeader(f) + (content + rest), tagNum) == Ok((content, rest))
    ensures forall other :: other != tagNum ==> ContextField(PrintHeader(f) + (content + rest), other) == Err
  {
    hide PrintHeader, DecodeTagNumber;
    HeaderReads(f, content + rest);
    FieldAfter(PrintHeader(f), content, rest, |content|);
    assert content[..|content|] == content;
  }

  /** And whatever is read as a field was written as one. */
  lemma FieldFound(s: seq<byte>, tagNum: byte) returns (f: HeaderForm)
    requires ContextField(s, tagNum).Ok?
    ensures var (content, rest) := ContextField(s, tagNum).value;
            IsField(f, content, tagNum) && s == PrintHeader(f) + (content + rest)
  {
    f := HeaderFound(s);
    hide PrintHeader, DecodeTagNumber;
    var h := DecodeTagNumber(s).value;
    CutAt(s, h.headerLen, h.headerLen + h.length);
  }

  /** A printed field is read back with its content and its continuation. */
  lemma FieldRoundTrip(tagNum: byte, content: seq<byte>, rest: seq<byte>)
    requires tagNum <= 14 && |content| < 0x1_0000_0000
    ensures ContextField(EncodeContextTag(tagNum, content) + rest, tagNum) == Ok((content, rest))
    ensures forall other :: other != tagNum ==> ContextField(EncodeContextTag(tagNum, content) + rest, other) == Err
  {
    hide EncodeTag, DecodeTagNumber;
    var header := EncodeTag(tagNum, Context, |content|);
    assert EncodeContextTag(tagNum, content) + rest == header + (content + rest);
    TagHeaderRoundTrip(tagNum, Context, |content|, content + rest);
    FieldAfter(header, content, rest, |content|);
    assert content[..|content|] == content;
  }

  /** An opening tag is no field, and is recognised only under its own number. */
  lemma OpeningIsNoField(tagNum: byte, rest: seq<byte>, other: byte)
    ensures ContextField(Print(Opening(tagNum), rest), other) == Err
    ensures StartsWithOpening(Print(Opening(tagNum), rest), other) <==> tagNum == other
  {
    hide DecodeTagNumber;
    BracketRoundTrip(tagNum, rest);
  }

  function PrintIndex(tagNum: byte, index: Option<uint32>, rest: seq<byte>): (s: seq<byte>) {
    if index.Some? then EncodeContextUnsigned(tagNum, index.value) + rest else rest
  }

  /** Peeking finds the index when it was printed and finds nothing when it was not. */
  lemma IndexRoundTrip(tagNum: byte, index: Option<uint32>, tail: seq<byte>)
    requires tagNum <= 14 && ContextField(tail, tagNum).Err?
    ensures OptionalIndex(PrintIndex(tagNum, index, tail), tagNum) == (index, tail)
  {
    hide DecodeTagNumber, EncodeTag, EncodeUnsigned, DecodeUnsigned, ContextField, EncodeContextTag;
    if index.Some? {
      FieldRoundTrip(tagNum, EncodeUnsigned(index.value), tail);
      UnsignedRoundTrip(index.value);
    }
  }

  // ---- The decoder ---------------------------------------------------------

  function DecodeReadPropertyResponse(data: seq<byte>): (r: Result<Value>) {
    if |data| < 8 then Err
    else
      var f0 := ContextField(data, 0);
      if f0.Err? then Err
      else
        var f1 := ContextField(f0.value.1, 1);
        if f1.Err? then Err
        else
          var s := OptionalIndex(f1.value.1, 2).1;
          if StartsWithOpening(s, 3) then DecodePropertyValue(s[1..]) else Err
  }

  /** Peeks at the tag at `start` and steps over it when it is the wanted array index. */
  method PeekIndex(data: seq<byte>, start: nat, tagNum: byte) returns (index: Option<uint32>, offset: nat)
    requires start <= |data|
    ensures start <= offset <= |data|
    ensures OptionalIndex(data[start..], tagNum) == (index, data[offset..])
  {
    hide DecodeTagNumber, DecodeUnsigned, ContextField;
    index, offset := None, start;
    FieldAt(data, offset, tagNum);
    if offset < |data| {
      var t := DecodeTagNumber(data[offset..]);
      if t.Ok? && t.value.tagNum == tagNum && t.value.cls == Context && t.value.length >= 0
         && offset + t.value.headerLen + t.value.length <= |data| {
        index := Some(DecodeUnsigned(data[offset + t.value.headerLen..offset + t.value.headerLen + t.value.length]));
        offset := offset + t.value.headerLen + t.value.length;
      }
    }
  }

  /**
   The decoder as the source runs it, one offset over one buffer. Each step moves the
   offset forward, by the refusal of sentinel lengths in every slot.
   */
  method DecodeReadPropertyAck(data: seq<byte>) returns (r: Result<Value>)
    ensures r == DecodeReadPropertyResponse(data)
  {
    hide DecodeTagNumber, DecodePropertyValue, ContextField, OptionalIndex;
    if |data| < 8 { return Err; }
    var offset := 0;
    assert data[0..] == data;
    FieldAt(data, offset, 0);
    var t := DecodeTagNumber(data[offset..]);
    if t.Err? || t.value.tagNum != 0 || t.value.cls != Context || t.value.length < 0 { return Err; }
    if offset + t.value.headerLen + t.value.length > |data| { return Err; }
    offset := offset + t.value.headerLen + t.value.length;

    FieldAt(data, offset, 1);
    t := DecodeTagNumber(data[offset..]);
    if t.Err? || t.value.tagNum != 1 || t.value.cls != Context || t.value.length < 0 { return Err; }
    if offset + t.value.headerLen + t.value.length > |data| { return Err; }
    offset := offset + t.value.headerLen + t.value.length;

    var _, next := PeekIndex(data, offset, 2);
    offset := next;
    if |data| <= offset { return Err; }
    t := DecodeTagNumber(data[offset..]);
    if t.Err? || t.value.tagNum != 3 || t.value.cls != Context || t.value.length != OPENING { return Err; }
    DropDrop(data, offset, 1);
    offset := offset + 1;
    r := DecodePropertyValue(data[offset..]);
  }

  // ---- Every Ack there is --------------------------------------------------

  /** An optional field that stands in front of `rest`. */
  function PrintOptional(field: Option<(HeaderForm, seq<byte>)>, rest: seq<byte>): (s: seq<byte>)
    requires field.Some? ==> IsForm(field.value.0)
  {
    if field.Some? then PrintHeader(field.value.0) + (field.value.1 + rest) else rest
  }

  /** A ReadProperty-Ack as any peer may write it, up to and without the tag that opens the value. */
  datatype AckHead = AckHead(
    objectField: (HeaderForm, seq<byte>), propertyField: (HeaderForm, seq<byte>),
    index: Option<(HeaderForm, seq<byte>)>)

  predicate IsAckHead(a: AckHead) {
    && IsField(a.objectField.0, a.objectField.1, 0) && IsField(a.propertyField.0, a.propertyField.1, 1)
    && (a.index.Some? ==> IsField(a.index.value.0, a.index.value.1, 2))
  }

  function PrintAckHead(a: AckHead, rest: seq<byte>): (s: seq<byte>)
    requires IsAckHead(a)
  {
    PrintHeader(a.objectField.0) + (a.objectField.1
      + (PrintHeader(a.propertyField.0) + (a.propertyField.1 + PrintOptional(a.index, rest))))
  }

  /**
   Whatever the forms of its fields, the value is decoded from the byte behind the first byte of
   the tag that opens it; an Ack of fewer than eight bytes is refused.
   */
  lemma AckReads(a: AckHead, rest: seq<byte>)
    requires IsAckHead(a) && StartsWithOpening(rest, 3)
    ensures var s := PrintAckHead(a, rest);
            DecodeReadPropertyResponse(s) == if |s| < 8 then Err else DecodePropertyValue(rest[1..])
  {
    hide PrintHeader, DecodePropertyValue, ContextField, IsForm;
    var s2 := PrintOptional(a.index, rest);
    var s1 := PrintHeader(a.propertyField.0) + (a.propertyField.1 + s2);
    FieldReads(a.objectField.0, a.objectField.1, s1, 0);
    FieldReads(a.propertyField.0, a.propertyField.1, s2, 1);
    if a.index.Some? {
      FieldReads(a.index.value.0, a.index.value.1, rest, 2);
    } else {
      OpeningHasNoLength(rest, 3, 2);
    }
  }

  lemma OpeningHasNoLength(s: seq<byte>, tagNum: byte, other: byte)
    requires StartsWithOpening(s, tagNum)
    ensures ContextField(s, other) == Err
  {
    hide DecodeTagNumber;
  }

  /** And whatever is accepted is such an Ack. */
  lemma AckFound(s: seq<byte>) returns (a: AckHead, rest: seq<byte>)
    requires DecodeReadPropertyResponse(s).Ok?
    ensures IsAckHead(a) && StartsWithOpening(rest, 3) && s == PrintAckHead(a, rest)
    ensures DecodeReadPropertyResponse(s) == DecodePropertyValue(rest[1..])
  {
    hide PrintHeader, DecodePropertyValue, ContextField, IsForm;
    var f0 := FieldFound(s, 0);
    var s1 := ContextField(s, 0).value.1;
    var f1 := FieldFound(s1, 1);
    var s2 := ContextField(s1, 1).value.1;
    rest := OptionalIndex(s2, 2).1;
    var index := None;
    if ContextField(s2, 2).Ok? {
      var f2 := FieldFound(s2, 2);
      index := Some((f2, ContextField(s2, 2).value.0));
    }
    a := AckHead((f0, ContextField(s, 0).value.0), (f1, ContextField(s1, 1).value.0), index);
  }

  // ---- Round trip ----------------------------------------------------------

  /** A ReadProperty-Ack as a device prints it. */
  function PrintReadPropertyAck(oid: ObjectIdentifier, propertyId: uint32, index: Option<uint32>, v: AppValue)
    : (s: seq<byte>)
  {
    EncodeContextObjectId(0, oid) + (EncodeContextUnsigned(1, propertyId)
      + PrintIndex(2, index, Print(Opening(3), EncodeValue(v) + Print(Closing(3), []))))
  }

  /**
   Whatever object and property are echoed, with or without an array index of any width,
   the value comes back, exactly when the wire format can carry it.
   */
  lemma ReadPropertyAckRoundTrip(oid: ObjectIdentifier, propertyId: uint32, index: Option<uint32>, v: AppValue)
    ensures DecodeReadPropertyResponse(PrintReadPropertyAck(oid, propertyId, index, v)) == Ok(Surface(v))
            <==> Representable(v)
  {
    hide EncodeTag, DecodeTagNumber, EncodeUnsigned, EncodeObjectId, EncodeValue, DecodePropertyValue,
      ContextField, OptionalIndex, StartsWithOpening, Surface, Representable, PrintIndex, EncodeContextTag, Print;
    var close := Print(Closing(3), []);
    var body := EncodeValue(v) + close;
    var tail := Print(Opening(3), body);
    var s2 := PrintIndex(2, index, tail);
    var s1 := EncodeContextUnsigned(1, propertyId) + s2;
    FieldRoundTrip(0, EncodeObjectId(oid), s1);
    FieldRoundTrip(1, EncodeUnsigned(propertyId), s2);
    OpeningIsNoField(3, body, 2);
    IndexRoundTrip(2, index, tail);
    OpeningIsNoField(3, body, 3);
    ValueRoundTrip(v, close);
    AckParts(oid, propertyId, index, v);
  }

  /** The Ack of an empty list: nothing stands between the brackets, and nothing is read. */
  function PrintEmptyAck(oid: ObjectIdentifier, propertyId: uint32, index: Option<uint32>): (s: seq<byte>) {
    EncodeContextObjectId(0, oid) + (EncodeContextUnsigned(1, propertyId)
      + PrintIndex(2, index, Print(Opening(3), Print(Closing(3), []))))
  }

  lemma EmptyAckIsNil(oid: ObjectIdentifier, propertyId: uint32, index: Option<uint32>)
    ensures DecodeReadPropertyResponse(PrintEmptyAck(oid, propertyId, index)) == Ok(Nil)
  {
    hide EncodeTag, DecodeTagNumber, EncodeUnsigned, EncodeObjectId, DecodePropertyValue,
      ContextField, OptionalIndex, StartsWithOpening, PrintIndex, EncodeContextTag, Print;
    var close := Print(Closing(3), []);
    var tail := Print(Opening(3), close);
    var s2 := PrintIndex(2, index, tail);
    FieldRoundTrip(0, EncodeObjectId(oid), EncodeContextUnsigned(1, propertyId) + s2);
    FieldRoundTrip(1, EncodeUnsigned(propertyId), s2);
    OpeningIsNoField(3, close, 2);
    IndexRoundTrip(2, index, tail);
    OpeningIsNoField(3, close, 3);
    EmptyAckParts(oid, propertyId, index);
  }

  lemma EmptyAckParts(oid: ObjectIdentifier, propertyId: uint32, index: Option<uint32>)
    ensures |PrintEmptyAck(oid, propertyId, index)| >= 8
    ensures Print(Opening(3), Print(Closing(3), []))[1..] == Print(Closing(3), [])
    ensures DecodePropertyValue(Print(Closing(3), [])) == Ok(Nil)
  {
    hide EncodeUnsigned, EncodeObjectId;
  }

  /** The Ack is never shorter than the eight bytes the decoder insists on. */
  lemma AckParts(oid: ObjectIdentifier, propertyId: uint32, index: Option<uint32>, v: AppValue)
    ensures |PrintReadPropertyAck(oid, propertyId, index, v)| >= 8
    ensures Print(Opening(3), EncodeValue(v) + Print(Closing(3), []))[1..] == EncodeValue(v) + Print(Closing(3), [])
  {
    hide EncodeValue, EncodeUnsigned, EncodeObjectId;
  }
}
