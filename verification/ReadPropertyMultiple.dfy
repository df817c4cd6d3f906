/**
 The ReadPropertyMultiple-Ack decoder (client.go, section 15.7 of ANSI/ASHRAE 135).
 */
module ReadPropertyMultiple {
  import opened Bytes
  import opened Integers
  import opened Tags
  import opened BitStrings
  import opened Values
  import opened Skipping
  import opened ReadProperty

  datatype PropertyValue = PropertyValue(
    oid: ObjectIdentifier, propertyId: uint32, arrayIndex: Option<uint32>, value: Value)

  /** What a decoder run produces: its results, and how many object blocks it entered. */
  datatype Run = Run(results: seq<PropertyValue>, blocks: nat)

  function Enter(r: Run): (r': Run) {
    Run(r.results, r.blocks + 1)
  }

  function Emit(pv: PropertyValue, r: Run): (r': Run) {
    Run([pv] + r.results, r.blocks)
  }

  /**
   The decoder drops the error of `decodePropertyValue` and keeps the value beside it: nil, except
   that a malformed bit string comes with an empty one.
   */
  function ValueDespiteError(s: seq<byte>): (v: Value) {
    var r, t := DecodePropertyValue(s), DecodeTagNumber(s);
    if r.Ok? then r.value
    else if t.Ok? && t.value.cls == Application && t.value.tagNum == TAG_BITS
            && t.value.headerLen + t.value.length <= |s| then
      Bits(BitString(0, []))
    else Nil
  }

  /** A bit string whose payload is there but malformed is reported as the empty one. */
  lemma MalformedBitString(f: HeaderForm, payload: seq<byte>, rest: seq<byte>)
    requires IsForm(f) && f.cls == Application && f.tagNum == TAG_BITS && LengthOf(f.form) == |payload|
    requires DecodeBitString(payload).Err?
    ensures ValueDespiteError(PrintHeader(f) + (payload + rest)) == Bits(BitString(0, []))
  {
    HeaderReads(f, payload + rest);
    ApplicationValue(f, payload + rest);
    hide DecodeTagNumber, PrintHeader, DecodePropertyValue;
    assert (payload + rest)[..|payload|] == payload;
  }

  /** Any other value that does not decode is reported as nil, and so is one that is cut short. */
  lemma OtherErrorsAreNil(s: seq<byte>)
    requires DecodePropertyValue(s).Err?
    requires DecodeTagNumber(s).Ok? ==>
               var h := DecodeTagNumber(s).value;
               h.cls == Context || h.tagNum != TAG_BITS || h.headerLen + h.length > |s|
    ensures ValueDespiteError(s) == Nil
  {
  }

  /** The object identifier and opening tag that start a block, and the block's first entry. */
  function BlockHead(s: seq<byte>): (r: Result<(ObjectIdentifier, seq<byte>)>)
    ensures r.Ok? ==> |r.value.1| + 6 <= |s|
  {
    var f := ContextField(s, 0);
    if f.Ok? && |f.value.0| == 4 && StartsWithOpening(f.value.1, 1) then
      Ok((DecodeObjectId(BigEndian32(f.value.0)), f.value.1[1..]))
    else Err
  }

  /** The outer loop: one block per object; anything else ends the run. */
  function DecodeObjects(s: seq<byte>): (r: Run)
    ensures 2 * |r.results| + 6 * r.blocks <= |s|
    decreases |s|, 0
  {
    var head := BlockHead(s);
    if head.Err? then Run([], 0)
    else Enter(DecodeProperties(head.value.0, head.value.1))
  }

  predicate StartsWithClosing(s: seq<byte>, tagNum: byte)
    ensures StartsWithClosing(s, tagNum) ==> |s| >= 1
  {
    var t := DecodeTagNumber(s);
    t.Ok? && t.value.tagNum == tagNum && t.value.length == CLOSING
  }

  /**
   The inner loop. Leaving it, by the closing tag or by a malformed entry, resumes the
   outer loop at the current position.
   */
  function DecodeProperties(oid: ObjectIdentifier, s: seq<byte>): (r: Run)
    ensures 2 * |r.results| + 6 * r.blocks <= |s|
    decreases |s|, 1
  {
    if StartsWithClosing(s, 1) then DecodeObjects(s[1..])
    else
      var f := ContextField(s, 2);
      if f.Err? then DecodeObjects(s)
      else
        var (index, s2) := OptionalIndex(f.value.1, 3);
        if StartsWithOpening(s2, 4) then
          Emit(PropertyValue(oid, DecodeUnsigned(f.value.0), index, ValueDespiteError(s2[1..])),
               DecodeProperties(oid, SkipRest(s2[1..], 4)))
        else if StartsWithOpening(s2, 5) then
          DecodeProperties(oid, SkipRest(s2[1..], 5))
        else DecodeObjects(s2)
  }

  // ---- The decoder as the source runs it -----------------------------------

  /** The three ways on from the current position of the inner loop. */
  lemma PropertiesLeave(oid: ObjectIdentifier, s: seq<byte>)
    ensures StartsWithClosing(s, 1) ==> DecodeProperties(oid, s) == DecodeObjects(s[1..])
    ensures !StartsWithClosing(s, 1) && ContextField(s, 2).Err? ==> DecodeProperties(oid, s) == DecodeObjects(s)
  {
    hide StartsWithClosing, ContextField, OptionalIndex, StartsWithOpening, DecodeObjects, SkipRest;
  }

  lemma PropertiesStay(oid: ObjectIdentifier, s: seq<byte>)
    requires !StartsWithClosing(s, 1) && ContextField(s, 2).Ok?
    ensures var f := ContextField(s, 2).value;
            var (index, s2) := OptionalIndex(f.1, 3);
            DecodeProperties(oid, s) ==
            if StartsWithOpening(s2, 4) then
              Emit(PropertyValue(oid, DecodeUnsigned(f.0), index, ValueDespiteError(s2[1..])),
                   DecodeProperties(oid, SkipRest(s2[1..], 4)))
            else if StartsWithOpening(s2, 5) then DecodeProperties(oid, SkipRest(s2[1..], 5))
            else DecodeObjects(s2)
  {
    hide StartsWithClosing, ContextField, OptionalIndex, StartsWithOpening, DecodeObjects, SkipRest;
  }

  /** One entry of the inner loop: the entry read at `offset`, if any, and where it leaves the offset. */
  method DecodeEntry(data: seq<byte>, start: nat, oid: ObjectIdentifier)
    returns (stay: bool, offset: nat, emitted: seq<PropertyValue>)
    requires start < |data|
    ensures start <= offset <= |data| && (stay ==> start < offset)
    ensures !stay ==> emitted == [] && DecodeProperties(oid, data[start..]) == DecodeObjects(data[offset..])
    ensures stay ==> DecodeProperties(oid, data[start..]).results
                     == emitted + DecodeProperties(oid, data[offset..]).results
  {
    hide DecodeTagNumber, DecodePropertyValue, DecodeUnsigned, ContextField, OptionalIndex, SkipRest,
      DecodeObjects, DecodeProperties, DecodeObjectId, ValueDespiteError;
    offset, emitted, stay := start, [], false;
    FieldAt(data, offset, 2);
    PropertiesLeave(oid, data[start..]);
    var t := DecodeTagNumber(data[offset..]);
    if t.Err? { return; }
    if t.value.length == CLOSING && t.value.tagNum == 1 {
      DropDrop(data, offset, 1);
      offset := offset + 1;
      return;
    }
    if t.value.tagNum != 2 || t.value.cls != Context { return; }
    if t.value.length < 0 || offset + t.value.headerLen + t.value.length > |data| { return; }
    PropertiesStay(oid, data[start..]);
    var propertyId := DecodeUnsigned(data[offset + t.value.headerLen..offset + t.value.headerLen + t.value.length]);
    offset := offset + t.value.headerLen + t.value.length;
    var arrayIndex;
    arrayIndex, offset := PeekIndex(data, offset, 3);
    if offset >= |data| { return; }
    t := DecodeTagNumber(data[offset..]);
    if t.Err? || t.value.cls != Context || t.value.length != OPENING { return; }
    if t.value.tagNum == 4 {
      DropDrop(data, offset, 1);
      offset := offset + 1;
      emitted := [PropertyValue(oid, propertyId, arrayIndex, ValueDespiteError(data[offset..]))];
      offset := SkipToContextClosingTag(data, offset, 4);
      stay := true;
    } else if t.value.tagNum == 5 {
      DropDrop(data, offset, 1);
      offset := offset + 1;
      offset := SkipToContextClosingTag(data, offset, 5);
      stay := true;
    }
  }

  /** The head of a block, read at an offset of a larger buffer. */
  lemma HeadAt(data: seq<byte>, offset: nat)
    requires offset <= |data|
    ensures var t := DecodeTagNumber(data[offset..]);
            if t.Err? || t.value.tagNum != 0 || t.value.cls != Context || t.value.length != 4
               || offset + t.value.headerLen + 4 > |data| then DecodeObjects(data[offset..]).results == []
            else
              var next := offset + t.value.headerLen + 4;
              var u := DecodeTagNumber(data[next..]);
              if u.Err? || u.value.tagNum != 1 || u.value.cls != Context || u.value.length != OPENING
              then DecodeObjects(data[offset..]).results == []
              else
                && next < |data|
                && DecodeObjects(data[offset..]).results
                   == DecodeProperties(DecodeObjectId(BigEndian32(data[offset + t.value.headerLen..next])),
                                       data[next + 1..]).results
  {
    hide DecodeTagNumber, ContextField, DecodeProperties, DecodeObjectId, BigEndian32;
    FieldAt(data, offset, 0);
    var t := DecodeTagNumber(data[offset..]);
    if t.Ok? && offset + t.value.headerLen + 4 < |data| {
      DropDrop(data, offset + t.value.headerLen + 4, 1);
    }
  }

  /**
   The two nested loops over one offset. Every slice is in range and every turn of either
   loop moves the offset or leaves the loop, on any bytes at all.
   */
  method DecodeReadPropertyMultipleAck(data: seq<byte>) returns (results: seq<PropertyValue>)
    ensures results == DecodeObjects(data).results
    ensures 2 * |results| + 6 * DecodeObjects(data).blocks <= |data|
  {
    hide DecodeTagNumber, DecodeProperties, DecodeObjects, DecodeObjectId, BigEndian32;
    results := [];
    var offset := 0;
    ghost var goal := DecodeObjects(data).results;
    assert data[0..] == data;
    while offset < |data|
      invariant 0 <= offset <= |data|
      invariant results + DecodeObjects(data[offset..]).results == goal
      decreases |data| - offset
    {
      HeadAt(data, offset);
      var t := DecodeTagNumber(data[offset..]);
      if t.Err? || t.value.tagNum != 0 || t.value.cls != Context || t.value.length != 4 { break; }
      if offset + t.value.headerLen + 4 > |data| { break; }
      var oid := DecodeObjectId(BigEndian32(data[offset + t.value.headerLen..offset + t.value.headerLen + 4]));
      ghost var head := offset;
      offset := offset + t.value.headerLen + 4;
      t := DecodeTagNumber(data[offset..]);
      if t.Err? || t.value.tagNum != 1 || t.value.cls != Context || t.value.length != OPENING { break; }
      offset := offset + 1;
      var stay := true;
      while stay && offset < |data|
        invariant head < offset <= |data|
        invariant stay ==> results + DecodeProperties(oid, data[offset..]).results == goal
        invariant !stay ==> results + DecodeObjects(data[offset..]).results == goal
        decreases |data| - offset, stay
      {
        var emitted: seq<PropertyValue>;
        stay, offset, emitted := DecodeEntry(data, offset, oid);
        results := results + emitted;
      }
      if stay { PropertiesAtEnd(oid, data[offset..]); }
    }
    if offset == |data| { ObjectsAtEnd(data[offset..]); }
  }

  lemma PropertiesAtEnd(oid: ObjectIdentifier, s: seq<byte>)
    requires s == []
    ensures DecodeProperties(oid, s) == DecodeObjects(s)
  {
  }

  lemma ObjectsAtEnd(s: seq<byte>)
    requires s == []
    ensures DecodeObjects(s) == Run([], 0)
  {
  }
}
