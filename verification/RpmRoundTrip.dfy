/**
 Printing ReadPropertyMultiple-Acks and what the decoder makes of them.

 An Ack is printed with the repository's own encoders. `Survivors` says what the decoder
 returns for every printed Ack, including those on which Boolean true derails the skip;
 from it follows exactly when the decoder is right.
 */
module RpmRoundTrip {
  import opened Bytes
  import opened Integers
  import opened Tags
  import opened Values
  import opened Skipping
  import opened ReadProperty
  import opened ReadPropertyMultiple

  // ---- Acks ----------------------------------------------------------------

  /** A property read yields values (one, or none or many of a list or array) or an access error. */
  datatype Outcome =
    | Success(values: seq<AppValue>)
    | AccessError(errorClass: uint32, errorCode: uint32)

  datatype Entry = Entry(propertyId: uint32, arrayIndex: Option<uint32>, outcome: Outcome)
  datatype ObjectResult = ObjectResult(oid: ObjectIdentifier, entries: seq<Entry>)

  /** The bytes of some values, followed by `rest`. */
  function PrintValues(vs: seq<AppValue>, rest: seq<byte>): (s: seq<byte>) {
    if vs == [] then rest else EncodeValue(vs[0]) + PrintValues(vs[1..], rest)
  }

  function Contents(o: Outcome): (vs: seq<AppValue>) {
    match o
    case Success(vs) => vs
    case AccessError(c, e) => [AppEnumerated(c), AppEnumerated(e)]
  }

  function OutcomeTag(o: Outcome): (t: byte) {
    if o.Success? then 4 else 5
  }

  function PrintOutcome(o: Outcome, rest: seq<byte>): (s: seq<byte>) {
    Print(Opening(OutcomeTag(o)), PrintValues(Contents(o), Print(Closing(OutcomeTag(o)), rest)))
  }

  function PrintEntry(e: Entry, rest: seq<byte>): (s: seq<byte>) {
    EncodeContextUnsigned(2, e.propertyId) + PrintIndex(3, e.arrayIndex, PrintOutcome(e.outcome, rest))
  }

  function PrintEntries(es: seq<Entry>, rest: seq<byte>): (s: seq<byte>) {
    if es == [] then rest else PrintEntry(es[0], PrintEntries(es[1..], rest))
  }

  /** The rest of an Ack: the remaining entries of the current object, then further objects. */
  function PrintFrom(es: seq<Entry>, os: seq<ObjectResult>): (s: seq<byte>)
    decreases |os|, 1
  {
    PrintEntries(es, Print(Closing(1), PrintAck(os)))
  }

  function PrintAck(os: seq<ObjectResult>): (s: seq<byte>)
    decreases |os|, 0
  {
    if os == [] then []
    else EncodeContextObjectId(0, os[0].oid) + Print(Opening(1), PrintFrom(os[0].entries, os[1..]))
  }

  // ---- What should and what does come back ---------------------------------

  /** Of several values the decoder reports the first, of none nil. */
  function FirstOf(vs: seq<AppValue>): (v: Value) {
    if vs == [] then Nil else Surface(vs[0])
  }

  function ResultOf(oid: ObjectIdentifier, e: Entry): (pv: PropertyValue)
    requires e.outcome.Success?
  {
    PropertyValue(oid, e.propertyId, e.arrayIndex, FirstOf(e.outcome.values))
  }

  /** Exactly the successful entries, in order, each under its own object. */
  function ExpectedFrom(oid: ObjectIdentifier, es: seq<Entry>, os: seq<ObjectResult>): (r: seq<PropertyValue>)
    decreases |os|, 1, |es|
  {
    if es == [] then Expected(os)
    else if es[0].outcome.Success? then [ResultOf(oid, es[0])] + ExpectedFrom(oid, es[1..], os)
    else ExpectedFrom(oid, es[1..], os)
  }

  function Expected(os: seq<ObjectResult>): (r: seq<PropertyValue>)
    decreases |os|, 0, 0
  {
    if os == [] then [] else ExpectedFrom(os[0].oid, os[0].entries, os[1..])
  }

  /** The content ends in an odd number of Boolean trues. */
  predicate OddTrues(vs: seq<AppValue>) {
    vs != [] && IsTrue(vs[|vs| - 1]) && !OddTrues(vs[..|vs| - 1])
  }

  /**
   A successful entry whose closing tag is not seen. Each Boolean true hides what stands behind
   it, so trues cancel in pairs, and the last of an odd number at the end hides the closing tag.
   */
  predicate Derails(e: Entry) {
    e.outcome.Success? && OddTrues(Contents(e.outcome))
  }

  function SurvivorsFrom(oid: ObjectIdentifier, es: seq<Entry>, os: seq<ObjectResult>): (r: seq<PropertyValue>)
    decreases |os|, 1, |es|
  {
    if es == [] then Survivors(os)
    else if es[0].outcome.AccessError? then SurvivorsFrom(oid, es[1..], os)
    else if Derails(es[0]) then [ResultOf(oid, es[0])] + SurvivorsAfterDerailing(oid, es[1..], os)
    else [ResultOf(oid, es[0])] + SurvivorsFrom(oid, es[1..], os)
  }

  function Survivors(os: seq<ObjectResult>): (r: seq<PropertyValue>)
    decreases |os|, 0, 0
  {
    if os == [] then [] else SurvivorsFrom(os[0].oid, os[0].entries, os[1..])
  }

  /**
   Once derailed, the skip runs through entries, closing tags and object headers alike and
   stops only behind the next successful entry that does not itself derail it. That entry is
   lost, and what follows it is read under the old object identifier.
   */
  function SurvivorsAfterDerailing(oid: ObjectIdentifier, es: seq<Entry>, os: seq<ObjectResult>)
    : (r: seq<PropertyValue>)
    decreases |os|, 1, |es|
  {
    if es == [] then
      if os == [] then [] else SurvivorsAfterDerailing(oid, os[0].entries, os[1..])
    else if es[0].outcome.Success? && !Derails(es[0]) then SurvivorsFrom(oid, es[1..], os)
    else SurvivorsAfterDerailing(oid, es[1..], os)
  }

  // ---- Well-formed Acks ----------------------------------------------------

  /** A value that the skip can lose behind Boolean true without losing its place. */
  predicate OneByte(v: AppValue) {
    |EncodeValue(v)| == 1
  }

  /** The skip never lands inside a value: what it loses behind Boolean true is a whole one. */
  predicate Walkable(vs: seq<AppValue>) {
    if vs == [] then true
    else if !IsTrue(vs[0]) then Walkable(vs[1..])
    else |vs| == 1 || (OneByte(vs[1]) && Walkable(vs[2..]))
  }

  predicate WellformedEntry(e: Entry) {
    (forall v :: v in Contents(e.outcome) ==> Representable(v)) && Walkable(Contents(e.outcome))
  }

  predicate WellformedFrom(es: seq<Entry>, os: seq<ObjectResult>) {
    && (forall e :: e in es ==> WellformedEntry(e))
    && WellformedAck(os)
  }

  predicate WellformedAck(os: seq<ObjectResult>) {
    forall o :: o in os ==> InRange(o.oid) && forall e :: e in o.entries ==> WellformedEntry(e)
  }

  // ---- Skipping printed content --------------------------------------------

  /** The walk of the skip over a content loses the closing tag behind it. */
  predicate Overruns(vs: seq<AppValue>) {
    if vs == [] then false
    else if !IsTrue(vs[0]) then Overruns(vs[1..])
    else |vs| == 1 || Overruns(vs[2..])
  }

  predicate AllTrue(vs: seq<AppValue>) {
    forall v :: v in vs ==> IsTrue(v)
  }

  /** A value in front matters to the end of the content only through a row of trues. */
  lemma {:induction false} OddTruesCons(v: AppValue, vs: seq<AppValue>)
    ensures OddTrues([v] + vs) == if AllTrue(vs) && IsTrue(v) then !OddTrues(vs) else OddTrues(vs)
  {
    var all := [v] + vs;
    if vs == [] {
      assert all[..|all| - 1] == [];
    } else {
      var front, last := vs[..|vs| - 1], vs[|vs| - 1];
      assert all[..|all| - 1] == [v] + front && all[|all| - 1] == last;
      OddTruesCons(v, front);
      assert AllTrue(vs) <==> AllTrue(front) && IsTrue(last) by { assert vs == front + [last]; }
    }
  }

  /** The walk overruns exactly the contents that end in an odd number of Boolean trues. */
  lemma {:induction false} OverrunsOddTrues(vs: seq<AppValue>)
    ensures Overruns(vs) <==> OddTrues(vs)
  {
    hide AllTrue, OddTrues;
    if vs == [] {
      NoTrues();
    } else {
      assert vs == [vs[0]] + vs[1..];
      OddTruesCons(vs[0], vs[1..]);
      if !IsTrue(vs[0]) {
        OverrunsOddTrues(vs[1..]);
      } else if |vs| == 1 {
        assert vs[1..] == [];
        NoTrues();
      } else {
        assert vs[1..] == [vs[1]] + vs[2..];
        OddTruesCons(vs[1], vs[2..]);
        AllTrueCons(vs[1], vs[2..]);
        OverrunsOddTrues(vs[2..]);
      }
    }
  }

  lemma NoTrues()
    ensures !OddTrues([]) && AllTrue([])
  {
  }

  lemma AllTrueCons(v: AppValue, vs: seq<AppValue>)
    ensures AllTrue([v] + vs) <==> IsTrue(v) && AllTrue(vs)
  {
    assert forall x :: x in [v] + vs <==> x == v || x in vs;
  }

  lemma SkipValue(v: AppValue, rest: seq<byte>, wantTag: byte)
    requires Representable(v) && !IsTrue(v)
    ensures SkipRest(EncodeValue(v) + rest, wantTag) == SkipRest(rest, wantTag)
  {
    hide EncodeValue, Print, Wellformed, Representable, SkipRest;
    ValueIsElement(v, rest);
    SkipOne(ElementOf(v), rest, wantTag);
  }

  /** A content and the one-byte closing tag behind it, walked from the front. */
  lemma {:induction false} SkipValues(vs: seq<AppValue>, close: byte, rest: seq<byte>, wantTag: byte)
    requires (forall v :: v in vs ==> Representable(v)) && Walkable(vs)
    ensures SkipRest(PrintValues(vs, [close] + rest), wantTag)
            == if Overruns(vs) then SkipRest(rest, wantTag) else SkipRest([close] + rest, wantTag)
  {
    hide EncodeValue, Representable, SkipRest;
    if vs != [] {
      if !IsTrue(vs[0]) {
        SkipValue(vs[0], PrintValues(vs[1..], [close] + rest), wantTag);
        SkipValues(vs[1..], close, rest, wantTag);
      } else if |vs| == 1 {
        assert vs[1..] == [];
        SkipTrue(close, rest, wantTag);
      } else {
        var tail := PrintValues(vs[2..], [close] + rest);
        assert vs[1..][1..] == vs[2..];
        assert EncodeValue(vs[1]) == [EncodeValue(vs[1])[0]];
        SkipTrue(EncodeValue(vs[1])[0], tail, wantTag);
        SkipValues(vs[2..], close, rest, wantTag);
      }
    }
  }

  /**
   Skipping the content of an outcome: if it derails, the closing tag is lost and the skip
   goes on behind it, otherwise the skip stands in front of the closing tag.
   */
  lemma SkipContents(e: Entry, rest: seq<byte>, wantTag: byte)
    requires WellformedEntry(e)
    ensures var close := Print(Closing(OutcomeTag(e.outcome)), rest);
            SkipRest(PrintValues(Contents(e.outcome), close), wantTag)
            == if Derails(e) then SkipRest(rest, wantTag) else SkipRest(close, wantTag)
  {
    if e.outcome.AccessError? { ErrorsEndInNumbers(e.outcome); }
    hide EncodeValue, Representable, SkipRest, PrintValues, Contents, OddTrues;
    var vs, tag := Contents(e.outcome), OutcomeTag(e.outcome);
    assert Print(Closing(tag), rest) == [EncodeClosingTag(tag)[0]] + rest;
    SkipValues(vs, EncodeClosingTag(tag)[0], rest, wantTag);
    OverrunsOddTrues(vs);
  }

  lemma ErrorsEndInNumbers(o: Outcome)
    requires o.AccessError?
    ensures !OddTrues(Contents(o))
  {
  }

  /** The skip that the decoder runs behind an outcome's opening tag. */
  lemma SkipOwnContents(e: Entry, rest: seq<byte>)
    requires WellformedEntry(e)
    ensures var tag := OutcomeTag(e.outcome);
            SkipRest(PrintValues(Contents(e.outcome), Print(Closing(tag), rest)), tag)
            == if Derails(e) then SkipRest(rest, tag) else rest
  {
    hide SkipRest, Print, PrintValues, Contents, Derails;
    SkipContents(e, rest, OutcomeTag(e.outcome));
    SkipClose(OutcomeTag(e.outcome), rest);
  }

  // ---- A derailed skip -----------------------------------------------------

  lemma FieldIsElement(tagNum: byte, content: seq<byte>, rest: seq<byte>)
    requires tagNum <= 14 && |content| < 0x1_0000_0000
    ensures EncodeContextTag(tagNum, content) + rest == Print(Primitive(tagNum, Context, content), rest)
    ensures Wellformed(Primitive(tagNum, Context, content))
  {
    hide EncodeTag;
    var header := EncodeTag(tagNum, Context, |content|);
    assert header + content + rest == header + (content + rest);
  }

  lemma SkipField(tagNum: byte, content: seq<byte>, rest: seq<byte>, wantTag: byte)
    requires tagNum <= 14 && |content| < 0x1_0000_0000
    ensures SkipRest(EncodeContextTag(tagNum, content) + rest, wantTag) == SkipRest(rest, wantTag)
  {
    hide SkipRest, Print, EncodeContextTag, Wellformed;
    FieldIsElement(tagNum, content, rest);
    SkipOne(Primitive(tagNum, Context, content), rest, wantTag);
  }

  lemma SkipIndex(index: Option<uint32>, rest: seq<byte>, wantTag: byte)
    ensures SkipRest(PrintIndex(3, index, rest), wantTag) == SkipRest(rest, wantTag)
  {
    hide SkipRest, EncodeContextTag, EncodeUnsigned;
    if index.Some? {
      SkipField(3, EncodeUnsigned(index.value), rest, wantTag);
    }
  }

  /** A skip that wants the value's closing tag and meets a whole entry. */
  lemma DerailedEntry(e: Entry, rest: seq<byte>)
    requires WellformedEntry(e)
    ensures SkipRest(PrintEntry(e, rest), 4)
            == if e.outcome.Success? && !Derails(e) then rest else SkipRest(rest, 4)
  {
    hide SkipRest, EncodeContextTag, EncodeUnsigned, Print, PrintValues, PrintIndex, Contents, Derails, WellformedEntry;
    var tag := OutcomeTag(e.outcome);
    var close := Print(Closing(tag), rest);
    var body := PrintValues(Contents(e.outcome), close);
    SkipField(2, EncodeUnsigned(e.propertyId), PrintIndex(3, e.arrayIndex, PrintOutcome(e.outcome, rest)), 4);
    SkipIndex(e.arrayIndex, PrintOutcome(e.outcome, rest), 4);
    SkipOne(Opening(tag), body, 4);
    SkipContents(e, rest, 4);
    if e.outcome.Success? {
      SkipClose(4, rest);
    } else {
      NoErrorDerails(e);
      SkipOne(Closing(5), rest, 4);
    }
  }

  lemma NoErrorDerails(e: Entry)
    requires e.outcome.AccessError?
    ensures !Derails(e)
  {
  }

  lemma DerailedHead(oid: ObjectIdentifier, rest: seq<byte>)
    ensures SkipRest(Print(Closing(1), EncodeContextObjectId(0, oid) + Print(Opening(1), rest)), 4)
            == SkipRest(rest, 4)
  {
    hide SkipRest, EncodeContextTag, EncodeObjectId, Print;
    var tail := Print(Opening(1), rest);
    SkipOne(Closing(1), EncodeContextObjectId(0, oid) + tail, 4);
    SkipField(0, EncodeObjectId(oid), tail, 4);
    SkipOne(Opening(1), rest, 4);
  }

  // ---- The decoder on printed Acks -----------------------------------------

  /** One printed entry through the inner loop. */
  lemma DecodeEntryPrinted(oid: ObjectIdentifier, e: Entry, rest: seq<byte>)
    requires WellformedEntry(e)
    ensures DecodeProperties(oid, PrintEntry(e, rest)).results ==
            if e.outcome.AccessError? then DecodeProperties(oid, rest).results
            else [ResultOf(oid, e)]
                 + DecodeProperties(oid, if Derails(e) then SkipRest(rest, 4) else rest).results
  {
    hide SkipRest, EncodeContextTag, EncodeUnsigned, DecodeUnsigned, Print, PrintValues, PrintIndex, Contents, Derails,
      ContextField, OptionalIndex, StartsWithOpening, StartsWithClosing, DecodeObjects, WellformedEntry,
      ValueDespiteError, Surface;
    var tag := OutcomeTag(e.outcome);
    var body := PrintValues(Contents(e.outcome), Print(Closing(tag), rest));
    var tail := PrintIndex(3, e.arrayIndex, PrintOutcome(e.outcome, rest));
    FieldRoundTrip(2, EncodeUnsigned(e.propertyId), tail);
    FieldIsNotClosing(2, EncodeUnsigned(e.propertyId), tail, 1);
    UnsignedRoundTrip(e.propertyId);
    OpeningIsNoField(tag, body, 3);
    IndexRoundTrip(3, e.arrayIndex, PrintOutcome(e.outcome, rest));
    OpeningIsNoField(tag, body, 4);
    OpeningIsNoField(tag, body, 5);
    OneByteOpening(tag, body);
    SkipOwnContents(e, rest);
    if e.outcome.Success? {
      FirstValue(e, rest);
    } else {
      NoErrorDerails(e);
    }
  }

  lemma OneByteOpening(tagNum: byte, rest: seq<byte>)
    requires tagNum < 15
    ensures |Print(Opening(tagNum), rest)| >= 1 && Print(Opening(tagNum), rest)[1..] == rest
  {
  }

  lemma FieldIsNotClosing(tagNum: byte, content: seq<byte>, rest: seq<byte>, other: byte)
    requires tagNum <= 14 && |content| < 0x1_0000_0000
    ensures !StartsWithClosing(EncodeContextTag(tagNum, content) + rest, other)
  {
    hide EncodeTag, DecodeTagNumber;
    var header := EncodeTag(tagNum, Context, |content|);
    assert header + content + rest == header + (content + rest);
    TagHeaderRoundTrip(tagNum, Context, |content|, content + rest);
  }

  lemma FirstValue(e: Entry, rest: seq<byte>)
    requires WellformedEntry(e) && e.outcome.Success?
    ensures ValueDespiteError(PrintValues(Contents(e.outcome), Print(Closing(4), rest))) == FirstOf(e.outcome.values)
  {
    hide EncodeValue, DecodePropertyValue, Surface, Representable;
    var vs := e.outcome.values;
    if vs == [] {
      ClosingIsNil(4, rest);
    } else {
      ValueRoundTrip(vs[0], PrintValues(vs[1..], Print(Closing(4), rest)));
    }
  }

  lemma ClosingIsNil(tagNum: byte, rest: seq<byte>)
    ensures DecodePropertyValue(Print(Closing(tagNum), rest)) == Ok(Nil)
  {
    hide DecodeTagNumber, EncodeClosingTag;
    BracketRoundTrip(tagNum, rest);
  }

  lemma DecodeHeadPrinted(oid: ObjectIdentifier, rest: seq<byte>)
    requires InRange(oid)
    ensures DecodeObjects(EncodeContextObjectId(0, oid) + Print(Opening(1), rest)).results
            == DecodeProperties(oid, rest).results
  {
    hide EncodeContextTag, EncodeObjectId, Print, ContextField, StartsWithOpening, DecodeProperties, BigEndian32,
      DecodeObjectId;
    var tail := Print(Opening(1), rest);
    FieldRoundTrip(0, EncodeObjectId(oid), tail);
    OpeningIsNoField(1, rest, 1);
    OneByteOpening(1, rest);
    ObjectIdBytes(oid);
  }

  lemma ObjectIdBytes(oid: ObjectIdentifier)
    requires InRange(oid)
    ensures DecodeObjectId(BigEndian32(EncodeObjectId(oid))) == oid
  {
    hide PackObjectId, DecodeObjectId, BigEndian32, Put32;
    assert EncodeObjectId(oid) + [] == EncodeObjectId(oid);
    Word32Inverse(PackObjectId(oid), []);
    ObjectIdRoundTrip(oid);
  }

  lemma DecodeClosingPrinted(oid: ObjectIdentifier, rest: seq<byte>)
    ensures DecodeProperties(oid, Print(Closing(1), rest)) == DecodeObjects(rest)
  {
    hide ContextField, OptionalIndex, StartsWithOpening, DecodeObjects, SkipRest, DecodeTagNumber;
    BracketRoundTrip(1, rest);
    assert Print(Closing(1), rest)[1..] == rest;
  }

  /** The decoder, anywhere inside a printed Ack, returns the survivors. */
  lemma {:induction false} DecodeFrom(oid: ObjectIdentifier, es: seq<Entry>, os: seq<ObjectResult>)
    requires WellformedFrom(es, os)
    ensures DecodeProperties(oid, PrintFrom(es, os)).results == SurvivorsFrom(oid, es, os)
    decreases |os|, |es|, 1
  {
    hide DecodeProperties, DecodeObjects, PrintEntry, Print, WellformedEntry, Derails, SkipRest, EncodeContextTag;
    if es == [] {
      DecodeClosingPrinted(oid, PrintAck(os));
      DecodeAck(os);
    } else {
      var rest := PrintFrom(es[1..], os);
      assert PrintFrom(es, os) == PrintEntry(es[0], rest);
      DecodeEntryPrinted(oid, es[0], rest);
      if Derails(es[0]) {
        if es[0].outcome.AccessError? { NoErrorDerails(es[0]); }
        DecodeDerailed(oid, es[1..], os);
      } else {
        DecodeFrom(oid, es[1..], os);
      }
      if es[0].outcome.AccessError? { NoErrorDerails(es[0]); }
    }
  }

  lemma {:induction false} DecodeDerailed(oid: ObjectIdentifier, es: seq<Entry>, os: seq<ObjectResult>)
    requires WellformedFrom(es, os)
    ensures DecodeProperties(oid, SkipRest(PrintFrom(es, os), 4)).results == SurvivorsAfterDerailing(oid, es, os)
    decreases |os|, |es|, 0
  {
    hide DecodeProperties, DecodeObjects, PrintEntry, Print, WellformedEntry, Derails, SkipRest, EncodeContextTag,
      EncodeObjectId;
    if es != [] {
      var rest := PrintFrom(es[1..], os);
      assert PrintFrom(es, os) == PrintEntry(es[0], rest);
      DerailedEntry(es[0], rest);
      if es[0].outcome.Success? && !Derails(es[0]) {
        DecodeFrom(oid, es[1..], os);
      } else {
        DecodeDerailed(oid, es[1..], os);
      }
    } else if os != [] {
      DerailedHead(os[0].oid, PrintFrom(os[0].entries, os[1..]));
      DecodeDerailed(oid, os[0].entries, os[1..]);
    } else {
      DerailedAtEnd();
      NothingLeft(oid);
    }
  }

  lemma DerailedAtEnd()
    ensures SkipRest(Print(Closing(1), []), 4) == []
  {
    hide Print, DecodeTagNumber;
    SkipOne(Closing(1), [], 4);
  }

  lemma NothingLeft(oid: ObjectIdentifier)
    ensures DecodeProperties(oid, []).results == []
  {
    PropertiesAtEnd(oid, []);
    ObjectsAtEnd([]);
  }

  lemma {:induction false} DecodeAck(os: seq<ObjectResult>)
    requires WellformedAck(os)
    ensures DecodeObjects(PrintAck(os)).results == Survivors(os)
    decreases |os|, 0, 0
  {
    hide DecodeProperties, DecodeObjects, PrintEntries, Print, WellformedEntry, EncodeContextTag, EncodeObjectId;
    if os == [] {
      ObjectsAtEnd([]);
    } else {
      DecodeHeadPrinted(os[0].oid, PrintFrom(os[0].entries, os[1..]));
      DecodeFrom(os[0].oid, os[0].entries, os[1..]);
    }
  }

  // ---- When the decoder is right -------------------------------------------

  predicate AnySuccess(es: seq<Entry>, os: seq<ObjectResult>)
    decreases |os|, |es|
  {
    if es == [] then os != [] && AnySuccess(os[0].entries, os[1..])
    else es[0].outcome.Success? || AnySuccess(es[1..], os)
  }

  /** No successful entry comes after one that derails the skip. */
  predicate OnTrack(es: seq<Entry>, os: seq<ObjectResult>)
    decreases |os|, |es|
  {
    if es == [] then os == [] || OnTrack(os[0].entries, os[1..])
    else if Derails(es[0]) then !AnySuccess(es[1..], os)
    else OnTrack(es[1..], os)
  }

  lemma {:induction false} DerailingLoses(oid: ObjectIdentifier, own: ObjectIdentifier, es: seq<Entry>,
                                          os: seq<ObjectResult>)
    ensures |SurvivorsFrom(oid, es, os)| <= |ExpectedFrom(own, es, os)|
    ensures |SurvivorsAfterDerailing(oid, es, os)| <= |ExpectedFrom(own, es, os)|
    ensures AnySuccess(es, os) ==> |SurvivorsAfterDerailing(oid, es, os)| < |ExpectedFrom(own, es, os)|
    ensures !AnySuccess(es, os) ==> ExpectedFrom(own, es, os) == []
    decreases |os|, |es|
  {
    hide ResultOf, Derails;
    if es != [] {
      DerailingLoses(oid, own, es[1..], os);
    } else if os != [] {
      DerailingLoses(oid, os[0].oid, os[0].entries, os[1..]);
      DerailingLoses(os[0].oid, os[0].oid, os[0].entries, os[1..]);
    }
  }

  lemma {:induction false} SurvivorsAreExpected(oid: ObjectIdentifier, es: seq<Entry>, os: seq<ObjectResult>)
    ensures SurvivorsFrom(oid, es, os) == ExpectedFrom(oid, es, os) <==> OnTrack(es, os)
    decreases |os|, |es|
  {
    hide ResultOf, Derails;
    if es != [] {
      if es[0].outcome.AccessError? {
        NoErrorDerails(es[0]);
        SurvivorsAreExpected(oid, es[1..], os);
      } else {
        var r := ResultOf(oid, es[0]);
        var rest := ExpectedFrom(oid, es[1..], os);
        assert ([r] + rest)[1..] == rest;
        if Derails(es[0]) {
          DerailingLoses(oid, oid, es[1..], os);
        } else {
          SurvivorsAreExpected(oid, es[1..], os);
          var rest' := SurvivorsFrom(oid, es[1..], os);
          assert ([r] + rest')[1..] == rest';
        }
      }
    } else if os != [] {
      SurvivorsAreExpected(os[0].oid, os[0].entries, os[1..]);
    }
  }

  function AllEntries(os: seq<ObjectResult>): (es: seq<Entry>) {
    if os == [] then [] else os[0].entries + AllEntries(os[1..])
  }

  /** No success follows an entry that derails the skip. */
  predicate DerailsOnlyLast(es: seq<Entry>) {
    forall i, j :: 0 <= i < j < |es| ==> Derails(es[i]) ==> !es[j].outcome.Success?
  }

  predicate NoSuccess(es: seq<Entry>) {
    forall e :: e in es ==> !e.outcome.Success?
  }

  lemma DerailsOnlyLastCons(e: Entry, es: seq<Entry>)
    ensures DerailsOnlyLast([e] + es) <==> if Derails(e) then NoSuccess(es) else DerailsOnlyLast(es)
  {
    hide Derails;
    var all := [e] + es;
    if DerailsOnlyLast(all) {
      forall i, j | 0 <= i < j < |es| && Derails(es[i]) ensures !es[j].outcome.Success? {
        assert all[i + 1] == es[i] && all[j + 1] == es[j];
      }
      forall x | Derails(e) && x in es ensures !x.outcome.Success? {
        var j :| 0 <= j < |es| && es[j] == x;
        assert all[0] == e && all[j + 1] == x;
      }
    } else {
      var i, j :| 0 <= i < j < |all| && Derails(all[i]) && all[j].outcome.Success?;
      assert all[j] == es[j - 1] && es[j - 1] in es;
      if i > 0 {
        assert all[i] == es[i - 1];
        if Derails(e) { assert es[i - 1] in es; }
      }
    }
  }

  lemma {:induction false} OnTrackIsDerailsOnlyLast(es: seq<Entry>, os: seq<ObjectResult>)
    ensures OnTrack(es, os) <==> DerailsOnlyLast(es + AllEntries(os))
    ensures AnySuccess(es, os) <==> !NoSuccess(es + AllEntries(os))
    decreases |os|, |es|
  {
    hide Derails, DerailsOnlyLast, NoSuccess;
    if es != [] {
      OnTrackIsDerailsOnlyLast(es[1..], os);
      var tail := es[1..] + AllEntries(os);
      assert es + AllEntries(os) == [es[0]] + tail;
      DerailsOnlyLastCons(es[0], tail);
      NoSuccessCons(es[0], tail);
    } else {
      NothingIsOnTrack();
      assert es + AllEntries(os) == AllEntries(os);
      if os != [] {
        OnTrackIsDerailsOnlyLast(os[0].entries, os[1..]);
      }
    }
  }

  lemma NoSuccessCons(e: Entry, es: seq<Entry>)
    ensures NoSuccess([e] + es) <==> !e.outcome.Success? && NoSuccess(es)
  {
    assert forall x :: x in [e] + es <==> x == e || x in es;
  }

  lemma NothingIsOnTrack()
    ensures DerailsOnlyLast([]) && NoSuccess([])
  {
  }

  /**
   The round trip. The decoder returns exactly the successful entries, in order, with their
   object, index and value, and drops exactly the access errors, if and only if no content but
   that of the Ack's last success ends in an odd number of Boolean trues.
   */
  lemma RpmAckRoundTrip(os: seq<ObjectResult>)
    requires WellformedAck(os)
    ensures DecodeObjects(PrintAck(os)).results == Expected(os) <==> DerailsOnlyLast(AllEntries(os))
  {
    hide DecodeObjects, PrintAck, WellformedEntry, Derails;
    DecodeAck(os);
    if os != [] {
      SurvivorsAreExpected(os[0].oid, os[0].entries, os[1..]);
      OnTrackIsDerailsOnlyLast(os[0].entries, os[1..]);
    }
  }

  /** In particular Acks without Boolean true are always read back. */
  lemma RpmAckWithoutTrue(os: seq<ObjectResult>)
    requires WellformedAck(os)
    requires forall e, v :: e in AllEntries(os) && v in Contents(e.outcome) ==> !IsTrue(v)
    ensures DecodeObjects(PrintAck(os)).results == Expected(os)
  {
    hide DecodeObjects, PrintAck, WellformedEntry;
    forall e | e in AllEntries(os) ensures !Derails(e) {
      var vs := Contents(e.outcome);
      if vs != [] { assert vs[|vs| - 1] in vs; }
    }
    RpmAckRoundTrip(os);
  }

  /** Arrays of Booleans and Nulls, whatever they hold, are among the contents covered above. */
  lemma {:induction false} BooleanArraysAreWalkable(vs: seq<AppValue>)
    requires forall v :: v in vs ==> v.AppBoolean? || v.AppNull?
    ensures Walkable(vs) && forall v :: v in vs ==> Representable(v)
  {
    if vs != [] {
      BooleanArraysAreWalkable(vs[1..]);
      if IsTrue(vs[0]) && |vs| > 1 {
        assert vs[1] in vs;
        BooleanArraysAreWalkable(vs[2..]);
      }
    }
  }

  /**
   Why `Walkable` is asked for: behind Boolean true the skip goes on inside a longer value, and
   the bytes of that value decide where it ends. With 16 it ends behind the closing tag, with 79
   it takes the number for the closing tag and ends in front of it.
   */
  lemma NumberBehindTrueDecides(rest: seq<byte>)
    ensures var close := Print(Closing(4), rest);
            && SkipRest(PrintValues([AppBoolean(true), AppUnsigned(16)], close), 4) == rest
            && SkipRest(PrintValues([AppBoolean(true), AppUnsigned(79)], close), 4) == close
  {
    hide PrintValues, EncodeValue, SkipRest, Print, Wellformed;
    var close := Print(Closing(4), rest);
    PrintTrueAndNumber(16, close);
    PrintTrueAndNumber(79, close);
    SkipTrue(0x21, [16] + close, 4);
    SkipTrue(0x21, [79] + close, 4);
    OneByteElements(close);
    SkipOne(Primitive(1, Application, []), close, 4);
    SkipClose(4, rest);
    SkipClose(4, close);
  }

  lemma OneByteElements(rest: seq<byte>)
    ensures Wellformed(Primitive(1, Application, [])) && Print(Primitive(1, Application, []), rest) == [16] + rest
    ensures Print(Closing(4), rest) == [79] + rest
  {
    assert [] + rest == rest;
  }

  lemma PrintTrueAndNumber(n: byte, rest: seq<byte>)
    ensures PrintValues([AppBoolean(true), AppUnsigned(n)], rest)
            == EncodeValue(AppBoolean(true)) + ([0x21] + ([n] + rest))
  {
    var vs := [AppBoolean(true), AppUnsigned(n)];
    assert EncodeValue(AppUnsigned(n)) == [0x21, n];
    hide EncodeValue;
    assert vs[1..] == [AppUnsigned(n)] && vs[1..][1..] == [];
    assert PrintValues(vs[1..][1..], rest) == rest;
    assert PrintValues(vs[1..], rest) == [0x21, n] + rest;
    assert [0x21, n] + rest == [0x21] + ([n] + rest);
  }

  /** The smallest Ack that is misread: two properties of one object, the first being true. */
  lemma TrueLosesTheNextProperty(oid: ObjectIdentifier, p: uint32, q: uint32)
    requires InRange(oid)
    ensures var os := [ObjectResult(oid, [Entry(p, None, Success([AppBoolean(true)])),
                                          Entry(q, None, Success([AppUnsigned(7)]))])];
            DecodeObjects(PrintAck(os)).results == [PropertyValue(oid, p, None, Bool(true))] != Expected(os)
  {
    hide DecodeObjects, PrintAck;
    var e, f := Entry(p, None, Success([AppBoolean(true)])), Entry(q, None, Success([AppUnsigned(7)]));
    var os := [ObjectResult(oid, [e, f])];
    assert [e, f][1..] == [f] && [f][1..] == [] && os[1..] == [];
    assert Contents(e.outcome) == [AppBoolean(true)] && [AppBoolean(true)][..0] == [];
    assert Contents(f.outcome) == [AppUnsigned(7)];
    assert OddTrues([AppBoolean(true)]) && !OddTrues([AppUnsigned(7)]);
    assert Derails(e) && !Derails(f);
    assert Contents(f.outcome) == [AppUnsigned(7)] && Walkable([AppUnsigned(7)][1..]);
    assert WellformedEntry(e) && WellformedEntry(f);
    DecodeAck(os);
    assert SurvivorsAfterDerailing(oid, [f], []) == SurvivorsFrom(oid, [], []) == [];
    assert SurvivorsFrom(oid, [e, f], []) == [ResultOf(oid, e)];
    assert ExpectedFrom(oid, [f], []) == [ResultOf(oid, f)];
  }

  // ---- Acks with anything behind them --------------------------------------

  function ResultsOf(oid: ObjectIdentifier, es: seq<Entry>): (r: seq<PropertyValue>) {
    if es == [] then []
    else (if es[0].outcome.Success? then [ResultOf(oid, es[0])] else []) + ResultsOf(oid, es[1..])
  }

  /** Complete blocks, and then any bytes. */
  function PrintBlocks(os: seq<ObjectResult>, tail: seq<byte>): (s: seq<byte>) {
    if os == [] then tail
    else
      EncodeContextObjectId(0, os[0].oid)
      + Print(Opening(1), PrintEntries(os[0].entries, Print(Closing(1), PrintBlocks(os[1..], tail))))
  }

  function ResultsOfBlocks(os: seq<ObjectResult>): (r: seq<PropertyValue>) {
    if os == [] then [] else ResultsOf(os[0].oid, os[0].entries) + ResultsOfBlocks(os[1..])
  }

  /** Inside a block, whatever follows some entries, broken off or malformed, their results come first. */
  lemma {:induction false} EntriesThenAnything(oid: ObjectIdentifier, es: seq<Entry>, tail: seq<byte>)
    requires forall e :: e in es ==> WellformedEntry(e) && !Derails(e)
    ensures DecodeProperties(oid, PrintEntries(es, tail)).results
            == ResultsOf(oid, es) + DecodeProperties(oid, tail).results
  {
    hide DecodeProperties, PrintEntry, WellformedEntry, Derails, ResultOf;
    if es != [] {
      DecodeEntryPrinted(oid, es[0], PrintEntries(es[1..], tail));
      EntriesThenAnything(oid, es[1..], tail);
    }
  }

  /** And whatever follows some blocks, the results of the blocks come first and the rest is decoded as if alone. */
  lemma {:induction false} BlocksThenAnything(os: seq<ObjectResult>, tail: seq<byte>)
    requires WellformedAck(os) && forall o, e :: o in os && e in o.entries ==> !Derails(e)
    ensures DecodeObjects(PrintBlocks(os, tail)).results == ResultsOfBlocks(os) + DecodeObjects(tail).results
  {
    hide DecodeObjects, DecodeProperties, PrintEntries, Print, WellformedEntry, Derails, EncodeContextTag,
      EncodeObjectId, ResultsOf;
    if os != [] {
      assert os[0] in os && forall o :: o in os[1..] ==> o in os;
      var more := PrintBlocks(os[1..], tail);
      var close := Print(Closing(1), more);
      DecodeHeadPrinted(os[0].oid, PrintEntries(os[0].entries, close));
      EntriesThenAnything(os[0].oid, os[0].entries, close);
      DecodeClosingPrinted(os[0].oid, more);
      BlocksThenAnything(os[1..], tail);
    }
  }

  /** A block whose closing tag is missing ends where the next one begins. */
  lemma MissingClosingTag(oid: ObjectIdentifier, next: ObjectIdentifier, rest: seq<byte>)
    ensures var s := EncodeContextObjectId(0, next) + rest; DecodeProperties(oid, s) == DecodeObjects(s)
  {
    hide EncodeContextTag, EncodeObjectId, ContextField, StartsWithClosing, DecodeObjects;
    FieldRoundTrip(0, EncodeObjectId(next), rest);
    FieldIsNotClosing(0, EncodeObjectId(next), rest, 1);
  }

  /** Bytes that begin no block yield nothing, however much follows. */
  lemma NoBlockNoResults(tagNum: byte, content: seq<byte>, rest: seq<byte>)
    requires tagNum <= 14 && |content| < 0x1_0000_0000 && (tagNum != 0 || |content| != 4)
    ensures DecodeObjects(EncodeContextTag(tagNum, content) + rest).results == []
  {
    hide EncodeContextTag, ContextField, DecodeProperties;
    FieldRoundTrip(tagNum, content, rest);
  }
}
