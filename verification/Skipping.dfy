/**
 `skipToContextClosingTag` (client.go): stepping over constructed content.

 Decoders in this project are specified on the bytes that remain, `data[offset..]`;
 the methods that move an offset are proved against those functions.
 */
module Skipping {
  import opened Bytes
  import opened Tags
  import opened Values

  // ---- The skip ------------------------------------------------------------

  /** What remains after the skip; nothing remains when the closing tag never comes. */
  function SkipRest(s: seq<byte>, wantTag: byte): (rest: seq<byte>)
    ensures |rest| <= |s|
    decreases |s|
  {
    var t := DecodeTagNumber(s);
    if |s| == 0 || t.Err? then []
    else
      var h := t.value;
      var body := s[h.headerLen..];
      if h.length == CLOSING && h.cls == Context && h.tagNum == wantTag then body
      else if h.length > 0 then
        if h.length > |body| then [] else SkipRest(body[h.length..], wantTag)
      else SkipRest(body, wantTag)
  }

  /** One turn of the loop, on the bytes that remain. */
  lemma SkipStep(data: seq<byte>, offset: nat, h: TagHeader, wantTag: byte)
    requires offset < |data| && DecodeTagNumber(data[offset..]) == Ok(h)
    ensures var next := offset + h.headerLen;
            && next <= |data|
            && SkipRest(data[offset..], wantTag) ==
               if h.length == CLOSING && h.cls == Context && h.tagNum == wantTag then data[next..]
               else if h.length <= 0 then SkipRest(data[next..], wantTag)
               else if next + h.length > |data| then []
               else SkipRest(data[next + h.length..], wantTag)
  {
    hide DecodeTagNumber;
    var next := offset + h.headerLen;
    DropDrop(data, offset, h.headerLen);
    if h.length > 0 && next + h.length <= |data| {
      DropDrop(data, next, h.length);
    }
  }

  /** The loop of the source. On every byte string it stops between where it started and the end. */
  method SkipToContextClosingTag(data: seq<byte>, start: nat, wantTag: byte) returns (offset: nat)
    requires start <= |data|
    ensures start <= offset <= |data|
    ensures data[offset..] == SkipRest(data[start..], wantTag)
  {
    hide DecodeTagNumber;
    offset := start;
    ghost var goal := SkipRest(data[start..], wantTag);
    assert data[|data|..] == [];
    while offset < |data|
      invariant start <= offset <= |data|
      invariant SkipRest(data[offset..], wantTag) == goal
      decreases |data| - offset
    {
      var t := DecodeTagInto(data[offset..]);
      if t.Err? {
        return |data|;
      }
      var h := t.value;
      SkipStep(data, offset, h, wantTag);
      offset := offset + h.headerLen;
      if h.length == CLOSING && h.cls == Context && h.tagNum == wantTag {
        return offset;
      }
      if h.length > 0 {
        if offset + h.length > |data| {
          return |data|;
        }
        offset := offset + h.length;
      }
    }
  }

  // ---- Any element a peer may send -----------------------------------------

  /**
   One element of a tagged byte stream: any header the decoder accepts, in whatever form a
   peer chose for it, and as many content bytes as that header announces.
   */
  datatype Element = Element(header: seq<byte>, content: seq<byte>)

  predicate IsHeader(header: seq<byte>) {
    DecodeTagNumber(header).Ok? && DecodeTagNumber(header).value.headerLen == |header|
  }

  predicate IsElement(e: Element) {
    && IsHeader(e.header)
    && var length := DecodeTagNumber(e.header).value.length;
       |e.content| == if length > 0 then length else 0
  }

  /** A closing tag of the given number, in its one-byte or its two-byte form. */
  predicate IsClosing(header: seq<byte>, tagNum: byte) {
    && IsHeader(header)
    && DecodeTagNumber(header).value.length == CLOSING && DecodeTagNumber(header).value.tagNum == tagNum
  }

  /** The bytes of the elements, followed by `rest`. */
  function Stream(es: seq<Element>, rest: seq<byte>): (s: seq<byte>) {
    if es == [] then rest else es[0].header + (es[0].content + Stream(es[1..], rest))
  }

  /** What the skip makes of one header and what follows it. */
  lemma SkipHeader(header: seq<byte>, body: seq<byte>, wantTag: byte)
    requires IsHeader(header)
    ensures var length := DecodeTagNumber(header).value.length;
            SkipRest(header + body, wantTag) ==
            if IsClosing(header, wantTag) then body
            else if length <= 0 then SkipRest(body, wantTag)
            else if length > |body| then []
            else SkipRest(body[length..], wantTag)
  {
    TagHeaderStable(header, body);
    if DecodeTagNumber(header).value.length == CLOSING { ClosingIsContext(header); }
    hide DecodeTagNumber;
    assert (header + body)[|header|..] == body;
  }

  lemma ClosingIsContext(header: seq<byte>)
    requires DecodeTagNumber(header).Ok? && DecodeTagNumber(header).value.length == CLOSING
    ensures DecodeTagNumber(header).value.cls == Context
  {
  }

  /** Any one element other than the wanted closing tag is stepped over whole. */
  lemma SkipElement(e: Element, rest: seq<byte>, wantTag: byte)
    requires IsElement(e) && !IsClosing(e.header, wantTag)
    ensures SkipRest(e.header + (e.content + rest), wantTag) == SkipRest(rest, wantTag)
  {
    hide DecodeTagNumber, SkipRest;
    SkipHeader(e.header, e.content + rest, wantTag);
    assert (e.content + rest)[|e.content|..] == rest;
    if e.content == [] { assert e.content + rest == rest; }
  }

  lemma {:induction false} SkipElements(es: seq<Element>, rest: seq<byte>, wantTag: byte)
    requires forall e :: e in es ==> IsElement(e) && !IsClosing(e.header, wantTag)
    ensures SkipRest(Stream(es, rest), wantTag) == SkipRest(rest, wantTag)
  {
    hide IsElement, IsClosing, SkipRest;
    if es != [] {
      SkipElement(es[0], Stream(es[1..], rest), wantTag);
      SkipElements(es[1..], rest, wantTag);
    }
  }

  /**
   Over any elements without the wanted closing tag, followed by that closing tag in either
   form and any suffix, the skip ends just past the closing tag.
   */
  lemma SkipExact(es: seq<Element>, closing: seq<byte>, rest: seq<byte>, wantTag: byte)
    requires forall e :: e in es ==> IsElement(e) && !IsClosing(e.header, wantTag)
    requires IsClosing(closing, wantTag)
    ensures SkipRest(Stream(es, closing + rest), wantTag) == rest
  {
    hide IsElement, DecodeTagNumber, SkipRest;
    SkipElements(es, closing + rest, wantTag);
    SkipHeader(closing, rest, wantTag);
  }

  /** Conversely, where the skip leaves anything, it went over such elements and such a closing tag. */
  lemma {:induction false} SkipFinds(s: seq<byte>, wantTag: byte) returns (es: seq<Element>, closing: seq<byte>)
    requires SkipRest(s, wantTag) != []
    ensures forall e :: e in es ==> IsElement(e) && !IsClosing(e.header, wantTag)
    ensures IsClosing(closing, wantTag)
    ensures s == Stream(es, closing + SkipRest(s, wantTag))
    decreases |s|
  {
    var h := DecodeTagNumber(s).value;
    var header, body := s[..h.headerLen], s[h.headerLen..];
    HeaderAlone(s);
    assert s == header + body;
    SkipHeader(header, body, wantTag);
    hide DecodeTagNumber, SkipRest;
    if IsClosing(header, wantTag) {
      es, closing := [], header;
    } else {
      var n := if h.length > 0 then h.length else 0;
      var e := Element(header, body[..n]);
      assert body == e.content + body[n..];
      var more;
      more, closing := SkipFinds(body[n..], wantTag);
      es := [e] + more;
      assert es[1..] == more;
    }
  }

  /** The bytes of a header are a header by themselves. */
  lemma HeaderAlone(s: seq<byte>)
    requires DecodeTagNumber(s).Ok?
    ensures DecodeTagNumber(s[..DecodeTagNumber(s).value.headerLen]) == DecodeTagNumber(s)
  {
    var h := DecodeTagNumber(s).value;
    var t := s[..h.headerLen];
    var k := if s[0] / 16 == 15 then 2 else 1;
    assert t[0] == s[0];
    if s[0] % 8 == 5 {
      assert t[k] == s[k];
      if s[k] == 254 { assert t[k + 1..] == s[k + 1..k + 3]; }
      if s[k] == 255 { assert t[k + 1..] == s[k + 1..k + 5]; }
    }
  }

  // ---- Elements as the repository's encoders print them --------------------

  datatype Tlv =
    | Primitive(tagNum: byte, cls: TagClass, content: seq<byte>)
    | Opening(tagNum: byte)
    | Closing(tagNum: byte)

  /** What the encoders print correctly: `EncodeTag` loses lengths from tag number 15 on. */
  predicate Wellformed(t: Tlv) {
    t.Primitive? ==> Encodable(t.tagNum, |t.content|)
  }

  /** The bytes of one element, followed by `rest`. */
  function Print(t: Tlv, rest: seq<byte>): (s: seq<byte>) {
    match t
    case Primitive(n, c, content) => EncodeTag(n, c, |content|) + (content + rest)
    case Opening(n) => EncodeOpeningTag(n) + rest
    case Closing(n) => EncodeClosingTag(n) + rest
  }

  function Printed(t: Tlv): (e: Element) {
    match t
    case Primitive(n, c, content) => Element(EncodeTag(n, c, |content|), content)
    case Opening(n) => Element(EncodeOpeningTag(n), [])
    case Closing(n) => Element(EncodeClosingTag(n), [])
  }

  lemma PrintedIsElement(t: Tlv, rest: seq<byte>, wantTag: byte)
    requires Wellformed(t)
    ensures IsElement(Printed(t)) && (IsClosing(Printed(t).header, wantTag) <==> t == Closing(wantTag))
    ensures Print(t, rest) == Printed(t).header + (Printed(t).content + rest)
  {
    hide DecodeTagNumber, EncodeTag, EncodeOpeningTag, EncodeClosingTag;
    var header := Printed(t).header;
    assert header + [] == header && [] + rest == rest;
    match t
    case Primitive(n, c, content) => TagHeaderRoundTrip(n, c, |content|, []);
    case Opening(n) => BracketRoundTrip(n, []);
    case Closing(n) => BracketRoundTrip(n, []);
  }

  /** One printed element other than the wanted closing tag is stepped over whole. */
  lemma SkipOne(t: Tlv, rest: seq<byte>, wantTag: byte)
    requires Wellformed(t) && t != Closing(wantTag)
    ensures SkipRest(Print(t, rest), wantTag) == SkipRest(rest, wantTag)
  {
    hide SkipRest, Print, Printed, IsElement, IsClosing;
    PrintedIsElement(t, rest, wantTag);
    SkipElement(Printed(t), rest, wantTag);
  }

  lemma SkipClose(wantTag: byte, rest: seq<byte>)
    ensures SkipRest(Print(Closing(wantTag), rest), wantTag) == rest
  {
    hide SkipRest, DecodeTagNumber, EncodeClosingTag;
    PrintedIsElement(Closing(wantTag), rest, wantTag);
    assert [] + rest == rest;
    SkipHeader(EncodeClosingTag(wantTag), rest, wantTag);
  }

  // ---- Values inside content -----------------------------------------------

  /** The one value whose wire form the skip misreads. */
  predicate IsTrue(v: AppValue) {
    v == AppBoolean(true)
  }

  function ElementOf(v: AppValue): (t: Tlv) {
    Primitive(AppTag(v), Application, Payload(v))
  }

  lemma ValueIsElement(v: AppValue, rest: seq<byte>)
    requires !IsTrue(v)
    ensures Print(ElementOf(v), rest) == EncodeValue(v) + rest
    ensures Representable(v) ==> Wellformed(ElementOf(v))
  {
    hide EncodeTag, Payload, AppTag;
    var tag, p := AppTag(v), Payload(v);
    if v.AppBoolean? {
      FalseIsEmpty();
      assert EncodeTag(tag, Application, |p|) + (p + rest) == EncodeValue(v) + rest;
    } else {
      assert EncodeTag(tag, Application, |p|) + (p + rest) == EncodeTag(tag, Application, |p|) + p + rest;
    }
  }

  lemma FalseIsEmpty()
    ensures Payload(AppBoolean(false)) == []
    ensures EncodeTag(AppTag(AppBoolean(false)), Application, 0) == [0x10]
  {
  }

  /** Boolean true (0x11) is taken to have one payload byte, so the byte after it is lost. */
  lemma SkipTrue(lost: byte, rest: seq<byte>, wantTag: byte)
    ensures SkipRest(EncodeValue(AppBoolean(true)) + ([lost] + rest), wantTag) == SkipRest(rest, wantTag)
  {
    var s := EncodeValue(AppBoolean(true)) + ([lost] + rest);
    assert DecodeTagNumber(s) == Ok(TagHeader(1, Application, 1, 1));
    assert s[1..][1..] == rest;
  }

  /**
   A concrete failure: the closing tag right after Boolean true is passed over, so the two
   bytes behind it are not what remains.
   */
  lemma SkipMissesTagAfterTrue(wantTag: byte)
    requires wantTag < 15
    ensures SkipRest(EncodeValue(AppBoolean(true)) + Print(Closing(wantTag), [7, 7]), wantTag) != [7, 7]
  {
    var close := EncodeClosingTag(wantTag)[0];
    assert Print(Closing(wantTag), [7, 7]) == [close] + [7, 7];
    SkipTrue(close, [7, 7], wantTag);
  }
}
