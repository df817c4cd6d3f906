/**
 Tag headers: section 20.2.1 of ANSI/ASHRAE 135 as protocol.go writes and reads it.
 */
module Tags {
  import opened Bytes
  import opened Integers

  datatype TagClass = Application | Context

  function ClassBit(cls: TagClass): (b: byte) {
    if cls == Application then 0 else 1
  }

  /** Lengths that `DecodeTagNumber` reports for opening and closing tags. */
  const OPENING: int := -1
  const CLOSING: int := -2

  datatype TagHeader = TagHeader(tagNum: byte, cls: TagClass, length: int, headerLen: nat)

  // ---- Encoders ------------------------------------------------------------

  function ExtendedLength(length: nat): (s: seq<byte>) {
    if length < 5 then []
    else if length < 254 then [length]
    else if length < 0x1_0000 then [254] + Put16(length)
    else [255] + Put32(length)
  }

  function EncodeTag(tagNum: byte, cls: TagClass, length: nat): (s: seq<byte>)
    ensures 1 <= |s| <= 7
  {
    if length < 5 && tagNum < 15 then
      [tagNum * 16 + ClassBit(cls) * 8 + length]
    else if tagNum >= 15 then
      [0xF0 + ClassBit(cls) * 8, tagNum] + ExtendedLength(length)
    else
      [tagNum * 16 + ClassBit(cls) * 8 + 5] + ExtendedLength(length)
  }

  /** Appends the extended length to the buffer. */
  method AppendLength(buf: seq<byte>, length: nat) returns (buf': seq<byte>)
    ensures buf' == buf + ExtendedLength(length)
  {
    buf' := buf;
    if length >= 5 {
      if length < 254 {
        buf' := buf' + [length];
      } else if length < 0x1_0000 {
        buf' := buf' + [254];
        buf' := buf' + Put16(length);
      } else {
        buf' := buf' + [255];
        buf' := buf' + Put32(length);
      }
    }
  }

  /** The encoder as the source runs it, growing one buffer. */
  method EncodeTagInto(tagNum: byte, cls: TagClass, length: nat) returns (buf: seq<byte>)
    ensures buf == EncodeTag(tagNum, cls, length)
  {
    if length < 5 && tagNum < 15 {
      return [tagNum * 16 + ClassBit(cls) * 8 + length];
    }
    buf := [];
    if tagNum >= 15 {
      buf := buf + [0xF0 + ClassBit(cls) * 8];
      buf := buf + [tagNum];
    } else {
      buf := buf + [tagNum * 16 + ClassBit(cls) * 8 + 5];
    }
    hide ExtendedLength;
    buf := AppendLength(buf, length);
  }

  function EncodeContextTag(tagNum: byte, data: seq<byte>): (s: seq<byte>) {
    EncodeTag(tagNum, Context, |data|) + data
  }

  function EncodeOpeningTag(tagNum: byte): (s: seq<byte>) {
    if tagNum < 15 then [tagNum * 16 + 0x0E] else [0xFE, tagNum]
  }

  function EncodeClosingTag(tagNum: byte): (s: seq<byte>) {
    if tagNum < 15 then [tagNum * 16 + 0x0F] else [0xFF, tagNum]
  }

  function EncodeContextUnsigned(tagNum: byte, value: uint32): (s: seq<byte>) {
    EncodeContextTag(tagNum, EncodeUnsigned(value))
  }

  function EncodeContextObjectId(tagNum: byte, oid: ObjectIdentifier): (s: seq<byte>) {
    EncodeContextTag(tagNum, EncodeObjectId(oid))
  }

  // ---- Decoder -------------------------------------------------------------

  /** The length field that starts at `data[headerLen]` when the length nibble is 5. */
  function DecodeExtendedLength(data: seq<byte>, headerLen: nat): (r: Result<(nat, nat)>)
    ensures r.Ok? ==> headerLen < r.value.1 <= |data| && r.value.1 <= headerLen + 5
    ensures r.Ok? ==> r.value.0 < 0x1_0000_0000
  {
    if |data| < headerLen + 1 then Err
    else if data[headerLen] < 254 then Ok((data[headerLen], headerLen + 1))
    else if data[headerLen] == 254 then
      if |data| < headerLen + 3 then Err
      else Ok((BigEndian16(data[headerLen + 1..]), headerLen + 3))
    else
      if |data| < headerLen + 5 then Err
      else Ok((BigEndian32(data[headerLen + 1..]), headerLen + 5))
  }

  function DecodeTagNumber(data: seq<byte>): (r: Result<TagHeader>)
    ensures r.Ok? ==> 1 <= r.value.headerLen <= |data| && r.value.headerLen <= 7
    ensures r.Ok? ==> CLOSING <= r.value.length < 0x1_0000_0000
    ensures r.Ok? && r.value.length < 0 ==> r.value.cls == Context
  {
    if |data| < 1 then Err
    else
      var nibble := data[0] / 16;
      var cls := if data[0] / 8 % 2 == 0 then Application else Context;
      var length := data[0] % 8;
      if nibble == 15 && |data| < 2 then Err
      else
        var tagNum := if nibble == 15 then data[1] else nibble;
        var headerLen := if nibble == 15 then 2 else 1;
        if cls == Context && length == 6 then Ok(TagHeader(tagNum, cls, OPENING, headerLen))
        else if cls == Context && length == 7 then Ok(TagHeader(tagNum, cls, CLOSING, headerLen))
        else if length == 5 then
          var x := DecodeExtendedLength(data, headerLen);
          if x.Err? then Err else Ok(TagHeader(tagNum, cls, x.value.0, x.value.1))
        else Ok(TagHeader(tagNum, cls, length, headerLen))
  }

  /** The decoder as the source runs it, updating `tagNum`, `length` and `headerLen` in turn. */
  method DecodeTagInto(data: seq<byte>) returns (r: Result<TagHeader>)
    ensures r == DecodeTagNumber(data)
  {
    if |data| < 1 { return Err; }
    var tagNum: byte := data[0] / 16;
    var cls := if data[0] / 8 % 2 == 0 then Application else Context;
    var length: int := data[0] % 8;
    var headerLen := 1;
    if tagNum == 15 {
      if |data| < 2 { return Err; }
      tagNum := data[1];
      headerLen := 2;
    }
    if cls == Context && data[0] % 8 == 6 {
      length := OPENING;
      return Ok(TagHeader(tagNum, cls, length, headerLen));
    }
    if cls == Context && data[0] % 8 == 7 {
      length := CLOSING;
      return Ok(TagHeader(tagNum, cls, length, headerLen));
    }
    if length == 5 {
      if |data| < headerLen + 1 { return Err; }
      if data[headerLen] < 254 {
        length := data[headerLen];
        headerLen := headerLen + 1;
      } else if data[headerLen] == 254 {
        if |data| < headerLen + 3 { return Err; }
        length := BigEndian16(data[headerLen + 1..]);
        headerLen := headerLen + 3;
      } else {
        if |data| < headerLen + 5 { return Err; }
        length := BigEndian32(data[headerLen + 1..]);
        headerLen := headerLen + 5;
      }
    }
    return Ok(TagHeader(tagNum, cls, length, headerLen));
  }

  // ---- Round trips ---------------------------------------------------------

  /** What the tag encoder can carry: the length is lost for extended tag numbers. */
  predicate Encodable(tagNum: byte, length: nat) {
    length == 0 || (tagNum <= 14 && length < 0x1_0000_0000)
  }

  lemma ExtendedLengthInverse(prefix: seq<byte>, length: nat, rest: seq<byte>)
    requires length >= 5
    ensures DecodeExtendedLength(prefix + ExtendedLength(length) + rest, |prefix|)
            == Ok((length % 0x1_0000_0000, |prefix| + |ExtendedLength(length)|))
  {
    var data := prefix + ExtendedLength(length) + rest;
    assert data[|prefix|] == ExtendedLength(length)[0];
    if length >= 0x1_0000 {
      assert data[|prefix| + 1..] == Put32(length) + rest;
      Put32Inverse(length, rest);
    } else if length >= 254 {
      assert data[|prefix| + 1..] == Put16(length) + rest;
      Put16Inverse(length, rest);
    }
  }

  lemma DecodeShortNumber(tagNum: byte, cls: TagClass, length: nat, rest: seq<byte>)
    requires tagNum <= 14
    ensures DecodeTagNumber(EncodeTag(tagNum, cls, length) + rest)
            == Ok(TagHeader(tagNum, cls, length % 0x1_0000_0000, |EncodeTag(tagNum, cls, length)|))
  {
    hide DecodeTagNumber, DecodeExtendedLength;
    var low := if length < 5 then length else 5;
    var first := tagNum * 16 + ClassBit(cls) * 8 + low;
    var data := EncodeTag(tagNum, cls, length) + rest;
    FirstByteParts(tagNum, ClassBit(cls), low);
    assert EncodeTag(tagNum, cls, length) == [first] + ExtendedLength(length);
    hide EncodeTag, ClassBit;
    assert data == [first] + ExtendedLength(length) + rest;
    if length < 5 {
      ShortForm(data, first, tagNum, cls, length);
    } else {
      hide ExtendedLength;
      ExtendedLengthInverse([first], length, rest);
      LongForm(data, first, tagNum, cls);
    }
  }

  /** The three fields of a tag's first byte. */
  lemma FirstByteParts(tagNum: byte, bit: byte, low: byte)
    requires tagNum <= 15 && bit <= 1 && low <= 7
    ensures var first := tagNum * 16 + bit * 8 + low;
            first < 0x100 && first / 16 == tagNum && first / 8 % 2 == bit && first % 8 == low
  {
    assert (tagNum * 16 + bit * 8 + low) / 8 == tagNum * 2 + bit;
  }

  lemma ShortForm(data: seq<byte>, first: byte, tagNum: byte, cls: TagClass, length: nat)
    requires data != [] && data[0] == first && tagNum <= 14 && length < 5
    requires first / 16 == tagNum && first / 8 % 2 == ClassBit(cls) && first % 8 == length
    ensures DecodeTagNumber(data) == Ok(TagHeader(tagNum, cls, length, 1))
  {
  }

  lemma LongForm(data: seq<byte>, first: byte, tagNum: byte, cls: TagClass)
    requires data != [] && data[0] == first && tagNum <= 14 && DecodeExtendedLength(data, 1).Ok?
    requires first / 16 == tagNum && first / 8 % 2 == ClassBit(cls) && first % 8 == 5
    ensures var x := DecodeExtendedLength(data, 1).value;
            DecodeTagNumber(data) == Ok(TagHeader(tagNum, cls, x.0, x.1))
  {
    hide DecodeExtendedLength;
  }

  /** From tag number 15 on the header says length 0, whatever was asked for. */
  lemma DecodeExtendedNumber(tagNum: byte, cls: TagClass, length: nat, rest: seq<byte>)
    requires tagNum >= 15
    ensures DecodeTagNumber(EncodeTag(tagNum, cls, length) + rest) == Ok(TagHeader(tagNum, cls, 0, 2))
    ensures length == 0 ==> |EncodeTag(tagNum, cls, length)| == 2
  {
    var first := 15 * 16 + ClassBit(cls) * 8 + 0;
    var data := EncodeTag(tagNum, cls, length) + rest;
    FirstByteParts(15, ClassBit(cls), 0);
    assert EncodeTag(tagNum, cls, length) == [first, tagNum] + ExtendedLength(length);
    hide EncodeTag, ExtendedLength, DecodeExtendedLength;
    assert data[0] == first && data[1] == tagNum;
  }

  /** A header is read back exactly when the encoder could carry its length. */
  lemma TagHeaderRoundTrip(tagNum: byte, cls: TagClass, length: nat, rest: seq<byte>)
    ensures DecodeTagNumber(EncodeTag(tagNum, cls, length) + rest)
            == Ok(TagHeader(tagNum, cls, length, |EncodeTag(tagNum, cls, length)|))
            <==> Encodable(tagNum, length)
  {
    hide DecodeTagNumber, EncodeTag;
    if tagNum <= 14 {
      DecodeShortNumber(tagNum, cls, length, rest);
    } else {
      DecodeExtendedNumber(tagNum, cls, length, rest);
    }
  }

  /** Opening and closing tags are read back for every tag number. */
  lemma BracketRoundTrip(tagNum: byte, rest: seq<byte>)
    ensures DecodeTagNumber(EncodeOpeningTag(tagNum) + rest)
            == Ok(TagHeader(tagNum, Context, OPENING, |EncodeOpeningTag(tagNum)|))
    ensures DecodeTagNumber(EncodeClosingTag(tagNum) + rest)
            == Ok(TagHeader(tagNum, Context, CLOSING, |EncodeClosingTag(tagNum)|))
  {
    assert (EncodeOpeningTag(tagNum) + rest)[0] == EncodeOpeningTag(tagNum)[0];
    assert (EncodeClosingTag(tagNum) + rest)[0] == EncodeClosingTag(tagNum)[0];
  }

  /** A header that decodes keeps its reading whatever bytes follow. */
  lemma TagHeaderStable(data: seq<byte>, more: seq<byte>)
    requires DecodeTagNumber(data).Ok?
    ensures DecodeTagNumber(data + more) == DecodeTagNumber(data)
  {
    hide DecodeExtendedLength;
    var headerLen := if data[0] / 16 == 15 then 2 else 1;
    if data[0] % 8 == 5 { ExtendedLengthStable(data, headerLen, more); }
  }

  lemma ExtendedLengthStable(data: seq<byte>, headerLen: nat, more: seq<byte>)
    requires DecodeExtendedLength(data, headerLen).Ok?
    ensures DecodeExtendedLength(data + more, headerLen) == DecodeExtendedLength(data, headerLen)
  {
    assert (data + more)[headerLen] == data[headerLen];
    assert (data + more)[headerLen + 1..] == data[headerLen + 1..] + more;
  }

  /**
   The encoder's header is the shortest one the decoder reads the same way,
   except that the decoder also takes application lengths 6 and 7 in one byte.
   */
  lemma TagHeaderShortest(tagNum: byte, cls: TagClass, length: nat)
    requires Encodable(tagNum, length)
    ensures (exists h: seq<byte> :: |h| < |EncodeTag(tagNum, cls, length)|
                                    && DecodeTagNumber(h) == Ok(TagHeader(tagNum, cls, length, |h|)))
            <==> cls == Application && (length == 6 || length == 7)
  {
    if cls == Application && (length == 6 || length == 7) {
      var h: seq<byte> := [tagNum * 16 + length];
      assert h[0] / 16 == tagNum && h[0] / 8 % 2 == 0 && h[0] % 8 == length;
      assert DecodeTagNumber(h) == Ok(TagHeader(tagNum, cls, length, |h|));
    } else {
      forall h: seq<byte> | DecodeTagNumber(h) == Ok(TagHeader(tagNum, cls, length, |h|))
        ensures |EncodeTag(tagNum, cls, length)| <= |h|
      {
        HeaderSize(h);
      }
    }
  }

  /** How many bytes any accepted header of a given number and length must have. */
  lemma HeaderSize(h: seq<byte>)
    requires DecodeTagNumber(h).Ok?
    ensures var v := DecodeTagNumber(h).value;
            && (v.tagNum >= 15 ==> v.headerLen >= 2)
            && (v.length >= 5 && !(v.cls == Application && v.length < 8) ==> v.headerLen >= 2)
            && (v.length >= 254 ==> v.headerLen >= 4)
            && (v.length >= 0x1_0000 ==> v.headerLen >= 6)
  {
  }

  // ---- Every header there is -----------------------------------------------

  /** How the length of a tag may be written. */
  datatype LengthForm = Inline(n: nat) | InByte(n: nat) | InTwoBytes(n: nat) | InFourBytes(n: nat) | Open | Close

  /** One way of writing a header; a number below 15 may stand in a byte of its own too. */
  datatype HeaderForm = HeaderForm(tagNum: byte, ownByte: bool, cls: TagClass, form: LengthForm)

  predicate IsForm(f: HeaderForm) {
    && (f.ownByte || f.tagNum <= 14)
    && match f.form
       case Inline(n) => n < 5 || (f.cls == Application && 6 <= n <= 7)
       case InByte(n) => n < 254
       case InTwoBytes(n) => n < 0x1_0000
       case InFourBytes(n) => n < 0x1_0000_0000
       case Open => f.cls == Context
       case Close => f.cls == Context
  }

  function LowBits(form: LengthForm): (b: nat) {
    match form
    case Inline(n) => n
    case Open => 6
    case Close => 7
    case _ => 5
  }

  function LengthBytes(form: LengthForm): (s: seq<byte>)
    requires form.InByte? ==> form.n < 254
  {
    match form
    case InByte(n) => [n]
    case InTwoBytes(n) => [254] + Put16(n)
    case InFourBytes(n) => [255] + Put32(n)
    case _ => []
  }

  function LengthOf(form: LengthForm): (n: int) {
    match form
    case Open => OPENING
    case Close => CLOSING
    case _ => form.n
  }

  function FirstByte(f: HeaderForm): (b: byte)
    requires IsForm(f)
  {
    (if f.ownByte then 15 else f.tagNum) * 16 + ClassBit(f.cls) * 8 + LowBits(f.form)
  }

  function PrintHeader(f: HeaderForm): (s: seq<byte>)
    requires IsForm(f)
  {
    [FirstByte(f)] + (if f.ownByte then [f.tagNum] else []) + LengthBytes(f.form)
  }

  lemma LengthBytesRead(prefix: seq<byte>, form: LengthForm, rest: seq<byte>)
    requires form.InByte? ==> form.n < 254
    requires form.InTwoBytes? ==> form.n < 0x1_0000
    requires form.InFourBytes? ==> form.n < 0x1_0000_0000
    requires form.InByte? || form.InTwoBytes? || form.InFourBytes?
    ensures DecodeExtendedLength(prefix + LengthBytes(form) + rest, |prefix|)
            == Ok((form.n, |prefix| + |LengthBytes(form)|))
  {
    hide Put16, Put32, BigEndian16, BigEndian32;
    var data := prefix + LengthBytes(form) + rest;
    assert data[|prefix|] == LengthBytes(form)[0];
    match form
    case InByte(_) =>
    case InTwoBytes(n) =>
      assert data[|prefix| + 1..] == Put16(n) + rest;
      Put16Inverse(n, rest);
    case InFourBytes(n) =>
      assert data[|prefix| + 1..] == Put32(n) + rest;
      Put32Inverse(n, rest);
  }

  /** Every way of writing a header is read as what it says, whatever follows. */
  lemma HeaderReads(f: HeaderForm, rest: seq<byte>)
    requires IsForm(f)
    ensures DecodeTagNumber(PrintHeader(f) + rest)
            == Ok(TagHeader(f.tagNum, f.cls, LengthOf(f.form), |PrintHeader(f)|))
  {
    var nibble: byte := if f.ownByte then 15 else f.tagNum;
    var prefix := [FirstByte(f)] + if f.ownByte then [f.tagNum] else [];
    var data := PrintHeader(f) + rest;
    FirstByteParts(nibble, ClassBit(f.cls), LowBits(f.form));
    assert data == prefix + LengthBytes(f.form) + rest;
    assert data[0] == FirstByte(f) && (f.ownByte ==> data[1] == f.tagNum);
    if f.form.InByte? || f.form.InTwoBytes? || f.form.InFourBytes? {
      LengthBytesRead(prefix, f.form, rest);
    }
    hide DecodeExtendedLength, LengthBytes, Put16, Put32;
  }

  lemma LengthBytesFound(s: seq<byte>, at: nat) returns (form: LengthForm)
    requires DecodeExtendedLength(s, at).Ok?
    ensures form.InByte? || form.InTwoBytes? || form.InFourBytes?
    ensures form.InByte? ==> form.n < 254
    ensures form.InTwoBytes? ==> form.n < 0x1_0000
    ensures form.InFourBytes? ==> form.n < 0x1_0000_0000
    ensures DecodeExtendedLength(s, at).value == (form.n, at + |LengthBytes(form)|)
    ensures s[at..at + |LengthBytes(form)|] == LengthBytes(form)
  {
    if s[at] < 254 {
      form := InByte(s[at]);
    } else if s[at] == 254 {
      var word := s[at + 1..at + 3];
      assert s[at + 1..][0] == word[0] && s[at + 1..][1] == word[1];
      form := InTwoBytes(BigEndian16(word));
      Put16Onto(word);
      assert s[at..at + 3] == [s[at]] + word;
    } else {
      var word := s[at + 1..at + 5];
      var tail := s[at + 1..];
      assert tail[0] == word[0] && tail[1] == word[1] && tail[2] == word[2] && tail[3] == word[3];
      form := InFourBytes(BigEndian32(word));
      Put32Onto(word);
      assert s[at..at + 5] == [s[at]] + word;
    }
  }

  /** And whatever is read as a header was written in one of these ways. */
  lemma HeaderFound(s: seq<byte>) returns (f: HeaderForm)
    requires DecodeTagNumber(s).Ok?
    ensures IsForm(f)
    ensures s == PrintHeader(f) + s[DecodeTagNumber(s).value.headerLen..]
    ensures DecodeTagNumber(s).value == TagHeader(f.tagNum, f.cls, LengthOf(f.form), |PrintHeader(f)|)
  {
    var h := DecodeTagNumber(s).value;
    var ownByte := s[0] / 16 == 15;
    var at := if ownByte then 2 else 1;
    var form;
    if s[0] % 8 == 5 {
      form := LengthBytesFound(s, at);
    } else {
      form := if h.length == OPENING then Open else if h.length == CLOSING then Close else Inline(s[0] % 8);
    }
    f := HeaderForm(h.tagNum, ownByte, h.cls, form);
    hide DecodeExtendedLength, LengthBytes;
    ByteParts(s[0]);
    assert FirstByte(f) == s[0];
    assert s[..at] == [s[0]] + if ownByte then [h.tagNum] else [];
    assert s == s[..at] + s[at..h.headerLen] + s[h.headerLen..];
  }

  lemma ByteParts(b: byte)
    ensures b == b / 16 * 16 + b / 8 % 2 * 8 + b % 8
  {
    assert b / 16 == b / 8 / 2;
  }

  /** The header section 20.2.1 of ANSI/ASHRAE 135 asks for. */
  function StandardForm(tagNum: byte, cls: TagClass, length: nat): (f: HeaderForm)
    requires length < 0x1_0000_0000
    ensures IsForm(f)
  {
    HeaderForm(tagNum, tagNum >= 15, cls,
               if length < 5 then Inline(length) else if length < 254 then InByte(length)
               else if length < 0x1_0000 then InTwoBytes(length) else InFourBytes(length))
  }

  /** The encoder prints it exactly when the number is below 15 or the length 0; the decoder always reads it. */
  lemma EncodesStandard(tagNum: byte, cls: TagClass, length: nat)
    requires length < 0x1_0000_0000
    ensures EncodeTag(tagNum, cls, length) == PrintHeader(StandardForm(tagNum, cls, length))
            <==> tagNum <= 14 || length == 0
  {
    hide Put16, Put32;
    var f := StandardForm(tagNum, cls, length);
    assert LengthBytes(f.form) == ExtendedLength(length);
    var standard, printed := PrintHeader(f), EncodeTag(tagNum, cls, length);
    if tagNum <= 14 || length == 0 {
      assert printed == [FirstByte(f)] + (if f.ownByte then [tagNum] else []) + ExtendedLength(length);
    } else {
      assert standard[0] == FirstByte(f) && printed[0] == 0xF0 + ClassBit(cls) * 8;
      assert FirstByte(f) > printed[0];
    }
  }
}
