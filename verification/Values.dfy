/**
 Property values: what the encoders of protocol.go, bitstring.go and datetime.go
 print, and what `decodePropertyValue` (client.go) reads back.
 */
module Values {
  import opened Bytes
  import opened Integers
  import opened Tags
  import opened BitStrings

  /** A value as a Go caller sees it, one constructor per dynamic type. */
  datatype Value =
    | Nil
    | Bool(b: bool)
    | Uint32(n: uint32)
    | Int32(i: int32)
    | Float32(bits32: uint32)
    | Float64(bits64: uint64)
    | Octets(octets: seq<byte>)
    | Text(text: CharacterString)
    | Bits(bitString: BitString)
    | DateOf(date: Date)
    | TimeOf(time: Time)
    | Oid(oid: ObjectIdentifier)

  /**
   A decoded string: either the payload bytes taken over unchanged, or the payload
   of one of the three character sets (3, 4 and 5) that the source converts.
   */
  datatype CharacterString = Raw(bytes: seq<byte>) | Converted(charset: byte, payload: seq<byte>)

  function DecodeCharacterString(data: seq<byte>): (s: CharacterString) {
    if |data| < 1 then Raw([])
    else if 3 <= data[0] <= 5 then Converted(data[0], data[1..])
    else Raw(data[1..])
  }

  // ---- Application tags ----------------------------------------------------

  const TAG_NULL: byte := 0
  const TAG_BOOLEAN: byte := 1
  const TAG_UNSIGNED: byte := 2
  const TAG_SIGNED: byte := 3
  const TAG_REAL: byte := 4
  const TAG_DOUBLE: byte := 5
  const TAG_OCTETS: byte := 6
  const TAG_TEXT: byte := 7
  const TAG_BITS: byte := 8
  const TAG_ENUMERATED: byte := 9
  const TAG_DATE: byte := 10
  const TAG_TIME: byte := 11
  const TAG_OBJECT_ID: byte := 12

  /** The payload switch of `decodePropertyValue` for application tags other than Null and Boolean. */
  function DecodePayload(tagNum: byte, data: seq<byte>): (r: Result<Value>) {
    if tagNum == TAG_UNSIGNED then Ok(Uint32(DecodeUnsigned(data)))
    else if tagNum == TAG_SIGNED then Ok(Int32(DecodeSigned(data)))
    else if tagNum == TAG_REAL then
      if |data| != 4 then Err else Ok(Float32(BigEndian32(data)))
    else if tagNum == TAG_DOUBLE then
      if |data| != 8 then Err else Ok(Float64(BigEndian64(data)))
    else if tagNum == TAG_OCTETS then Ok(Octets(data))
    else if tagNum == TAG_TEXT then Ok(Text(DecodeCharacterString(data)))
    else if tagNum == TAG_BITS then
      var b := DecodeBitString(data);
      if b.Err? then Err else Ok(Bits(b.value))
    else if tagNum == TAG_ENUMERATED then Ok(Uint32(DecodeUnsigned(data)))
    else if tagNum == TAG_DATE then
      if |data| != 4 then Err else Ok(DateOf(DecodeDate(data)))
    else if tagNum == TAG_TIME then
      if |data| != 4 then Err else Ok(TimeOf(DecodeTime(data)))
    else if tagNum == TAG_OBJECT_ID then
      if |data| != 4 then Err else Ok(Oid(DecodeObjectId(BigEndian32(data))))
    else Ok(Octets(data))
  }

  function DecodePropertyValue(data: seq<byte>): (r: Result<Value>) {
    var t := DecodeTagNumber(data);
    if t.Err? then Err
    else
      var h := t.value;
      if h.length == CLOSING then Ok(Nil)
      else if h.cls == Application then
        if h.tagNum == TAG_NULL then Ok(Nil)
        else if h.tagNum == TAG_BOOLEAN then Ok(Bool(h.length == 1))
        else if |data| < h.headerLen + h.length then Err
        else DecodePayload(h.tagNum, data[h.headerLen..h.headerLen + h.length])
      else if h.length < 0 || |data| < h.headerLen + h.length then Err
      else Ok(Octets(data[h.headerLen..h.headerLen + h.length]))
  }

  /** A value that decodes keeps its reading whatever bytes follow it. */
  lemma ValueStable(data: seq<byte>, more: seq<byte>)
    requires DecodePropertyValue(data).Ok?
    ensures DecodePropertyValue(data + more) == DecodePropertyValue(data)
  {
    TagHeaderStable(data, more);
    var h := DecodeTagNumber(data).value;
    if 0 <= h.length && h.headerLen + h.length <= |data| {
      assert (data + more)[h.headerLen..h.headerLen + h.length] == data[h.headerLen..h.headerLen + h.length];
    }
  }

  // ---- What every header leads to ------------------------------------------

  /** Character sets 3, 4 and 5 are converted, every other one is taken as it stands. */
  lemma CharacterSets(charset: byte, payload: seq<byte>)
    ensures DecodeCharacterString([charset] + payload)
            == if charset == 3 || charset == 4 || charset == 5 then Converted(charset, payload) else Raw(payload)
    ensures DecodeCharacterString([]) == Raw([])
  {
    assert ([charset] + payload)[1..] == payload;
  }

  /** Which payloads an application tag accepts: the fixed forms insist on their width, the others take any. */
  lemma PayloadWidths(tagNum: byte, data: seq<byte>)
    requires tagNum >= 2
    ensures DecodePayload(tagNum, data).Ok? <==>
            && (tagNum in {TAG_REAL, TAG_DATE, TAG_TIME, TAG_OBJECT_ID} ==> |data| == 4)
            && (tagNum == TAG_DOUBLE ==> |data| == 8)
            && (tagNum == TAG_BITS ==> DecodeBitString(data).Ok?)
    ensures tagNum >= 13 ==> DecodePayload(tagNum, data) == Ok(Octets(data))
  {
  }

  /** A context tag: a closing one is no value, an opening one an error, a real length raw bytes if they are there. */
  lemma ContextValue(f: HeaderForm, body: seq<byte>)
    requires IsForm(f) && f.cls == Context
    ensures var n := LengthOf(f.form);
            DecodePropertyValue(PrintHeader(f) + body) ==
            if f.form.Close? then Ok(Nil) else if f.form.Open? || n > |body| then Err else Ok(Octets(body[..n]))
  {
    HeaderReads(f, body);
    hide DecodeTagNumber, PrintHeader;
    var n, header := LengthOf(f.form), PrintHeader(f);
    if 0 <= n <= |body| { assert (header + body)[|header|..|header| + n] == body[..n]; }
  }

  /** An application tag: Null and Boolean are in the header, all others in a payload that must be there. */
  lemma ApplicationValue(f: HeaderForm, body: seq<byte>)
    requires IsForm(f) && f.cls == Application
    ensures var n := LengthOf(f.form);
            DecodePropertyValue(PrintHeader(f) + body) ==
            if f.tagNum == TAG_NULL then Ok(Nil)
            else if f.tagNum == TAG_BOOLEAN then Ok(Bool(n == 1))
            else if n > |body| then Err
            else DecodePayload(f.tagNum, body[..n])
  {
    HeaderReads(f, body);
    hide DecodeTagNumber, PrintHeader, DecodePayload;
    var n, header := LengthOf(f.form), PrintHeader(f);
    if 0 <= n <= |body| { assert (header + body)[|header|..|header| + n] == body[..n]; }
  }

  // ---- Wire values ---------------------------------------------------------

  /** The application-tagged values that the tag encoders can print. */
  datatype AppValue =
    | AppNull
    | AppBoolean(b: bool)
    | AppUnsigned(n: uint32)
    | AppSigned(i: int32)
    | AppReal(bits32: uint32)
    | AppDouble(bits64: uint64)
    | AppOctets(octets: seq<byte>)
    | AppText(utf8: seq<byte>)
    | AppBits(bitString: BitString)
    | AppEnumerated(e: uint32)
    | AppDate(date: Date)
    | AppTime(time: Time)
    | AppObjectId(oid: ObjectIdentifier)

  function AppTag(v: AppValue): (t: byte)
    ensures t <= 12
  {
    match v
    case AppNull => TAG_NULL
    case AppBoolean(_) => TAG_BOOLEAN
    case AppUnsigned(_) => TAG_UNSIGNED
    case AppSigned(_) => TAG_SIGNED
    case AppReal(_) => TAG_REAL
    case AppDouble(_) => TAG_DOUBLE
    case AppOctets(_) => TAG_OCTETS
    case AppText(_) => TAG_TEXT
    case AppBits(_) => TAG_BITS
    case AppEnumerated(_) => TAG_ENUMERATED
    case AppDate(_) => TAG_DATE
    case AppTime(_) => TAG_TIME
    case AppObjectId(_) => TAG_OBJECT_ID
  }

  /** The bytes after the tag header; Null and Boolean have none. */
  function Payload(v: AppValue): (s: seq<byte>) {
    match v
    case AppNull => []
    case AppBoolean(_) => []
    case AppUnsigned(n) => EncodeUnsigned(n)
    case AppSigned(i) => EncodeSigned(i)
    case AppReal(bits) => Put32(bits)
    case AppDouble(bits) => Put64(bits)
    case AppOctets(o) => o
    case AppText(s) => [0] + s
    case AppBits(b) => EncodeBitString(b)
    case AppEnumerated(e) => EncodeUnsigned(e)
    case AppDate(d) => EncodeDate(d)
    case AppTime(t) => EncodeTime(t)
    case AppObjectId(oid) => EncodeObjectId(oid)
  }

  /** `EncodeBooleanTag` keeps the truth value in the length bits; the rest is header then payload. */
  function EncodeValue(v: AppValue): (s: seq<byte>)
    ensures |s| >= 1
  {
    if v.AppBoolean? then [if v.b then 0x11 else 0x10]
    else EncodeTag(AppTag(v), Application, |Payload(v)|) + Payload(v)
  }

  /** What a caller should get back for a wire value; enumerations surface as plain numbers. */
  function Surface(v: AppValue): (g: Value) {
    match v
    case AppNull => Nil
    case AppBoolean(b) => Bool(b)
    case AppUnsigned(n) => Uint32(n)
    case AppSigned(i) => Int32(i)
    case AppReal(bits) => Float32(bits)
    case AppDouble(bits) => Float64(bits)
    case AppOctets(o) => Octets(o)
    case AppText(s) => Text(Raw(s))
    case AppBits(b) => Bits(b)
    case AppEnumerated(e) => Uint32(e)
    case AppDate(d) => DateOf(d)
    case AppTime(t) => TimeOf(t)
    case AppObjectId(oid) => Oid(oid)
  }

  /** The values the wire format can carry without loss. */
  predicate Representable(v: AppValue) {
    && |Payload(v)| < 0x1_0000_0000
    && (v.AppBits? ==> v.bitString.Wellformed())
    && (v.AppDate? ==> RepresentableDate(v.date))
    && (v.AppObjectId? ==> InRange(v.oid))
  }

  lemma PayloadRoundTrip(v: AppValue)
    requires !v.AppNull? && !v.AppBoolean?
    ensures DecodePayload(AppTag(v), Payload(v)) == Ok(Surface(v))
            <==> (v.AppBits? ==> v.bitString.Wellformed())
                 && (v.AppDate? ==> RepresentableDate(v.date))
                 && (v.AppObjectId? ==> InRange(v.oid))
  {
    var p := Payload(v);
    assert p + [] == p;
    match v
    case AppUnsigned(n) => UnsignedRoundTrip(n);
    case AppEnumerated(e) => UnsignedRoundTrip(e);
    case AppSigned(i) => SignedRoundTrip(i);
    case AppReal(bits) => Word32Inverse(bits, []);
    case AppDouble(bits) => Put64Inverse(bits, []);
    case AppOctets(_) =>
    case AppText(s) => assert p[1..] == s;
    case AppBits(b) => BitStringRoundTrip(b);
    case AppDate(d) => DateRoundTrip(d);
    case AppTime(_) =>
    case AppObjectId(oid) =>
      Word32Inverse(PackObjectId(oid), []);
      ObjectIdRoundTrip(oid);
  }

  /** A proper prefix of a long payload never reads as the whole value. */
  lemma CutPayload(v: AppValue, n: nat)
    requires 8 < |Payload(v)| && n < |Payload(v)|
    ensures DecodePayload(AppTag(v), Payload(v)[..n]) != Ok(Surface(v))
  {
    var cut := Payload(v)[..n];
    assert |cut| == n;
    match v
    case AppOctets(_) =>
    case AppText(s) =>
      if n > 0 { assert |cut[1..]| < |s|; }
    case AppBits(b) =>
      if n > 0 { assert |cut[1..]| < |b.bytes|; }
    case _ =>
  }

  /** Header and payload are separated as the length field, read modulo 2^32, says. */
  lemma TaggedPrefix(tag: byte, p: seq<byte>, rest: seq<byte>)
    requires 2 <= tag <= 14
    ensures DecodePropertyValue(EncodeTag(tag, Application, |p|) + (p + rest))
            == DecodePayload(tag, p[..|p| % 0x1_0000_0000])
  {
    var n := |p| % 0x1_0000_0000;
    var header := EncodeTag(tag, Application, |p|);
    var data := header + (p + rest);
    DecodeShortNumber(tag, Application, |p|, p + rest);
    FieldAfter(header, p, rest, n);
  }

  lemma UntaggedValue(b: byte, rest: seq<byte>)
    requires b == 0 || b == 0x10 || b == 0x11
    ensures DecodePropertyValue([b] + rest) == Ok(if b == 0 then Nil else Bool(b == 0x11))
  {
    assert DecodeTagNumber([b] + rest) == Ok(TagHeader(b / 16, Application, b % 8, 1));
  }

  lemma TagInRange(v: AppValue)
    requires !v.AppNull? && !v.AppBoolean?
    ensures 2 <= AppTag(v) <= 12
  {
  }

  lemma TaggedRoundTrip(v: AppValue, rest: seq<byte>)
    requires !v.AppNull? && !v.AppBoolean?
    ensures DecodePropertyValue(EncodeValue(v) + rest) == Ok(Surface(v)) <==> Representable(v)
  {
    hide EncodeTag, DecodePropertyValue, DecodePayload, Payload, AppTag, Surface;
    var tag, p := AppTag(v), Payload(v);
    TagInRange(v);
    assert EncodeValue(v) + rest == EncodeTag(tag, Application, |p|) + (p + rest);
    TaggedPrefix(tag, p, rest);
    if |p| >= 0x1_0000_0000 {
      CutPayload(v, |p| % 0x1_0000_0000);
    } else {
      assert p[..|p| % 0x1_0000_0000] == p;
      PayloadRoundTrip(v);
    }
  }

  /**
   The value codec: with any bytes following, the decoder gives the value back
   exactly when the wire format can carry it.
   */
  lemma ValueRoundTrip(v: AppValue, rest: seq<byte>)
    ensures DecodePropertyValue(EncodeValue(v) + rest) == Ok(Surface(v)) <==> Representable(v)
  {
    if v.AppNull? {
      assert EncodeValue(v) == [0];
      UntaggedValue(0, rest);
    } else if v.AppBoolean? {
      UntaggedValue(if v.b then 0x11 else 0x10, rest);
    } else {
      TaggedRoundTrip(v, rest);
    }
  }

  // ---- Writing Go values ---------------------------------------------------

  /** What `WriteProperty` may be handed; Go's `int` is 64 bits wide. */
  datatype GoValue =
    | GoNil
    | GoBool(b: bool)
    | GoInt(i: int64)
    | GoInt32(i32: int32)
    | GoUint32(u: uint32)
    | GoFloat32(bits32: uint32)
    | GoFloat64(bits64: uint64)
    | GoString(utf8: seq<byte>)
    | GoObjectId(oid: ObjectIdentifier)
    | GoUnsupported

  /** The wire value that `encodePropertyValue` chooses: non-negative ints are written as Unsigned. */
  function WireValue(g: GoValue): (r: Result<AppValue>) {
    match g
    case GoNil => Ok(AppNull)
    case GoBool(b) => Ok(AppBoolean(b))
    case GoInt(i) => if i >= 0 then Ok(AppUnsigned(i % 0x1_0000_0000)) else Ok(AppSigned(ToInt32(i % 0x1_0000_0000)))
    case GoInt32(i) => if i >= 0 then Ok(AppUnsigned(i)) else Ok(AppSigned(i))
    case GoUint32(u) => Ok(AppUnsigned(u))
    case GoFloat32(bits) => Ok(AppReal(bits))
    case GoFloat64(bits) => Ok(AppDouble(bits))
    case GoString(s) => Ok(AppText(s))
    case GoObjectId(oid) => Ok(AppObjectId(oid))
    case GoUnsupported => Err
  }

  function EncodePropertyValue(g: GoValue): (r: Result<seq<byte>>) {
    var w := WireValue(g);
    if w.Err? then Err else Ok(EncodeValue(w.value))
  }

  /** The value read back means the same as the value written; numbers compare as numbers. */
  predicate Means(v: Value, g: GoValue) {
    match g
    case GoNil => v == Nil
    case GoBool(b) => v == Bool(b)
    case GoInt(i) => (v.Uint32? && v.n == i) || (v.Int32? && v.i == i)
    case GoInt32(i) => (v.Uint32? && v.n == i) || (v.Int32? && v.i == i)
    case GoUint32(u) => v == Uint32(u)
    case GoFloat32(bits) => v == Float32(bits)
    case GoFloat64(bits) => v == Float64(bits)
    case GoString(s) => v == Text(Raw(s))
    case GoObjectId(oid) => v == Oid(oid)
    case GoUnsupported => false
  }

  predicate Writable(g: GoValue) {
    match g
    case GoInt(i) => -0x8000_0000 <= i < 0x1_0000_0000
    case GoString(s) => |s| + 1 < 0x1_0000_0000
    case GoObjectId(oid) => InRange(oid)
    case GoUnsupported => false
    case _ => true
  }

  lemma NumberSurface(g: GoValue)
    requires g.GoInt? || g.GoInt32?
    ensures Representable(WireValue(g).value)
    ensures Means(Surface(WireValue(g).value), g) <==> Writable(g)
  {
  }

  lemma OtherSurface(g: GoValue, v: Value)
    requires !g.GoInt? && !g.GoInt32? && !g.GoUnsupported?
    ensures Means(v, g) <==> v == Surface(WireValue(g).value)
    ensures Representable(WireValue(g).value) <==> Writable(g)
  {
  }

  /** Which of the two integer types a written number comes back as depends on its sign alone. */
  lemma NonNegativeIsUnsigned(i: int32, rest: seq<byte>)
    ensures ReadBack(GoInt32(i), rest) == Ok(if i >= 0 then Uint32(i) else Int32(i))
  {
    var w := WireValue(GoInt32(i)).value;
    assert Surface(w) == if i >= 0 then Uint32(i) else Int32(i);
    NumberSurface(GoInt32(i));
    hide DecodePropertyValue, EncodeValue, Representable, Surface;
    ValueRoundTrip(w, rest);
  }

  /** An integer that does not fit is cut to 32 bits: the number read is the same modulo 2^32. */
  lemma IntegersWrap(i: int64, rest: seq<byte>)
    ensures var r := ReadBack(GoInt(i), rest);
            && r.Ok?
            && (if i >= 0 then r.value.Uint32? && (r.value.n as int - i) % 0x1_0000_0000 == 0
                else r.value.Int32? && (r.value.i as int - i) % 0x1_0000_0000 == 0)
  {
    hide DecodePropertyValue, EncodeValue, WireValue, Representable, Surface, Means, Writable;
    WireInteger(i);
    IntegerSurface(WireValue(GoInt(i)).value);
    NumberSurface(GoInt(i));
    ValueRoundTrip(WireValue(GoInt(i)).value, rest);
  }

  lemma IntegerSurface(w: AppValue)
    ensures w.AppUnsigned? ==> Surface(w) == Uint32(w.n)
    ensures w.AppSigned? ==> Surface(w) == Int32(w.i)
  {
  }

  lemma WireInteger(i: int64)
    ensures WireValue(GoInt(i)).Ok?
    ensures var w := WireValue(GoInt(i)).value;
            if i >= 0 then w.AppUnsigned? && (w.n as int - i) % 0x1_0000_0000 == 0
            else w.AppSigned? && (w.i as int - i) % 0x1_0000_0000 == 0
  {
    var u := i % 0x1_0000_0000;
    assert i == i / 0x1_0000_0000 * 0x1_0000_0000 + u;
    if i >= 0 {
      MultipleOf(-(i / 0x1_0000_0000), u - i);
    } else {
      var carry := if u < 0x8000_0000 then 0 else 1;
      assert ToInt32(u) == u - carry * 0x1_0000_0000;
      MultipleOf(-(i / 0x1_0000_0000) - carry, ToInt32(u) - i);
    }
  }

  lemma MultipleOf(k: int, d: int)
    requires d == k * 0x1_0000_0000
    ensures d % 0x1_0000_0000 == 0
  {
  }

  /** What a reader finds after `g` was written; nothing when it could not be written. */
  function ReadBack(g: GoValue, rest: seq<byte>): (r: Result<Value>) {
    var e := EncodePropertyValue(g);
    if e.Err? then Err else DecodePropertyValue(e.value + rest)
  }

  /** Writing then reading keeps a Go value's meaning exactly when it is writable. */
  lemma WrittenValueRoundTrip(g: GoValue, rest: seq<byte>)
    ensures ReadBack(g, rest).Ok? && Means(ReadBack(g, rest).value, g) <==> Writable(g)
  {
    if !g.GoUnsupported? {
      var w := WireValue(g).value;
      ValueRoundTrip(w, rest);
      if g.GoInt? || g.GoInt32? {
        NumberSurface(g);
      } else {
        OtherSurface(g, Nil);
        if ReadBack(g, rest).Ok? {
          OtherSurface(g, ReadBack(g, rest).value);
        }
      }
    }
  }
}
