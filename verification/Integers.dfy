/**
 Unsigned and signed integer codecs (protocol.go), and object identifiers,
 dates and times, whose payloads are fixed four-byte forms.
 */
module Integers {
  import opened Bytes

  // ---- Unsigned integers ---------------------------------------------------

  function EncodeUnsigned(value: uint32): (s: seq<byte>)
    ensures 1 <= |s| <= 4
  {
    if value < 0x100 then [value]
    else if value < 0x1_0000 then [value / 0x100, value % 0x100]
    else if value < 0x100_0000 then [value / 0x1_0000, value / 0x100 % 0x100, value % 0x100]
    else Put32(value)
  }

  function DecodeUnsigned(data: seq<byte>): (v: uint32)
  {
    if |data| == 1 then data[0]
    else if |data| == 2 then BigEndian16(data)
    else if |data| == 3 then data[0] as int * 0x1_0000 + data[1] as int * 0x100 + data[2]
    else if |data| == 4 then BigEndian32(data)
    else 0
  }

  lemma UnsignedRoundTrip(v: uint32)
    ensures DecodeUnsigned(EncodeUnsigned(v)) == v
  {
    hide Put32, BigEndian32;
    if v < 0x100 {
    } else if v < 0x1_0000 {
      assert v == v / 0x100 * 0x100 + v % 0x100;
    } else if v < 0x100_0000 {
      ThreeDigits(v);
    } else {
      Word32Inverse(v, []);
      assert Put32(v) + [] == Put32(v);
    }
  }

  lemma ThreeDigits(v: nat)
    ensures v == v / 0x1_0000 * 0x1_0000 + v / 0x100 % 0x100 * 0x100 + v % 0x100
  {
    SumOfDigits(v);
  }

  /** The encoder's form is the shortest payload of its value, and the only one of that length. */
  lemma UnsignedShortest(data: seq<byte>)
    requires 1 <= |data| <= 4
    ensures var e := EncodeUnsigned(DecodeUnsigned(data));
            |e| <= |data| && (|e| == |data| ==> e == data)
  {
    if |data| == 3 {
      DigitsOfSum(0, data[0], data[1], data[2]);
    } else if |data| == 4 {
      Put32Onto(data);
    }
  }

  // ---- Signed integers -----------------------------------------------------

  function EncodeSigned(value: int32): (s: seq<byte>)
    ensures 1 <= |s| <= 4
  {
    if -0x80 <= value < 0x80 then [value % 0x100]
    else if -0x8000 <= value < 0x8000 then [value / 0x100 % 0x100, value % 0x100]
    else if -0x80_0000 <= value < 0x80_0000 then
      [value / 0x1_0000 % 0x100, value / 0x100 % 0x100, value % 0x100]
    else
      [value / 0x100_0000 % 0x100, value / 0x1_0000 % 0x100, value / 0x100 % 0x100, value % 0x100]
  }

  function DecodeSigned(data: seq<byte>): (v: int32)
  {
    if |data| == 1 then
      if data[0] < 0x80 then data[0] else data[0] as int - 0x100
    else if |data| == 2 then
      var u: int := BigEndian16(data);
      if u < 0x8000 then u else u - 0x1_0000
    else if |data| == 3 then
      // The top bit of the first byte fills the missing high byte with ones.
      var u := data[0] as int * 0x1_0000 + data[1] as int * 0x100 + data[2];
      if data[0] < 0x80 then u else u - 0x100_0000
    else if |data| == 4 then ToInt32(BigEndian32(data))
    else 0
  }

  /** Go's `int32(u)`. */
  function ToInt32(u: uint32): (v: int32)
    ensures v % 0x1_0000_0000 == u
  {
    if u < 0x8000_0000 then u else u as int - 0x1_0000_0000
  }

  /** Reading back digits whose leading one is signed. */
  lemma SignedDigits(a: int, b: byte, c: byte, d: byte)
    requires -0x80 <= a < 0x80
    ensures DecodeSigned([a % 0x100, b]) == a * 0x100 + b
    ensures DecodeSigned([a % 0x100, b, c]) == a * 0x1_0000 + b as int * 0x100 + c
    ensures DecodeSigned([a % 0x100, b, c, d])
            == a * 0x100_0000 + b as int * 0x1_0000 + c as int * 0x100 + d
  {
    assert a % 0x100 == if a < 0 then a + 0x100 else a;
  }

  lemma SignedRoundTrip(v: int32)
    ensures DecodeSigned(EncodeSigned(v)) == v
  {
    if -0x80 <= v < 0x80 {
    } else if -0x8000 <= v < 0x8000 {
      SignedDigits(v / 0x100, v % 0x100, 0, 0);
    } else if -0x80_0000 <= v < 0x80_0000 {
      SumOfDigits(v);
      SignedDigits(v / 0x1_0000, v / 0x100 % 0x100, v % 0x100, 0);
    } else {
      SumOfDigits(v);
      SignedDigits(v / 0x100_0000, v / 0x1_0000 % 0x100, v / 0x100 % 0x100, v % 0x100);
    }
  }

  /** The encoder's form is the shortest payload of its value, and the only one of that length. */
  lemma SignedShortest(data: seq<byte>)
    requires 1 <= |data| <= 4
    ensures var e := EncodeSigned(DecodeSigned(data));
            |e| <= |data| && (|e| == |data| ==> e == data)
  {
    if |data| == 2 {
      assert DecodeSigned(data) % 0x100 == data[1];
    } else if |data| == 3 {
      SignedShortest3(data);
    } else if |data| == 4 {
      SignedShortest4(data);
    }
  }

  lemma SignedShortest3(data: seq<byte>)
    requires |data| == 3
    ensures var e := EncodeSigned(DecodeSigned(data)); |e| < 3 || e == data
  {
    DigitsOfSum(if data[0] < 0x80 then 0 else -1, data[0], data[1], data[2]);
  }

  lemma SignedShortest4(data: seq<byte>)
    requires |data| == 4
    ensures var e := EncodeSigned(DecodeSigned(data)); |e| < 4 || e == data
  {
    var a: int := if data[0] < 0x80 then data[0] else data[0] as int - 0x100;
    DigitsOfSum(a, data[1], data[2], data[3]);
    assert DecodeSigned(data) == a * 0x100_0000 + data[1] as int * 0x1_0000 + data[2] as int * 0x100 + data[3];
    assert a % 0x100 == data[0];
  }

  /** Payloads of no width the format knows are read as zero, not refused. */
  lemma OtherWidthsAreZero(data: seq<byte>)
    requires |data| == 0 || |data| > 4
    ensures DecodeUnsigned(data) == 0 && DecodeSigned(data) == 0
  {
  }

  // ---- Object identifiers (types.go) ---------------------------------------

  datatype ObjectIdentifier = ObjectIdentifier(objectType: uint16, instance: uint32)

  /** The ten-bit type and twenty-two-bit instance that the wire form can carry. */
  predicate InRange(oid: ObjectIdentifier) {
    oid.objectType < 0x400 && oid.instance < 0x40_0000
  }

  function PackObjectId(oid: ObjectIdentifier): (v: uint32) {
    oid.objectType % 0x400 * 0x40_0000 + oid.instance % 0x40_0000
  }

  function DecodeObjectId(v: uint32): (oid: ObjectIdentifier)
    ensures InRange(oid)
  {
    ObjectIdentifier(v / 0x40_0000 % 0x400, v % 0x40_0000)
  }

  function EncodeObjectId(oid: ObjectIdentifier): (s: seq<byte>)
    ensures |s| == 4
  {
    Put32(PackObjectId(oid))
  }

  /** Packing is injective exactly on the identifiers in range, and onto all 32-bit words. */
  lemma ObjectIdRoundTrip(oid: ObjectIdentifier)
    ensures DecodeObjectId(PackObjectId(oid)) == oid <==> InRange(oid)
  {
    UnpackSum(oid.objectType % 0x400, oid.instance % 0x40_0000);
  }

  lemma UnpackSum(t: int, i: int)
    requires 0 <= t < 0x400 && 0 <= i < 0x40_0000
    ensures DecodeObjectId(t * 0x40_0000 + i) == ObjectIdentifier(t, i)
  {
  }

  /** Out of range, the surplus high bits are cut off: the identifier reads as another one. */
  lemma ObjectIdWraps(oid: ObjectIdentifier)
    ensures DecodeObjectId(PackObjectId(oid)) == ObjectIdentifier(oid.objectType % 0x400, oid.instance % 0x40_0000)
  {
    UnpackSum(oid.objectType % 0x400, oid.instance % 0x40_0000);
  }

  lemma ObjectIdOnto(v: uint32)
    ensures PackObjectId(DecodeObjectId(v)) == v
  {
  }

  // ---- Dates and times (datetime.go) ---------------------------------------

  datatype Date = Date(year: uint16, month: byte, day: byte, dayOfWeek: byte)
  datatype Time = Time(hour: byte, minute: byte, second: byte, hundredths: byte)

  const WILDCARD_YEAR: uint16 := 0xFFFF

  function EncodeDate(d: Date): (s: seq<byte>)
    ensures |s| == 4
  {
    [if d.year == WILDCARD_YEAR then 0xFF else (d.year as int - 1900) % 0x100, d.month, d.day, d.dayOfWeek]
  }

  function DecodeDate(s: seq<byte>): (d: Date)
    requires |s| == 4
  {
    Date(if s[0] == 0xFF then WILDCARD_YEAR else s[0] as int + 1900, s[1], s[2], s[3])
  }

  predicate RepresentableDate(d: Date) {
    1900 <= d.year <= 2154 || d.year == WILDCARD_YEAR
  }

  /** A date survives the wire exactly when its year fits the single year byte. */
  lemma DateRoundTrip(d: Date)
    ensures DecodeDate(EncodeDate(d)) == d <==> RepresentableDate(d)
  {
  }

  /** Out of range, the year is cut to a byte; one byte of the 256 reads as the wildcard. */
  lemma DateWraps(d: Date)
    ensures var back := DecodeDate(EncodeDate(d));
            && back.month == d.month && back.day == d.day && back.dayOfWeek == d.dayOfWeek
            && if d.year == WILDCARD_YEAR || (d.year as int - 2155) % 0x100 == 0 then back.year == WILDCARD_YEAR
               else 1900 <= back.year <= 2154 && (back.year as int - d.year) % 0x100 == 0
  {
  }

  lemma TimeRoundTrip(t: Time)
    ensures DecodeTime(EncodeTime(t)) == t
  {
  }

  lemma DateOnto(s: seq<byte>)
    requires |s| == 4
    ensures EncodeDate(DecodeDate(s)) == s
  {
  }

  function EncodeTime(t: Time): (s: seq<byte>)
    ensures |s| == 4
  {
    [t.hour, t.minute, t.second, t.hundredths]
  }

  function DecodeTime(s: seq<byte>): (t: Time)
    requires |s| == 4
  {
    Time(s[0], s[1], s[2], s[3])
  }
}
