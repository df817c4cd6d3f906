/**
 The payload of an Error reply: `readUnsignedTag` and `decodeError` (client.go).
 */
module ErrorReplies {
  import opened Bytes
  import opened Integers
  import opened Tags
  import opened Values

  /** The number behind the tag at `offset`, whatever the tag's number and class, and where it ends. */
  function ReadUnsignedTag(data: seq<byte>, offset: int): (r: Result<(uint32, nat)>)
    ensures r.Ok? ==> 0 <= offset < r.value.1 <= |data|
  {
    if offset < 0 || offset > |data| then Err
    else
      var t := DecodeTagNumber(data[offset..]);
      if t.Err? || t.value.length < 0 || offset + t.value.headerLen + t.value.length > |data| then Err
      else
        var start := offset + t.value.headerLen;
        Ok((DecodeUnsigned(data[start..start + t.value.length]), start + t.value.length))
  }

  /** Error class and code, each cut to the eight bits of its Go type. */
  function DecodeError(data: seq<byte>): (r: Result<(byte, byte)>) {
    var c := ReadUnsignedTag(data, 0);
    if c.Err? then Err
    else
      var e := ReadUnsignedTag(data, c.value.1);
      if e.Err? then Err else Ok((c.value.0 % 0x100, e.value.0 % 0x100))
  }

  /** A number under any tag, in any form, is read where it stands; a sentinel or a cut payload is refused. */
  lemma UnsignedTagReads(prefix: seq<byte>, f: HeaderForm, body: seq<byte>)
    requires IsForm(f)
    ensures var n := LengthOf(f.form);
            ReadUnsignedTag(prefix + (PrintHeader(f) + body), |prefix|) ==
            if n < 0 || n > |body| then Err
            else Ok((DecodeUnsigned(body[..n]), |prefix| + |PrintHeader(f)| + n))
  {
    HeaderReads(f, body);
    hide DecodeTagNumber, PrintHeader, DecodeUnsigned;
    var header, n := PrintHeader(f), LengthOf(f.form);
    var data := prefix + (header + body);
    assert data[|prefix|..] == header + body;
    if 0 <= n <= |body| {
      var start := |prefix| + |header|;
      assert data[start..] == body;
      assert data[start..start + n] == body[..n];
    }
  }

  /** Nothing is read past the end, or where no header stands. */
  lemma NoTagNoNumber(data: seq<byte>, offset: int)
    requires offset < 0 || offset > |data| || DecodeTagNumber(data[offset..]).Err?
    ensures ReadUnsignedTag(data, offset) == Err
  {
  }

  /** The payload as a device prints it. */
  function PrintError(errorClass: uint32, errorCode: uint32): (s: seq<byte>) {
    EncodeValue(AppEnumerated(errorClass)) + EncodeValue(AppEnumerated(errorCode))
  }

  lemma EnumeratedForm(v: uint32)
    ensures var p := EncodeUnsigned(v);
            EncodeValue(AppEnumerated(v)) == PrintHeader(StandardForm(TAG_ENUMERATED, Application, |p|)) + p
  {
    var p := EncodeUnsigned(v);
    EncodesStandard(TAG_ENUMERATED, Application, |p|);
    hide EncodeTag, PrintHeader, EncodeUnsigned;
  }

  lemma NumberReads(prefix: seq<byte>, v: uint32, rest: seq<byte>)
    ensures ReadUnsignedTag(prefix + (EncodeValue(AppEnumerated(v)) + rest), |prefix|)
            == Ok((v, |prefix| + |EncodeValue(AppEnumerated(v))|))
  {
    var p := EncodeUnsigned(v);
    var f := StandardForm(TAG_ENUMERATED, Application, |p|);
    EnumeratedForm(v);
    UnsignedRoundTrip(v);
    assert LengthOf(f.form) == |p|;
    hide PrintHeader, EncodeValue, EncodeUnsigned, DecodeUnsigned, ReadUnsignedTag, LengthOf, StandardForm, IsForm;
    assert EncodeValue(AppEnumerated(v)) + rest == PrintHeader(f) + (p + rest);
    UnsignedTagReads(prefix, f, p + rest);
    assert (p + rest)[..|p|] == p;
  }

  /** What comes back, whatever follows: both numbers modulo 256. */
  lemma ErrorReads(errorClass: uint32, errorCode: uint32, rest: seq<byte>)
    ensures DecodeError(PrintError(errorClass, errorCode) + rest) == Ok((errorClass % 0x100, errorCode % 0x100))
  {
    hide EncodeValue, ReadUnsignedTag;
    var first, second := EncodeValue(AppEnumerated(errorClass)), EncodeValue(AppEnumerated(errorCode));
    var data := PrintError(errorClass, errorCode) + rest;
    assert data == [] + (first + (second + rest));
    NumberReads([], errorClass, second + rest);
    assert data == first + (second + rest);
    NumberReads(first, errorCode, rest);
  }

  /** The error is told right exactly when class and code fit a byte; codes from 256 on read as others. */
  lemma ErrorRoundTrip(errorClass: uint32, errorCode: uint32, rest: seq<byte>)
    ensures DecodeError(PrintError(errorClass, errorCode) + rest) == Ok((errorClass, errorCode))
            <==> errorClass < 0x100 && errorCode < 0x100
  {
    hide DecodeError, PrintError;
    ErrorReads(errorClass, errorCode, rest);
  }

  /** A payload that ends before or behind the class is refused. */
  lemma CutErrorIsRefused(errorClass: uint32)
    ensures DecodeError([]) == Err && DecodeError(EncodeValue(AppEnumerated(errorClass))) == Err
  {
    hide EncodeValue, ReadUnsignedTag;
    var first := EncodeValue(AppEnumerated(errorClass));
    NumberReads([], errorClass, []);
    assert [] + (first + []) == first;
    assert first[|first|..] == [];
    NoTagNoNumber(first, |first|);
    NoTagNoNumber([], 0);
  }
}
