/**
 Bit strings: section 20.2.10 of ANSI/ASHRAE 135 as bitstring.go stores, packs and reads them.
 */
module BitStrings {
  import opened Bytes

  datatype BitString = BitString(unusedBits: byte, bytes: seq<byte>) {

    function Len(): (n: int) {
      if |bytes| == 0 then 0 else |bytes| * 8 - unusedBits
    }

    /** Bit 0 is the high bit of the first byte; any other index out of range reads as false. */
    predicate Bit(i: int) {
      if i < 0 || i >= Len() then false
      else HasBit(bytes[i / 8], 7 - i % 8)
    }

    /** What the wire form admits. */
    predicate Wellformed() {
      unusedBits <= 7 && (bytes == [] ==> unusedBits == 0)
    }
  }

  function EncodeBitString(b: BitString): (s: seq<byte>) {
    [b.unusedBits] + b.bytes
  }

  function DecodeBitString(payload: seq<byte>): (r: Result<BitString>) {
    if |payload| == 0 then Err
    else if payload[0] > 7 then Err
    else if |payload| == 1 && payload[0] != 0 then Err
    else Ok(BitString(payload[0], payload[1..]))
  }

  /** Nothing is set outside the length, and without bytes there is no length. */
  lemma NothingOutOfRange(b: BitString, i: int)
    requires i < 0 || i >= b.Len()
    ensures !b.Bit(i)
    ensures b.bytes == [] ==> b.Len() == 0
  {
  }

  /** Encoding is undone exactly on the well-formed bit strings. */
  lemma BitStringRoundTrip(b: BitString)
    ensures DecodeBitString(EncodeBitString(b)) == Ok(b) <==> b.Wellformed()
  {
    assert EncodeBitString(b)[1..] == b.bytes;
  }

  /** Every accepted payload is the encoding of the bit string it decodes to. */
  lemma BitStringCanonical(payload: seq<byte>)
    requires DecodeBitString(payload).Ok?
    ensures DecodeBitString(payload).value.Wellformed()
    ensures EncodeBitString(DecodeBitString(payload).value) == payload
  {
  }

  /** `bytes[i]` holds, from the top, the bits of `bits` that have been packed so far. */
  ghost predicate Packed(bits: seq<bool>, bytes: seq<byte>, upTo: int) {
    forall p :: 0 <= p < |bytes| * 8 ==>
      HasBit(bytes[p / 8], 7 - p % 8) == (p < upTo && p < |bits| && bits[p])
  }

  /** Sets one bit in the buffer, as `out.Bytes[i/8] |= 0x80 >> (i%8)` does. */
  method OrInto(buffer: array<byte>, i: nat)
    requires i / 8 < buffer.Length
    modifies buffer
    ensures buffer[i / 8] == SetBit(old(buffer[i / 8]), 7 - i % 8)
    ensures forall j :: 0 <= j < buffer.Length && j != i / 8 ==> buffer[j] == old(buffer[j])
  {
    SetBitBound(buffer[i / 8], 7 - i % 8, 8);
    assert Pow2(8) == 0x100;
    buffer[i / 8] := SetBit(buffer[i / 8], 7 - i % 8);
  }

  lemma PackedStep(bits: seq<bool>, before: seq<byte>, after: seq<byte>, i: nat)
    requires i < |bits| && i / 8 < |before| && |after| == |before|
    requires Packed(bits, before, i)
    requires forall j :: 0 <= j < |before| && j != i / 8 ==> after[j] == before[j]
    requires after[i / 8] == if bits[i] then SetBit(before[i / 8], 7 - i % 8) else before[i / 8]
    ensures Packed(bits, after, i + 1)
  {
    forall p | 0 <= p < |after| * 8
      ensures HasBit(after[p / 8], 7 - p % 8) == (p < i + 1 && p < |bits| && bits[p])
    {
      assert HasBit(before[p / 8], 7 - p % 8) == (p < i && p < |bits| && bits[p]);
      BitAfter(before[p / 8], after[p / 8], p, i, bits[i]);
    }
  }

  /** What setting bit `i`, or not, does to bit `p` of the byte it is in. */
  lemma BitAfter(before: byte, after: byte, p: nat, i: nat, on: bool)
    requires after == if on && p / 8 == i / 8 then SetBit(before, 7 - i % 8) else before
    ensures HasBit(after, 7 - p % 8) == (HasBit(before, 7 - p % 8) || (on && p == i))
  {
    hide HasBit, SetBit;
    SamePlace(p, i);
    if on && p / 8 == i / 8 {
      SetBitReads(before, 7 - i % 8, 7 - p % 8);
    }
  }

  lemma SamePlace(p: nat, i: nat)
    ensures p == i <==> p / 8 == i / 8 && p % 8 == i % 8
  {
    assert p == p / 8 * 8 + p % 8 && i == i / 8 * 8 + i % 8;
  }

  /**
   Packs a list of bits into bytes, in place. Everything a reader of the result can
   see is fixed: the length, every bit, and zeros in the padding.
   */
  method NewBitStringFromBits(bits: seq<bool>) returns (b: BitString)
    ensures b.Wellformed()
    ensures b.Len() == |bits|
    ensures forall i :: 0 <= i < |bits| ==> b.Bit(i) == bits[i]
    ensures forall p :: |bits| <= p < |b.bytes| * 8 ==> !HasBit(b.bytes[p / 8], 7 - p % 8)
    ensures |b.bytes| == (|bits| + 7) / 8
  {
    if |bits| == 0 {
      return BitString(0, []);
    }
    var nBytes := (|bits| + 7) / 8;
    var buffer := new byte[nBytes](_ => 0);
    forall p | 0 <= p < nBytes * 8 ensures !HasBit(buffer[..][p / 8], 7 - p % 8) {
      ZeroHasNoBits(7 - p % 8);
    }
    for i := 0 to |bits|
      invariant Packed(bits, buffer[..], i)
    {
      ghost var before := buffer[..];
      if bits[i] {
        OrInto(buffer, i);
      }
      PackedStep(bits, before, buffer[..], i);
    }
    b := BitString(nBytes * 8 - |bits|, buffer[..]);
    forall i | 0 <= i < |bits| ensures b.Bit(i) == bits[i] {
      assert HasBit(buffer[..][i / 8], 7 - i % 8) == bits[i];
    }
  }

  /** Two packed bit strings of equal bits are equal: the packing loses and adds nothing. */
  lemma PackedUnique(bits: seq<bool>, a: seq<byte>, b: seq<byte>)
    requires |a| == |b| && Packed(bits, a, |bits|) && Packed(bits, b, |bits|)
    ensures a == b
  {
    forall j | 0 <= j < |a| ensures a[j] == b[j] {
      forall k: nat | k < 8 ensures HasBit(a[j], k) == HasBit(b[j], k) {
        var p := j * 8 + (7 - k);
        assert p / 8 == j && 7 - p % 8 == k;
      }
      SameBitsSameNumber(a[j], b[j], 8);
    }
  }

  lemma {:induction false} SameBitsSameNumber(x: nat, y: nat, n: nat)
    requires x < Pow2(n) && y < Pow2(n)
    requires forall k: nat :: k < n ==> HasBit(x, k) == HasBit(y, k)
    ensures x == y
  {
    if n > 0 {
      assert HasBit(x, 0) == HasBit(y, 0);
      forall k: nat | k < n - 1 ensures HasBit(x / 2, k) == HasBit(y / 2, k) {
        assert HasBit(x, k + 1) == HasBit(y, k + 1);
      }
      SameBitsSameNumber(x / 2, y / 2, n - 1);
    }
  }
}
