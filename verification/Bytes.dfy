/**
 Bytes, fixed-width integers and the big-endian helpers that every codec shares.

 Bit fields are modelled with division and remainder: `x >> k` on an unsigned
 value is `x / 2^k`, `x & (2^k - 1)` is `x % 2^k`, and a Go conversion such as
 `byte(x)` or `uint32(x)` is a remainder. Dafny's division is Euclidean, so with
 a positive divisor it agrees with Go's arithmetic shift on negative operands.
 */
module Bytes {

  type byte = x: int | 0 <= x < 0x100
  type uint16 = x: int | 0 <= x < 0x1_0000
  type uint32 = x: int | 0 <= x < 0x1_0000_0000
  type uint64 = x: int | 0 <= x < 0x1_0000_0000_0000_0000
  type int32 = x: int | -0x8000_0000 <= x < 0x8000_0000
  type int64 = x: int | -0x8000_0000_0000_0000 <= x < 0x8000_0000_0000_0000

  datatype Option<+T> = None | Some(value: T)

  /** The source's error returns; which sentinel error it is carries no behaviour. */
  datatype Result<+T> = Ok(value: T) | Err

  /** `binary.BigEndian.Uint16`: reads the first two bytes. */
  function BigEndian16(s: seq<byte>): (v: uint16)
    requires |s| >= 2
  {
    s[0] as int * 0x100 + s[1]
  }

  /** `binary.BigEndian.Uint32`: reads the first four bytes. */
  function BigEndian32(s: seq<byte>): (v: uint32)
    requires |s| >= 4
  {
    s[0] as int * 0x100_0000 + s[1] as int * 0x1_0000 + s[2] as int * 0x100 + s[3]
  }

  /** `binary.BigEndian.Uint64`: reads the first eight bytes. */
  function BigEndian64(s: seq<byte>): (v: uint64)
    requires |s| >= 8
  {
    0x1_0000_0000 * BigEndian32(s) + BigEndian32(s[4..])
  }

  /** The low two bytes of `n`, most significant first. */
  function Put16(n: nat): (s: seq<byte>)
    ensures |s| == 2
  {
    [n / 0x100 % 0x100, n % 0x100]
  }

  /** The low four bytes of `n`, most significant first. */
  function Put32(n: nat): (s: seq<byte>)
    ensures |s| == 4
  {
    [n / 0x100_0000 % 0x100, n / 0x1_0000 % 0x100, n / 0x100 % 0x100, n % 0x100]
  }

  function Put64(n: uint64): (s: seq<byte>)
    ensures |s| == 8
  {
    Put32(n / 0x1_0000_0000) + Put32(n % 0x1_0000_0000)
  }

  /** Reading the base-256 digits of a sum of digits; the leading digit may be any integer. */
  lemma DigitsOfSum(a: int, b: byte, c: byte, d: byte)
    ensures var v := a * 0x100_0000 + b as int * 0x1_0000 + c as int * 0x100 + d;
            && v / 0x100_0000 == a && v / 0x1_0000 == a * 0x100 + b
            && v / 0x100 == a * 0x1_0000 + b as int * 0x100 + c
            && v / 0x1_0000 % 0x100 == b && v / 0x100 % 0x100 == c && v % 0x100 == d
  {
  }

  /** Every integer is the sum of its base-256 digits. */
  lemma SumOfDigits(v: int)
    ensures v == v / 0x100_0000 * 0x100_0000 + v / 0x1_0000 % 0x100 * 0x1_0000
                 + v / 0x100 % 0x100 * 0x100 + v % 0x100
    ensures v / 0x100 == v / 0x1_0000 * 0x100 + v / 0x100 % 0x100
    ensures v / 0x1_0000 == v / 0x100_0000 * 0x100 + v / 0x1_0000 % 0x100
  {
    var a, b, c := v / 0x100, v / 0x1_0000, v / 0x100_0000;
    assert b == a / 0x100 && c == b / 0x100;
  }

  lemma Put16Inverse(n: nat, rest: seq<byte>)
    ensures BigEndian16(Put16(n) + rest) == n % 0x1_0000
  {
  }

  lemma Put16Onto(s: seq<byte>)
    requires |s| == 2
    ensures Put16(BigEndian16(s)) == s
  {
    DigitsOfSum(0, 0, s[0], s[1]);
  }

  /** The four digits that `Put32` keeps add up to the number modulo 2^32. */
  lemma LowDigits(n: nat)
    ensures n / 0x100_0000 % 0x100 * 0x100_0000 + n / 0x1_0000 % 0x100 * 0x1_0000
            + n / 0x100 % 0x100 * 0x100 + n % 0x100 == n % 0x1_0000_0000
  {
    SumOfDigits(n);
    SplitModulo(n / 0x100_0000, n / 0x1_0000 % 0x100 * 0x1_0000 + n / 0x100 % 0x100 * 0x100 + n % 0x100);
  }

  lemma SplitModulo(c: nat, low: nat)
    requires low < 0x100_0000
    ensures (c * 0x100_0000 + low) % 0x1_0000_0000 == c % 0x100 * 0x100_0000 + low
  {
    var q, r := c / 0x100, c % 0x100;
    assert c == q * 0x100 + r;
    assert c * 0x100_0000 + low == q * 0x1_0000_0000 + (r * 0x100_0000 + low);
    RemainderOf(q, r * 0x100_0000 + low);
  }

  lemma RemainderOf(q: nat, r: nat)
    requires r < 0x1_0000_0000
    ensures (q * 0x1_0000_0000 + r) % 0x1_0000_0000 == r
  {
  }

  lemma Put32Inverse(n: nat, rest: seq<byte>)
    ensures BigEndian32(Put32(n) + rest) == n % 0x1_0000_0000
  {
    LowDigits(n);
    var s := Put32(n) + rest;
    assert s[0] == Put32(n)[0] && s[1] == Put32(n)[1] && s[2] == Put32(n)[2] && s[3] == Put32(n)[3];
  }

  lemma Word32Inverse(n: uint32, rest: seq<byte>)
    ensures BigEndian32(Put32(n) + rest) == n
  {
    Put32Inverse(n, rest);
  }

  lemma Put32Onto(s: seq<byte>)
    requires |s| == 4
    ensures Put32(BigEndian32(s)) == s
  {
    DigitsOfSum(s[0], s[1], s[2], s[3]);
  }

  lemma Put64Inverse(n: uint64, rest: seq<byte>)
    ensures BigEndian64(Put64(n) + rest) == n
  {
    var hi, lo := n / 0x1_0000_0000, n % 0x1_0000_0000;
    assert Put64(n) + rest == Put32(hi) + (Put32(lo) + rest);
    assert (Put64(n) + rest)[4..] == Put32(lo) + rest;
    Word32Inverse(hi, Put32(lo) + rest);
    Word32Inverse(lo, rest);
  }

  /** Cutting a field out of what follows a prefix. */
  lemma FieldAfter(prefix: seq<byte>, field: seq<byte>, rest: seq<byte>, n: nat)
    requires n <= |field|
    ensures (prefix + (field + rest))[|prefix|..|prefix| + n] == field[..n]
    ensures (prefix + (field + rest))[|prefix| + |field|..] == rest
  {
    var data := prefix + (field + rest);
    assert data[|prefix|..] == field + rest;
    assert data[|prefix|..|prefix| + n] == (field + rest)[..n];
    assert data[|prefix| + |field|..] == data[|prefix|..][|field|..];
  }

  lemma CutAt(s: seq<byte>, a: nat, b: nat)
    requires a <= b <= |s|
    ensures s[a..] == s[a..b] + s[b..]
  {
  }

  lemma DropDrop(s: seq<byte>, a: nat, b: nat)
    requires a + b <= |s|
    ensures s[a..][b..] == s[a + b..]
  {
  }

  /** `b & (1 << k) != 0`: digit `k` of the binary form, counted from the low end. */
  predicate HasBit(b: nat, k: nat)
  {
    if k == 0 then b % 2 == 1 else HasBit(b / 2, k - 1)
  }

  lemma {:induction false} ZeroHasNoBits(k: nat)
    ensures !HasBit(0, k)
  {
    if k > 0 { ZeroHasNoBits(k - 1); }
  }

  /** `b | (1 << k)` */
  function SetBit(b: nat, k: nat): (r: nat)
  {
    if k == 0 then
      if b % 2 == 1 then b else b + 1
    else
      2 * SetBit(b / 2, k - 1) + b % 2
  }

  /** Setting digit `k` makes it one and leaves every other digit as it was. */
  lemma {:induction false} SetBitReads(b: nat, k: nat, j: nat)
    ensures HasBit(SetBit(b, k), j) == (j == k || HasBit(b, j))
  {
    if k > 0 {
      assert SetBit(b, k) / 2 == SetBit(b / 2, k - 1) && SetBit(b, k) % 2 == b % 2;
      if j > 0 { SetBitReads(b / 2, k - 1, j - 1); }
    } else if j > 0 {
      assert SetBit(b, 0) / 2 == b / 2;
    }
  }

  /** Setting a digit below position `n` keeps an `n`-digit number an `n`-digit number. */
  lemma {:induction false} SetBitBound(b: nat, k: nat, n: nat)
    requires k < n && b < Pow2(n)
    ensures SetBit(b, k) < Pow2(n)
  {
    assert Pow2(n) == 2 * Pow2(n - 1);
    assert b / 2 < Pow2(n - 1);
    if k > 0 {
      SetBitBound(b / 2, k - 1, n - 1);
      assert SetBit(b, k) == 2 * SetBit(b / 2, k - 1) + b % 2;
    } else {
      assert SetBit(b, 0) <= 2 * (b / 2) + 1;
    }
  }

  function Pow2(n: nat): (r: nat)
    ensures r >= 1
  {
    if n == 0 then 1 else 2 * Pow2(n - 1)
  }

  /** `a | b` */
  function Or(a: nat, b: nat): (r: nat) {
    if a == 0 then b else if b == 0 then a
    else 2 * Or(a / 2, b / 2) + if a % 2 == 1 || b % 2 == 1 then 1 else 0
  }

  lemma {:induction false} OrReads(a: nat, b: nat, k: nat)
    ensures HasBit(Or(a, b), k) == (HasBit(a, k) || HasBit(b, k))
  {
    if a == 0 {
      ZeroHasNoBits(k);
    } else if b == 0 {
      ZeroHasNoBits(k);
    } else if k > 0 {
      OrReads(a / 2, b / 2, k - 1);
    }
  }

  /** Joining bit fields that do not overlap is addition. */
  lemma {:induction false} OrOfFields(high: nat, low: nat, k: nat)
    requires low < Pow2(k)
    ensures Or(high * Pow2(k), low) == high * Pow2(k) + low
  {
    if k > 0 && high > 0 && low > 0 {
      assert high * Pow2(k) == 2 * (high * Pow2(k - 1));
      OrOfFields(high, low / 2, k - 1);
    }
  }
}
