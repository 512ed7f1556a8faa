/** Bytes, fixed-width integers, their little-endian images, and bitwise and. */
module Bytes {

  type byte = x: int | 0 <= x < 256
  type int32 = x: int | -0x8000_0000 <= x < 0x8000_0000
  type uint32 = x: int | 0 <= x < 0x1_0000_0000

  /** The two's complement bit pattern of v. */
  function Unsigned(v: int32): uint32 {
    if v < 0 then v + 0x1_0000_0000 else v
  }

  function Signed(u: uint32): int32 {
    if u < 0x8000_0000 then u else u - 0x1_0000_0000
  }

  /** The four bytes that memcpy takes from a 32-bit integer on a little-endian machine. */
  function PutU32(u: uint32): (b: seq<byte>)
    ensures |b| == 4
  {
    [u % 256, u / 256 % 256, u / 65536 % 256, u / 16777216]
  }

  function GetU32(b: seq<byte>): uint32
    requires |b| == 4
  {
    b[0] as int + 256 * b[1] as int + 65536 * b[2] as int + 16777216 * b[3] as int
  }

  function PutInt(v: int32): (b: seq<byte>)
    ensures |b| == 4
  {
    PutU32(Unsigned(v))
  }

  function GetInt(b: seq<byte>): int32
    requires |b| == 4
  {
    Signed(GetU32(b))
  }

  lemma GetPutInt(v: int32)
    ensures GetInt(PutInt(v)) == v
  {
    var u := Unsigned(v);
    assert u / 256 == 256 * (u / 65536) + u / 256 % 256;
    assert u / 65536 == 256 * (u / 16777216) + u / 65536 % 256;
  }

  lemma PutGetU32(b: seq<byte>)
    requires |b| == 4
    ensures PutU32(GetU32(b)) == b
  {
    var u := GetU32(b);
    assert u / 256 == b[1] as int + 256 * b[2] as int + 65536 * b[3] as int;
    assert u / 65536 == b[2] as int + 256 * b[3] as int;
  }

  lemma {:induction false} PutGetInt(b: seq<byte>)
    requires |b| == 4
    ensures PutInt(GetInt(b)) == b
  {
    PutGetU32(b);
    assert Unsigned(Signed(GetU32(b))) == GetU32(b);
  }

  /** Little-endian: the bytes are the base-256 digits of the two's complement pattern, the lowest first. */
  lemma {:induction false} IntBytes(v: int32)
    ensures var b := PutInt(v);
            b[0] as int + 256 * b[1] as int + 65536 * b[2] as int + 16777216 * b[3] as int == v as int % 0x1_0000_0000
  {
    var u := Unsigned(v);
    assert u / 256 == 256 * (u / 65536) + u / 256 % 256;
    assert u / 65536 == 256 * (u / 16777216) + u / 65536 % 256;
  }

  /** And reading takes them so. */
  lemma {:induction false} BytesOfInt(b: seq<byte>)
    requires |b| == 4
    ensures GetInt(b) as int % 0x1_0000_0000
            == b[0] as int + 256 * b[1] as int + 65536 * b[2] as int + 16777216 * b[3] as int
  {
    PutGetInt(b);
    IntBytes(GetInt(b));
  }

  /** Bitwise and of two bit patterns. */
  function And(a: nat, b: nat): nat {
    if a == 0 || b == 0 then 0
    else 2 * And(a / 2, b / 2) + if a % 2 == 1 && b % 2 == 1 then 1 else 0
  }

  /** The k-th binary digit. */
  predicate Bit(a: nat, k: nat) {
    if k == 0 then a % 2 == 1 else Bit(a / 2, k - 1)
  }

  /** And is what it says, bit by bit. */
  lemma {:induction false} AndBits(a: nat, b: nat, k: nat)
    ensures Bit(And(a, b), k) <==> Bit(a, k) && Bit(b, k)
  {
    if a == 0 || b == 0 {
      NoBits(k);
    } else {
      var c := if a % 2 == 1 && b % 2 == 1 then 1 else 0;
      assert And(a, b) == 2 * And(a / 2, b / 2) + c;
      HalfAndRest(And(a / 2, b / 2), c);
      if k != 0 {
        AndBits(a / 2, b / 2, k - 1);
      }
    }
  }

  lemma HalfAndRest(n: nat, c: nat)
    requires c < 2
    ensures (2 * n + c) / 2 == n && (2 * n + c) % 2 == c
  {
  }

  lemma {:induction false} NoBits(k: nat)
    ensures !Bit(0, k)
  {
    if k != 0 {
      NoBits(k - 1);
    }
  }

  function Pow2(e: nat): nat {
    if e == 0 then 1 else 2 * Pow2(e - 1)
  }

  /** True if exactly one bit of t is set. */
  ghost predicate SingleBit(t: int) {
    exists e: nat :: t == Pow2(e)
  }

  lemma {:induction false} AndSelf(a: nat)
    ensures And(a, a) == a
  {
    if a != 0 {
      AndSelf(a / 2);
    }
  }

  lemma AndOfEven(k: nat)
    requires 0 < k
    ensures And(2 * k, 2 * k - 1) == 2 * And(k, k - 1)
  {
    assert 2 * k / 2 == k && (2 * k - 1) / 2 == k - 1 && 2 * k % 2 == 0;
  }

  lemma AndOfOdd(k: nat)
    ensures And(2 * k + 1, 2 * k) == 2 * k
  {
    if k != 0 {
      assert (2 * k + 1) / 2 == k && 2 * k / 2 == k && 2 * k % 2 == 0;
      AndSelf(k);
    }
  }

  lemma Doubled(n: int)
    ensures 2 * n % 2 == 0
  {
  }

  lemma Pow2Even(e: nat)
    ensures e > 0 ==> Pow2(e) % 2 == 0
  {
    if e > 0 {
      Doubled(Pow2(e - 1));
    }
  }

  lemma SingleBitOfEven(k: nat)
    ensures SingleBit(2 * k) <==> SingleBit(k)
  {
    if e: nat :| k == Pow2(e) {
      assert 2 * k == Pow2(e + 1);
    }
    if e: nat :| 2 * k == Pow2(e) {
      assert e != 0 && k == Pow2(e - 1);
    }
  }

  lemma SingleBitOfOdd(k: nat)
    ensures SingleBit(2 * k + 1) <==> k == 0
  {
    if k == 0 {
      assert Pow2(0) == 1;
    }
    if e: nat :| 2 * k + 1 == Pow2(e) {
      Pow2Even(e);
    }
  }

  /** The usual trick: t & (t - 1) clears the lowest set bit, so it is zero exactly for a single bit. */
  lemma {:induction false} ClearLowestBit(t: nat)
    requires 0 < t
    ensures And(t, t - 1) == 0 <==> SingleBit(t)
  {
    var k := t / 2;
    if t % 2 == 0 {
      AndOfEven(k);
      ClearLowestBit(k);
      SingleBitOfEven(k);
    } else {
      AndOfOdd(k);
      SingleBitOfOdd(k);
    }
  }
}
