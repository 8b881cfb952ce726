/** 32-bit words as the RTL and the drivers exchange them: byte reversal and single status bits. */
module Words {

  const TWO32: int := 0x1_0000_0000
  type u32 = n: int | 0 <= n < 0x1_0000_0000
  type byte = n: int | 0 <= n < 256

  /** Byte `k` of `w`, least significant first: `w >> 8*k & 0xff`. */
  function ByteOf(w: nat, k: nat): byte {
    if k == 0 then w % 0x100 else ByteOf(w / 0x100, k - 1)
  }

  /** Bit `k` of `w`: the driver's `w & BIT(k)`. */
  predicate Bit(w: nat, k: nat) {
    if k == 0 then w % 2 == 1 else Bit(w / 2, k - 1)
  }

  function FromBytes(b0: byte, b1: byte, b2: byte, b3: byte): u32 {
    b0 + 0x100 * (b1 + 0x100 * (b2 + 0x100 * b3))
  }

  /** `swab32`, and the RTL's `{d[7:0],d[15:8],d[23:16],d[31:24]}`. */
  function Swab32(w: u32): u32 {
    FromBytes(ByteOf(w, 3), ByteOf(w, 2), ByteOf(w, 1), ByteOf(w, 0))
  }

  lemma SplitLow(b: byte, rest: nat)
    ensures (b + 0x100 * rest) % 0x100 == b && (b + 0x100 * rest) / 0x100 == rest
  {
  }

  lemma BytesOfWord(b0: byte, b1: byte, b2: byte, b3: byte)
    ensures var w := FromBytes(b0, b1, b2, b3);
            ByteOf(w, 0) == b0 && ByteOf(w, 1) == b1 && ByteOf(w, 2) == b2 && ByteOf(w, 3) == b3
  {
    var w2 := b2 + 0x100 * b3;
    var w1 := b1 + 0x100 * w2;
    SplitLow(b0, w1);
    SplitLow(b1, w2);
    SplitLow(b2, b3);
    assert ByteOf(w1, 2) == ByteOf(w2, 1) == ByteOf(b3, 0);
    assert ByteOf(w1, 1) == ByteOf(w2, 0);
  }

  lemma SplitByte(w: nat) returns (b: byte, rest: nat)
    ensures w == b + 0x100 * rest && b == ByteOf(w, 0)
    ensures forall k: nat :: ByteOf(w, k + 1) == ByteOf(rest, k)
  {
    b, rest := w % 0x100, w / 0x100;
  }

  /** A word is determined by its four bytes. */
  lemma WordOfBytes(w: u32)
    ensures w == FromBytes(ByteOf(w, 0), ByteOf(w, 1), ByteOf(w, 2), ByteOf(w, 3))
  {
    var b0, q1 := SplitByte(w);
    var b1, q2 := SplitByte(q1);
    var b2, q3 := SplitByte(q2);
    var b3, q4 := SplitByte(q3);
    assert q4 == 0;
    assert ByteOf(w, 0 + 1) == b1;
    assert ByteOf(w, 1 + 1) == ByteOf(q1, 0 + 1) == b2;
    assert ByteOf(w, 2 + 1) == ByteOf(q1, 1 + 1) == ByteOf(q2, 0 + 1) == b3;
  }

  lemma SwabReversesBytes(w: u32, k: nat)
    requires k < 4
    ensures ByteOf(Swab32(w), k) == ByteOf(w, 3 - k)
  {
    BytesOfWord(ByteOf(w, 3), ByteOf(w, 2), ByteOf(w, 1), ByteOf(w, 0));
  }

  lemma SwabInvolution(w: u32)
    ensures Swab32(Swab32(w)) == w
  {
    BytesOfWord(ByteOf(w, 3), ByteOf(w, 2), ByteOf(w, 1), ByteOf(w, 0));
    WordOfBytes(w);
  }

  // ---------------------------------------------------------------- packed flags

  function Pow2(k: nat): (p: nat)
    ensures p >= 1
  {
    if k == 0 then 1 else 2 * Pow2(k - 1)
  }

  function BitValue(b: bool): nat { if b then 1 else 0 }

  /** The word whose bit `k` is `flags[k]`. */
  function Pack(flags: seq<bool>): (w: nat)
    ensures w < Pow2(|flags|)
  {
    if flags == [] then 0 else BitValue(flags[0]) + 2 * Pack(flags[1..])
  }

  lemma {:induction false} PackBit(flags: seq<bool>, high: nat, k: nat)
    requires k < |flags|
    ensures Bit(Pack(flags) + Pow2(|flags|) * high, k) == flags[k]
  {
    var rest := Pack(flags[1..]) + Pow2(|flags| - 1) * high;
    Regroup(Pow2(|flags| - 1), high);
    assert Pack(flags) + Pow2(|flags|) * high == BitValue(flags[0]) + 2 * rest;
    LowBit(flags[0], rest);
    if k > 0 {
      PackBit(flags[1..], high, k - 1);
    }
  }

  lemma LowBit(b: bool, rest: nat)
    ensures (BitValue(b) + 2 * rest) % 2 == BitValue(b) && (BitValue(b) + 2 * rest) / 2 == rest
  {
  }

  lemma Regroup(p: nat, high: nat)
    ensures 2 * p * high == 2 * (p * high)
  {
  }

  // ---------------------------------------------------------------- 32-bit counters

  lemma Mod32(x: nat)
    ensures x % TWO32 <= x
    ensures x < TWO32 ==> x % TWO32 == x
  {
  }

  lemma AddMod32(x: nat, n: nat)
    ensures (x % TWO32 + n) % TWO32 == (x + n) % TWO32
  {
  }
}
