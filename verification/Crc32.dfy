/** CRC-32 as section 8 of RFC 1952 defines it, bit by bit, and what it detects. */
module Crc32 {

  import opened Octets

  const POLYNOMIAL: bv32 := 0xEDB8_8320

  function Xor(a: bv32, b: bv32): bv32 { a ^ b }

  function Odd(c: bv32): bool { c & 1 == 1 }

  function Half(c: bv32): bv32 { c >> 1 }

  function BitStep(c: bv32): bv32 { if Odd(c) then Xor(Half(c), POLYNOMIAL) else Half(c) }

  function FourBits(c: bv32): bv32 { BitStep(BitStep(BitStep(BitStep(c)))) }

  function EightBits(c: bv32): bv32 { FourBits(FourBits(c)) }

  function ByteStep(c: bv32, b: bv8): bv32 { EightBits(Xor(c, b as bv32)) }

  function Register(c: bv32, data: Bytes): bv32
    decreases |data|
  {
    if data == [] then c else Register(ByteStep(c, data[0]), data[1..])
  }

  /** `zlib.crc32(data) & 0xFFFFFFFF`. */
  function Crc(data: Bytes): bv32 { Xor(Register(0xFFFF_FFFF, data), 0xFFFF_FFFF) }

  /** The published check value: the checksum of the nine digits "123456789". */
  lemma CheckValue()
    ensures Crc([0x31, 0x32, 0x33, 0x34, 0x35, 0x36, 0x37, 0x38, 0x39]) == 0xCBF4_3926
  {
  }

  lemma BitStepInjective(c: bv32, d: bv32)
    requires BitStep(c) == BitStep(d)
    ensures c == d
  {}

  lemma EightBitsInjective(c: bv32, d: bv32)
    requires EightBits(c) == EightBits(d)
    ensures c == d
  {
    FourBitsInjective(FourBits(c), FourBits(d));
    FourBitsInjective(c, d);
  }

  lemma FourBitsInjective(c: bv32, d: bv32)
    requires FourBits(c) == FourBits(d)
    ensures c == d
  {
    hide BitStep;
    BitStepInjective(BitStep(BitStep(BitStep(c))), BitStep(BitStep(BitStep(d))));
    BitStepInjective(BitStep(BitStep(c)), BitStep(BitStep(d)));
    BitStepInjective(BitStep(c), BitStep(d));
    BitStepInjective(c, d);
  }

  lemma XorCancels(c: bv32, d: bv32, x: bv32)
    requires Xor(c, x) == Xor(d, x)
    ensures c == d
  {}

  lemma XorByteCancels(c: bv32, a: bv8, b: bv8)
    requires Xor(c, a as bv32) == Xor(c, b as bv32)
    ensures a == b
  {}

  /** For a fixed byte, the step is injective in the state. */
  lemma ByteStepInjectiveInState(c: bv32, d: bv32, b: bv8)
    requires ByteStep(c, b) == ByteStep(d, b)
    ensures c == d
  {
    hide EightBits, Xor;
    EightBitsInjective(Xor(c, b as bv32), Xor(d, b as bv32));
    XorCancels(c, d, b as bv32);
  }

  /** For a fixed state, the step is injective in the byte. */
  lemma ByteStepInjectiveInByte(c: bv32, a: bv8, b: bv8)
    requires ByteStep(c, a) == ByteStep(c, b)
    ensures a == b
  {
    hide EightBits, Xor;
    EightBitsInjective(Xor(c, a as bv32), Xor(c, b as bv32));
    XorByteCancels(c, a, b);
  }

  lemma {:induction false} RegisterInjective(c: bv32, d: bv32, data: Bytes)
    requires Register(c, data) == Register(d, data)
    ensures c == d
    decreases |data|
  {
    hide ByteStep;
    if data != [] {
      RegisterInjective(ByteStep(c, data[0]), ByteStep(d, data[0]), data[1..]);
      ByteStepInjectiveInState(c, d, data[0]);
    }
  }

  lemma {:induction false} RegisterDetects(c: bv32, data: Bytes, i: nat, b: bv8)
    requires i < |data| && b != data[i]
    ensures Register(c, data[i := b]) != Register(c, data)
    decreases |data|
  {
    hide ByteStep;
    if i > 0 {
      assert data[i := b][1..] == data[1..][i - 1 := b];
      RegisterDetects(ByteStep(c, data[0]), data[1..], i - 1, b);
    } else {
      assert data[i := b][1..] == data[1..];
      if Register(c, data[i := b]) == Register(c, data) {
        RegisterInjective(ByteStep(c, b), ByteStep(c, data[0]), data[1..]);
        ByteStepInjectiveInByte(c, b, data[0]);
      }
    }
  }

  /** Changing any one byte changes the checksum. */
  lemma SingleByteChangeDetected(data: Bytes, i: nat, b: bv8)
    requires i < |data| && b != data[i]
    ensures Crc(data[i := b]) != Crc(data)
  {
    hide Register, Xor;
    RegisterDetects(0xFFFF_FFFF, data, i, b);
    if Crc(data[i := b]) == Crc(data) {
      XorCancels(Register(0xFFFF_FFFF, data[i := b]), Register(0xFFFF_FFFF, data), 0xFFFF_FFFF);
    }
  }

  // ---------- The table form ----------

  /** Entry `n` of the precomputed table. */
  function Table(n: bv32): bv32 { EightBits(n) }

  lemma OddXor(x: bv32, y: bv32)
    ensures Odd(Xor(x, y)) <==> Odd(x) != Odd(y)
  {}

  lemma HalfXor(x: bv32, y: bv32)
    ensures Half(Xor(x, y)) == Xor(Half(x), Half(y))
  {}

  lemma XorAssociative(x: bv32, y: bv32, z: bv32)
    ensures Xor(Xor(x, y), z) == Xor(x, Xor(y, z))
  {}

  lemma XorCommutative(x: bv32, y: bv32)
    ensures Xor(x, y) == Xor(y, x)
  {}

  lemma XorTwice(x: bv32, p: bv32)
    ensures Xor(Xor(x, p), p) == x
  {}

  lemma BitStepLinear(x: bv32, y: bv32)
    ensures BitStep(Xor(x, y)) == Xor(BitStep(x), BitStep(y))
  {
    hide Xor, Odd, Half;
    OddXor(x, y);
    HalfXor(x, y);
    var a, b, p := Half(x), Half(y), POLYNOMIAL;
    XorAssociative(a, b, p);
    XorAssociative(a, p, b);
    XorAssociative(a, Xor(p, b), p);
    XorCommutative(b, p);
    XorTwice(b, p);
    XorAssociative(Xor(a, p), b, p);
  }

  lemma FourBitsLinear(x: bv32, y: bv32)
    ensures FourBits(Xor(x, y)) == Xor(FourBits(x), FourBits(y))
  {
    hide BitStep, Xor;
    BitStepLinear(x, y);
    BitStepLinear(BitStep(x), BitStep(y));
    BitStepLinear(BitStep(BitStep(x)), BitStep(BitStep(y)));
    BitStepLinear(BitStep(BitStep(BitStep(x))), BitStep(BitStep(BitStep(y))));
  }

  lemma EightBitsLinear(x: bv32, y: bv32)
    ensures EightBits(Xor(x, y)) == Xor(EightBits(x), EightBits(y))
  {
    hide FourBits, Xor;
    FourBitsLinear(x, y);
    FourBitsLinear(FourBits(x), FourBits(y));
  }

  function LowByte(x: bv32): bv32 { x & 0xFF }

  function HighBytes(x: bv32): bv32 { x & 0xFFFF_FF00 }

  function Shift8(x: bv32): bv32 { x >> 8 }

  lemma HighBitsShift(x: bv32)
    ensures EightBits(HighBytes(x)) == Shift8(x)
  {}

  lemma SplitByte(x: bv32)
    ensures x == Xor(LowByte(x), HighBytes(x))
  {}

  lemma ByteShift(c: bv32, b: bv8)
    ensures Shift8(Xor(c, b as bv32)) == Shift8(c)
  {}

  /** One table lookup per byte, as the RFC's update loop does, equals eight bit steps. */
  lemma TableFormAgrees(c: bv32, b: bv8)
    ensures ByteStep(c, b) == Xor(Table(LowByte(Xor(c, b as bv32))), Shift8(c))
  {
    hide EightBits, HighBytes, LowByte, Shift8, Xor;
    var x := Xor(c, b as bv32);
    SplitByte(x);
    EightBitsLinear(LowByte(x), HighBytes(x));
    HighBitsShift(x);
    ByteShift(c, b);
  }
}
