/** Bytes, and the passage between bytes and the integers 0 to 255. */
module Octets {

  type Bytes = seq<bv8>

  function ByteOf(n: nat): bv8
    requires n < 0x100
  {
    if n == 0 then 0 else ByteOf(n - 1) + 1
  }

  lemma ByteSuccessor(b: bv8)
    requires b as int < 0xFF
    ensures (b + 1) as int == b as int + 1
  {}

  lemma {:induction false} ByteOfValue(n: nat)
    requires n < 0x100
    ensures ByteOf(n) as int == n
  {
    if n > 0 {
      ByteOfValue(n - 1);
      ByteSuccessor(ByteOf(n - 1));
    }
  }

  lemma ByteInjective(x: bv8, y: bv8)
    requires x as int == y as int
    ensures x == y
  {}

  lemma ValueOfByte(b: bv8)
    ensures 0 <= b as int < 0x100 && ByteOf(b as int) == b
  {
    ByteOfValue(b as int);
    ByteInjective(ByteOf(b as int), b);
  }
}
