/** Bytes, byte strings and the Option type the other modules share. */
module Bytes {

  type byte = x: int | 0 <= x < 256
  type ByteVector = seq<byte>

  datatype Option<+T> = None | Some(value: T)

  /** The bytes of a list of strings, one after the other. */
  function Concat(parts: seq<ByteVector>): ByteVector {
    if |parts| == 0 then [] else parts[0] + Concat(parts[1..])
  }

  lemma {:induction false} ConcatAppend(a: seq<ByteVector>, b: seq<ByteVector>)
    ensures Concat(a + b) == Concat(a) + Concat(b)
  {
    if |a| == 0 {
      assert a + b == b;
    } else {
      assert (a + b)[1..] == a[1..] + b;
      ConcatAppend(a[1..], b);
    }
  }

  /** A number as the sender writes it in 16 bits: modulo 2^16, high byte first. */
  function HighByte(n: nat): byte {
    (n / 256) % 256
  }

  function LowByte(n: nat): byte {
    n % 256
  }

  function FromBytes(high: nat, low: nat): nat {
    high * 256 + low
  }

  lemma JoinSplit(n: nat)
    ensures FromBytes(HighByte(n), LowByte(n)) == n % 0x1_0000
  {
    var q := n / 256;
    assert n == (q / 256) * 0x1_0000 + (q % 256) * 256 + n % 256;
  }

  // ---------------------------------------------------------------
  // A byte as a bit pattern, for the bitwise operators.

  function Octet(b: byte): bv8 {
    b as bv8
  }

  function Value(x: bv8): byte {
    x as int
  }

  lemma Increment(x: bv8)
    requires x != 0xff
    ensures (x + 1) as int == x as int + 1
  {
  }

  lemma OctetOfValue(x: bv8)
    ensures Octet(Value(x)) == x
  {
  }

  /** A byte is determined by its bit pattern. */
  lemma {:induction false} ValueOfOctet(b: byte)
    ensures Value(Octet(b)) == b
  {
    if b > 0 {
      ValueOfOctet(b - 1);
      Increment((b - 1) as bv8);
      OctetOfValue(((b - 1) as bv8) + 1);
    }
  }
}
