/** Byte strings, and the big-endian numbers that Go's big.Int writes and reads. */
module Bytes {
  type byte = x: int | 0 <= x < 256
  type bytes = seq<byte>

  const U64 := 0x1_0000_0000_0000_0000
  const U32 := 0x1_0000_0000

  /** The low 64 bits of a number: big.Int's Uint64. */
  function Uint64(n: nat): (r: nat)
    ensures r < U64 && (n < U64 ==> r == n)
  {
    n % U64
  }

  /** big.Int.SetBytes: unsigned, big endian. */
  function FromBytes(b: bytes): nat
  {
    if b == [] then 0 else FromBytes(b[..|b| - 1]) * 256 + b[|b| - 1]
  }

  /** big.Int.Bytes: the shortest big-endian form; zero is the empty string. */
  function ToBytes(n: nat): bytes
  {
    if n == 0 then [] else ToBytes(n / 256) + [n % 256]
  }

  /** A nonce or a count as it is read from a call argument. */
  function ReadUint64(b: bytes): (r: nat)
    ensures r < U64
  {
    Uint64(FromBytes(b))
  }

  lemma {:induction false} FromToBytes(n: nat)
    ensures FromBytes(ToBytes(n)) == n
  {
    if n > 0 {
      FromToBytes(n / 256);
      var b := ToBytes(n);
      assert b[..|b| - 1] == ToBytes(n / 256);
    }
  }

  /** The first byte is the most significant one. */
  lemma {:induction false} BigEndian(x: byte, b: bytes)
    ensures FromBytes([x] + b) == x * Pow256(|b|) + FromBytes(b)
  {
    var all := [x] + b;
    if b == [] {
      assert all[..0] == [];
    } else {
      var n := |b| - 1;
      BigEndian(x, b[..n]);
      assert all[..|all| - 1] == [x] + b[..n];
    }
  }

  /** A number is written without leading zeros, and such a writing is the only one. */
  lemma {:induction false} ToFromBytes(b: bytes)
    ensures ToBytes(FromBytes(b)) == b <==> b == [] || b[0] != 0
  {
    if b != [] {
      var front := b[..|b| - 1];
      ToFromBytes(front);
      var n := FromBytes(b);
      assert n / 256 == FromBytes(front) && n % 256 == b[|b| - 1];
      if n > 0 {
        assert ToBytes(n) == ToBytes(FromBytes(front)) + [b[|b| - 1]];
        assert b == front + [b[|b| - 1]];
        if front == [] {
        } else if ToBytes(n) == b {
          assert ToBytes(FromBytes(front)) == ToBytes(n)[..|ToBytes(n)| - 1] == front;
        }
      }
    }
  }

  lemma ToBytesInjective(m: nat, n: nat)
    requires ToBytes(m) == ToBytes(n)
    ensures m == n
  {
    FromToBytes(m);
    FromToBytes(n);
  }

  function Pow256(n: nat): (r: nat)
    ensures r > 0
  {
    if n == 0 then 1 else 256 * Pow256(n - 1)
  }

  lemma {:induction false} FromBytesBound(b: bytes)
    ensures FromBytes(b) < Pow256(|b|)
  {
    if b != [] {
      FromBytesBound(b[..|b| - 1]);
    }
  }
}
