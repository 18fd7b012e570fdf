/** Optional values, results, bytes, fixed-width integers on the wire, and clock readings. */
module Basics {

  newtype byte = b: int | 0 <= b < 256

  datatype Option<+T> = None | Some(value: T)

  datatype Result<+T, +E> = Ok(value: T) | Err(error: E)

  // A floating-point time is a finite value or one of the non-finite ones.
  datatype Time = Finite(seconds: real) | NonFinite

  predicate Usable(t: Time) {
    t.Finite? && t.seconds >= 0.0
  }

  type Signature = s: seq<byte> | |s| == 64 witness seq(64, i => 0)

  type Hash = s: seq<byte> | |s| == 16 witness seq(16, i => 0)

  predicate Increasing(values: seq<nat>) {
    forall i, j :: 0 <= i < j < |values| ==> values[i] < values[j]
  }

  const U32: nat := 0x1_0000_0000

  // The four little-endian bytes of the low 32 bits, as a narrowing cast keeps.
  function LittleEndian32(n: nat): (bytes: seq<byte>)
    ensures |bytes| == 4
  {
    [(n % 256) as byte, (n / 256 % 256) as byte, (n / 65536 % 256) as byte, (n / 16777216 % 256) as byte]
  }

  function FromLittleEndian32(bytes: seq<byte>): (n: nat)
    requires |bytes| == 4
    ensures n < U32
  {
    bytes[0] as nat + 256 * (bytes[1] as nat) + 65536 * (bytes[2] as nat) + 16777216 * (bytes[3] as nat)
  }

  lemma LittleEndianRoundTrip(n: nat)
    ensures FromLittleEndian32(LittleEndian32(n)) == n % U32
  {
    var a, b, c := n / 256, n / 65536, n / 16777216;
    assert n == 256 * a + n % 256;
    assert a == 256 * b + a % 256;
    assert b == 256 * c + b % 256;
    assert c == 256 * (n / U32) + c % 256;
  }
}
