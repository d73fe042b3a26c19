/** Bytes and the little-endian integer layout used by on-chain account data. */
module Bytes {

  type Byte = x: int | 0 <= x < 256

  /** The unsigned integer held little-endian in `b` (first byte least significant). */
  function LittleEndian(b: seq<Byte>): (n: nat)
    ensures n < Pow256(|b|)
  {
    if b == [] then 0 else b[0] + 256 * LittleEndian(b[1..])
  }

  function Pow256(k: nat): (p: nat)
    ensures p >= 1
  {
    if k == 0 then 1 else 256 * Pow256(k - 1)
  }

  /** The `k` little-endian bytes of `n`, reduced modulo 256^k. */
  function ToLittleEndian(n: nat, k: nat): (b: seq<Byte>)
    ensures |b| == k
  {
    if k == 0 then [] else [n % 256] + ToLittleEndian(n / 256, k - 1)
  }

  /** Writing `n` in `k` little-endian bytes and reading them back gives `n` whenever it fits. */
  lemma {:induction false} LittleEndianRoundTrip(n: nat, k: nat)
    requires n < Pow256(k)
    ensures LittleEndian(ToLittleEndian(n, k)) == n
  {
    if k > 0 {
      LittleEndianRoundTrip(n / 256, k - 1);
      assert ToLittleEndian(n, k)[1..] == ToLittleEndian(n / 256, k - 1);
    }
  }
}
