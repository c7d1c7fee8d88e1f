/** Machine integer widths and small helpers shared by the driver model. */
module Types {

  type uint8 = x: int | 0 <= x < 0x100
  type uint16 = x: int | 0 <= x < 0x1_0000
  type uint32 = x: int | 0 <= x < 0x1_0000_0000

  /** Two-, three- and one-bit fields of a packed byte. */
  type bits1 = x: int | 0 <= x < 2
  type bits2 = x: int | 0 <= x < 4
  type bits3 = x: int | 0 <= x < 8

  datatype Option<+T> = None | Some(value: T)

  function Min(a: int, b: int): int
  {
    if a <= b then a else b
  }

  lemma MulAtLeast(k: int, m: int)
    requires 0 < k && 1 <= m
    ensures k * m >= k
  {
  }

  /**
   * Euclidean division undoes a packing: a digit `lo` below `k` placed
   * under `hi` is recovered by `% k`, and `hi` by `/ k`.
   */
  lemma {:induction false} DivModPacked(lo: int, hi: int, k: int)
    requires 0 < k && 0 <= lo < k
    ensures (lo + k * hi) / k == hi && (lo + k * hi) % k == lo
  {
    var n := lo + k * hi;
    var q, r := n / k, n % k;
    assert n == k * q + r;
    assert k * (q - hi) == lo - r;
    if q - hi >= 1 {
      MulAtLeast(k, q - hi);
    } else if q - hi <= -1 {
      MulAtLeast(k, hi - q);
    }
  }
}
