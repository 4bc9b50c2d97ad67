/** Types shared by every component of the model. */
module Prelude {

  datatype Option<+T> = None | Some(value: T)

  datatype Result<+T, +E> = Ok(value: T) | Err(error: E)

  /** Exclusive upper bounds of the machine integers the proxy counts with. */
  const U32: nat := 0x1_0000_0000
  const U64: nat := 0x1_0000_0000_0000_0000

  newtype Byte = x: int | 0 <= x < 256

  type Bytes = seq<Byte>

  lemma MulAtLeast(a: nat, n: nat)
    requires a >= 1
    ensures a * n >= n
  {
  }

  /** Quotient and remainder are determined by x == q * n + r. */
  lemma QuotRem(x: nat, n: nat, q: nat, r: nat)
    requires n > 0 && r < n && x == q * n + r
    ensures x / n == q && x % n == r
  {
    var a, b := x / n, x % n;
    assert x == a * n + b && 0 <= b < n;
    if a < q {
      assert (q - a) * n == q * n - a * n;
      MulAtLeast(q - a, n);
      assert false;
    } else if a > q {
      assert (a - q) * n == a * n - q * n;
      MulAtLeast(a - q, n);
      assert false;
    }
  }

  /** Counting modulo m, one more. */
  lemma Successor(t: nat, m: nat)
    requires m > 1
    ensures (t % m + 1) % m == (t + 1) % m
  {
    var q, r := t / m, t % m;
    assert t == q * m + r;
    if r + 1 < m {
      QuotRem(r + 1, m, 0, r + 1);
      QuotRem(t + 1, m, q, r + 1);
    } else {
      assert (q + 1) * m == q * m + m;
      QuotRem(r + 1, m, 1, 0);
      QuotRem(t + 1, m, q + 1, 0);
    }
  }
}
