/** The few facts about products and quotients that the solver is not left to find. */
module Arithmetic {
  lemma Distribute(r: int, x: int, y: int)
    ensures r * (x + y) == r * x + r * y
  {
  }

  lemma Successor(n: int, x: int)
    ensures n * x == (n - 1) * x + x
  {
  }

  lemma Associate(x: int, y: int, z: int)
    ensures x * (y * z) == (x * y) * z
  {
  }

  lemma MulMono(r: int, r': int, x: int)
    requires 0 <= r <= r' && 0 <= x
    ensures 0 <= r * x <= r' * x
  {
  }

  lemma MulAtLeast(d: int, k: int)
    requires k > 0
    ensures d >= 1 ==> d * k >= k
    ensures d <= 0 ==> d * k <= 0
    ensures d <= -1 ==> d * k <= -k
  {
  }

  lemma DivUnique(n: int, k: int, q: int, r: int)
    requires k > 0 && 0 <= r < k && n == q * k + r
    ensures n / k == q && n % k == r
  {
    var d := n / k - q;
    assert n / k * k + n % k == n;
    assert d * k == n / k * k - q * k;
    MulAtLeast(d, k);
  }
}
