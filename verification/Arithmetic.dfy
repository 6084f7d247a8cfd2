/** Arithmetic used by several modules. */
module Arithmetic {
  function Min(a: int, b: int): int { if a < b then a else b }

  function Max(a: int, b: int): int { if a > b then a else b }

  lemma MultipleOf(d: int, k: int)
    requires k > 0
    ensures d >= 1 ==> d * k >= k
    ensures d <= -1 ==> d * k <= -k
  {
  }

  lemma DivModUnique(a: int, k: int, q: int, r: int)
    requires k > 0 && a == q * k + r && 0 <= r < k
    ensures a / k == q && a % k == r
  {
    var d := a / k - q;
    assert d * k == (a / k) * k - q * k;
    MultipleOf(d, k);
  }

  lemma ModNext(a: int, k: int)
    requires k > 0
    ensures (a + 1) % k == if a % k == k - 1 then 0 else a % k + 1
  {
    var q, r := a / k, a % k;
    if r == k - 1 {
      assert (q + 1) * k == q * k + k;
      DivModUnique(a + 1, k, q + 1, 0);
    } else {
      DivModUnique(a + 1, k, q, r + 1);
    }
  }

  /** The least number of steps of length k that reach a. */
  function CeilDiv(a: int, k: int): int
    requires k > 0
  {
    (a + k - 1) / k
  }

  lemma CeilDivBounds(a: int, k: int)
    requires k > 0
    ensures CeilDiv(a, k) * k >= a && (CeilDiv(a, k) - 1) * k < a
  {
    var n := a + k - 1;
    assert n == (n / k) * k + n % k;
    assert (n / k - 1) * k == (n / k) * k - k;
  }

  /** Reaching a in m steps is taking at least CeilDiv(a, k) of them. */
  lemma CeilDivLeast(a: int, k: int, m: int)
    requires k > 0
    ensures m * k >= a <==> m >= CeilDiv(a, k)
  {
    hide CeilDiv;
    CeilDivBounds(a, k);
    var q := CeilDiv(a, k);
    if m >= q {
      TimesKeepsOrder(q, m, k);
    } else {
      TimesKeepsOrder(m, q - 1, k);
    }
  }

  lemma TimesKeepsOrder(a: int, b: int, k: nat)
    requires a <= b
    ensures a * k <= b * k
  {
    assert b * k == a * k + (b - a) * k;
  }

  lemma CeilDivNext(n: int, k: int)
    requires k > 0
    ensures CeilDiv(n + 1, k) == CeilDiv(n, k) + if n % k == 0 then 1 else 0
  {
    var q, r := n / k, n % k;
    assert (q + 1) * k == q * k + k;
    if r == 0 {
      DivModUnique(n + k - 1, k, q, k - 1);
      DivModUnique(n + 1 + k - 1, k, q + 1, 0);
    } else {
      DivModUnique(n + k - 1, k, q + 1, r - 1);
      DivModUnique(n + 1 + k - 1, k, q + 1, r);
    }
  }
}
