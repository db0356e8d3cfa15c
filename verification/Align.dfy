/** RT_ALIGN and RT_ALIGN_DOWN: rounding a size or an address to the alignment of the machine. */
module Align {
  lemma MulGrows(k: nat, y: int)
    requires k > 0
    ensures y >= 1 ==> k * y >= k
    ensures y <= 0 ==> k * y <= 0
    ensures y <= -1 ==> k * y + k <= 0
  {
  }

  lemma MultipleMod(k: nat, x: int)
    requires k > 0
    ensures (k * x) % k == 0
  {
    var q := (k * x) / k;
    assert (k * x) % k == k * (x - q);
    MulGrows(k, x - q);
  }

  lemma AddMod(a: int, b: int, k: nat)
    requires k > 0 && a % k == 0 && b % k == 0
    ensures (a + b) % k == 0 && (a - b) % k == 0
  {
    assert a + b == k * (a / k + b / k);
    assert a - b == k * (a / k - b / k);
    MultipleMod(k, a / k + b / k);
    MultipleMod(k, a / k - b / k);
  }

  /** Two different multiples of `k` are at least `k` apart. */
  lemma Gap(a: int, b: int, k: nat)
    requires k > 0 && a % k == 0 && b % k == 0 && a < b
    ensures a + k <= b
  {
    assert b - a == k * (b / k - a / k);
    MulGrows(k, b / k - a / k);
  }

  /** The least multiple of `k` not below `n`. */
  function Up(n: nat, k: nat): (r: nat)
    requires k > 0
    ensures r % k == 0 && n <= r < n + k
    ensures n % k == 0 ==> r == n
  {
    if n == 0 then 0
    else if n <= k then
      assert n % k == 0 ==> n == k by {
        if n % k == 0 {
          Gap(0, n, k);
        }
      }
      k
    else
      var r := Up(n - k, k);
      AddMod(r, k, k);
      assert n % k == 0 ==> (n - k) % k == 0 by {
        if n % k == 0 {
          AddMod(n, k, k);
        }
      }
      r + k
  }

  /** `i * k`, by repeated addition. */
  function Times(i: nat, k: nat): nat {
    if i == 0 then 0 else Times(i - 1, k) + k
  }

  lemma {:induction false} TimesIs(i: nat, k: nat)
    ensures Times(i, k) == i * k
  {
    if i > 0 {
      TimesIs(i - 1, k);
      assert i * k == (i - 1) * k + k;
    }
  }

  lemma {:induction false} TimesLess(i: nat, j: nat, k: nat)
    requires i < j
    ensures Times(i, k) + k <= Times(j, k)
    decreases j
  {
    if i < j - 1 {
      TimesLess(i, j - 1, k);
    }
  }

  /** `n / k`, by repeated subtraction. */
  function Quotient(n: nat, k: nat): (q: nat)
    requires k > 0
    ensures Times(q, k) <= n < Times(q, k) + k
  {
    if n < k then 0 else Quotient(n - k, k) + 1
  }

  lemma QuotientIs(n: nat, k: nat)
    requires k > 0
    ensures Quotient(n, k) == n / k
  {
    var q := Quotient(n, k);
    TimesIs(q, k);
    EuclidUnique(n, k, q);
  }

  lemma EuclidUnique(n: nat, k: nat, q: nat)
    requires k > 0 && q * k <= n < q * k + k
    ensures n / k == q
  {
    var e := n / k;
    var d := e - q;
    assert k * d == k * e - q * k;
    assert n == k * e + n % k;
    MulGrows(k, d);
  }

  lemma QuotientAtLeast(n: nat, k: nat, m: nat)
    requires k > 0 && Times(m, k) <= n
    ensures m <= Quotient(n, k)
  {
    var q := Quotient(n, k);
    if q < m {
      TimesLess(q, m, k);
    }
  }
}
