/** The few facts about division with remainder that the models rest on. */
module Division {

  lemma Gap(n: nat, a: int, b: int)
    ensures a < b ==> n * a + n <= n * b
  {
    if a < b {
      assert n * (a + 1) <= n * b;
    }
  }

  lemma Unique(x: int, n: nat, q: int, r: nat)
    requires n > 0 && x == n * q + r && r < n
    ensures x / n == q && x % n == r
  {
    Gap(n, x / n, q);
    Gap(n, q, x / n);
  }

  lemma Split(x: nat, n: nat)
    requires n > 0
    ensures x / n >= 0 && 0 <= x % n < n && x == n * (x / n) + x % n
  {
  }

  lemma Successor(x: nat, n: nat)
    requires n > 0
    ensures if x % n + 1 < n then (x + 1) / n == x / n && (x + 1) % n == x % n + 1
            else (x + 1) / n == x / n + 1 && (x + 1) % n == 0
  {
    Split(x, n);
    var q, r := x / n, x % n;
    if r + 1 < n {
      Unique(x + 1, n, q, r + 1);
    } else {
      assert n * (q + 1) == n * q + n;
      Unique(x + 1, n, q + 1, 0);
    }
  }
}
