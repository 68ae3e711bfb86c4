/** Facts about products that the bounds rest on. */
module Products {

  lemma OneMore(n: int, x: int)
    ensures (n + 1) * x == n * x + x
  {
  }

  lemma Monotone(m: nat, n: nat, x: nat)
    requires m <= n
    ensures m * x <= n * x
  {
  }

  lemma Associate(m: nat, n: nat, x: int)
    ensures m * (n * x) == m * n * x
  {
  }

  lemma DivideMonotone(x: nat, y: nat, d: nat)
    requires x <= y && d > 0
    ensures x / d <= y / d
  {
    if y / d + 1 <= x / d {
      Monotone(y / d + 1, x / d, d);
      assert false;
    }
  }

  lemma Quotient(x: nat, d: nat) returns (q: nat)
    requires d > 0
    ensures q == x / d && q * d <= x
  {
    q := x / d;
  }

  lemma DivideBound(n: nat, d: nat, length: nat)
    requires d > 0 && n > 0 && (n - 1) * d <= length
    ensures n <= length / d + 1
  {
    var q := length / d;
    if q + 1 <= n - 1 {
      Monotone(q + 1, n - 1, d);
      assert false;
    }
  }
}
