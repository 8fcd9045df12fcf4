/** Division, remainders and quotients: the few facts the proofs share. */
module Arithmetic {

  lemma Distribute(a: int, b: int, d: int)
    ensures (a + b) * d == a * d + b * d
  {
  }

  lemma Multiples(a: nat, b: nat, d: nat)
    requires a <= b
    ensures a * d <= b * d
  {
    Distribute(a, b - a, d);
    Product(b - a, d);
  }

  lemma Product(a: nat, b: nat)
    ensures a * b >= 0
  {
  }

  /** Consecutive multiples of d are d apart. */
  lemma MultipleGap(a: nat, b: nat, d: nat)
    requires a < b
    ensures a * d + d <= b * d
  {
    Distribute(a, 1, d);
    Multiples(a + 1, b, d);
  }

  lemma QuotientUnique(k: nat, q: nat, d: nat, s: nat, r: nat)
    requires k * d + s == q * d + r && s < d && r < d
    ensures k == q && s == r
  {
    if k < q {
      MultipleGap(k, q, d);
    } else if q < k {
      MultipleGap(q, k, d);
    }
  }

  lemma DivisionIs(n: nat, d: nat, q: nat, r: nat)
    requires d > 0 && n == q * d + r && r < d
    ensures n / d == q && n % d == r
  {
    QuotientUnique(n / d, q, d, n % d, r);
  }

  lemma QuotientAtLeast(x: nat, d: nat, q: nat)
    requires d > 0 && q * d <= x
    ensures q <= x / d
  {
    var k := x / d;
    if k < q {
      MultipleGap(k, q, d);
    }
  }

  lemma SubtractOnce(n: nat, d: nat)
    requires 0 < d <= n
    ensures n / d == (n - d) / d + 1
    ensures n % d == (n - d) % d
  {
    var q, r := (n - d) / d, (n - d) % d;
    Distribute(q, 1, d);
    DivisionIs(n, d, q + 1, r);
  }

  /** Dividing by 256 and then by b is dividing by 256 * b. */
  lemma DivideTwice(n: nat, b: nat)
    requires b > 0
    ensures n / 256 / b == n / (256 * b)
  {
    var q, r, s := n / 256 / b, n / 256 % b, n % 256;
    DivisionIs(n, 256 * b, q, 256 * r + s);
  }

  /** Going round: one step, one full turn, and any number of steps. */
  lemma ModNext(a: nat, d: nat)
    requires d > 0
    ensures (a % d + 1) % d == (a + 1) % d
  {
    var q, r := a / d, a % d;
    if r + 1 < d {
      DivisionIs(a + 1, d, q, r + 1);
      DivisionIs(r + 1, d, 0, r + 1);
    } else {
      Distribute(q, 1, d);
      DivisionIs(a + 1, d, q + 1, 0);
      DivisionIs(d, d, 1, 0);
    }
  }

  lemma ModTurn(a: nat, d: nat)
    requires d > 0
    ensures (a + d) % d == a % d
  {
    SubtractOnce(a + d, d);
  }

  lemma ModDistinct(i: nat, j: nat, d: nat)
    requires i < j < i + d
    ensures i % d != j % d
  {
    var q, r := i / d, i % d;
    if r + (j - i) < d {
      DivisionIs(j, d, q, r + (j - i));
    } else {
      Distribute(q, 1, d);
      DivisionIs(j, d, q + 1, r + (j - i) - d);
    }
  }

  lemma {:induction false} ModSum(a: nat, k: nat, d: nat)
    requires d > 0
    ensures (a % d + k) % d == (a + k) % d
  {
    if k > 0 {
      ModSum(a, k - 1, d);
      ModNext(a % d + (k - 1), d);
      ModNext(a + k - 1, d);
    } else {
      DivisionIs(a % d, d, 0, a % d);
    }
  }

  // ---- Reals ----

  lemma Scale(a: real, b: real, d: real)
    requires a < b && d > 0.0
    ensures a * d < b * d
  {
  }

  lemma Quotient(x: real, d: real)
    requires d > 0.0
    ensures x / d * d == x
  {
  }

  /** Dividing by a positive number and multiplying are inverse to each other. */
  lemma Cross(x: real, d: real, y: real)
    requires d > 0.0
    ensures x / d < y <==> x < y * d
    ensures x / d <= y <==> x <= y * d
  {
    Quotient(x, d);
    if x / d < y {
      Scale(x / d, y, d);
    } else if y < x / d {
      Scale(y, x / d, d);
    }
  }
}
