/** Facts about whole multiples, stated once so that no other proof multiplies two unknowns. */
module Arith {

  /** The largest multiple of `d` that is at most `x`. */
  function Floor(x: nat, d: nat): (r: nat)
    requires d > 0
    ensures r <= x < r + d
  {
    x - x % d
  }

  /** An odd number of whole divisors fits into `x`. */
  predicate OddTimes(x: nat, d: nat)
    requires d > 0
  {
    x / d % 2 == 1
  }

  lemma FloorAndRest(x: nat, d: nat)
    requires d > 0
    ensures Floor(x, d) + x % d == x && 0 <= x % d < d && 0 <= x / d
  {
  }

  lemma DivMod(x: nat, d: nat)
    requires d > 0
    ensures x == x / d * d + x % d
    ensures Floor(x, d) == x / d * d
  {
  }

  lemma {:induction false} MultiplesApart(p: nat, q: nat, d: nat)
    requires p < q
    ensures p * d + d <= q * d
    decreases q
  {
    if p + 1 < q {
      MultiplesApart(p, q - 1, d);
    }
    assert (q - 1) * d + d == q * d;
  }

  lemma SameMultiple(p: nat, r: nat, q: nat, s: nat, d: nat)
    requires r < d && s < d && p * d + r == q * d + s
    ensures p == q
  {
    if p < q {
      MultiplesApart(p, q, d);
    } else if q < p {
      MultiplesApart(q, p, d);
    }
  }

  lemma QuotientUnique(x: nat, d: nat, q: nat)
    requires d > 0 && q * d <= x < q * d + d
    ensures x / d == q
  {
    DivMod(x, d);
    SameMultiple(x / d, x % d, q, x - q * d, d);
  }

  /** Dividing in two steps: skip to a multiple first, then divide what is left. */
  lemma DivideInTwo(x: nat, y: nat, d: nat)
    requires d > 0 && x <= y
    ensures Floor(x, d) <= y
    ensures x / d + (y - Floor(x, d)) / d == y / d
    ensures Floor(x, d) + Floor(y - Floor(x, d), d) == Floor(y, d)
  {
    DivMod(x, d);
    DivMod(y, d);
    var p, rest := x / d, y - Floor(x, d);
    var q := rest / d;
    DivMod(rest, d);
    assert (p + q) * d == p * d + q * d;
    QuotientUnique(y, d, p + q);
  }

  lemma ParityInTwo(x: nat, y: nat, d: nat)
    requires d > 0 && x <= y
    ensures Floor(x, d) <= y
    ensures OddTimes(y, d) <==> (OddTimes(x, d) != OddTimes(y - Floor(x, d), d))
  {
    hide Floor;
    DivideInTwo(x, y, d);
    ParityOfSum(x / d, (y - Floor(x, d)) / d);
  }

  lemma ParityOfSum(p: int, q: int)
    ensures (p + q) % 2 == 1 <==> (p % 2 == 1) != (q % 2 == 1)
  {
  }

  lemma DivideLess(x: nat, d: nat)
    requires x < d
    ensures x / d == 0 && Floor(x, d) == 0 && !OddTimes(x, d)
  {
    QuotientUnique(x, d, 0);
  }

  /** A quotient is below `n` exactly when the dividend is below `n` divisors. */
  lemma QuotientBelow(x: nat, d: nat, n: nat)
    requires d > 0
    ensures x / d < n <==> x < n * d
  {
    DivMod(x, d);
    if x / d < n {
      MultiplesApart(x / d, n, d);
    } else if n < x / d {
      MultiplesApart(n, x / d, d);
    }
  }

  /** Staying within one divisor of a multiple keeps that multiple. */
  lemma FloorStays(x: nat, y: nat, d: nat)
    requires d > 0 && Floor(x, d) <= y < Floor(x, d) + d
    ensures Floor(y, d) == Floor(x, d) && y % d == y - Floor(x, d)
  {
    DivMod(x, d);
    QuotientUnique(y, d, x / d);
    DivMod(y, d);
  }

  /** `n` divisors fit into `x`, so the quotient is at least `n`. */
  lemma QuotientAtLeast(x: nat, d: nat, n: nat)
    requires d > 0 && n * d <= x
    ensures n <= x / d
  {
    QuotientBelow(x, d, n);
  }

  lemma ProductAtLeast(q: nat, d: nat)
    requires d > 0
    ensures q <= q * d
  {
    assert q * d == q * (d - 1) + q;
  }

  lemma QuotientAtMost(x: nat, d: nat)
    requires d > 0
    ensures x / d <= x
  {
    DivMod(x, d);
    ProductAtLeast(x / d, d);
  }

  lemma MultipleHasNoRemainder(x: nat, d: nat)
    requires d > 0
    ensures Floor(x, d) % d == 0
  {
    DivMod(x, d);
    var q := x / d;
    DivMod(Floor(x, d), d);
    SameMultiple(Floor(x, d) / d, Floor(x, d) % d, q, 0, d);
  }
}
