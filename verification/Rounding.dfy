/** The proportional rounding shared by line refunds and tender allocation. */
module Rounding {

  /** proportionalFloor: exact integer arithmetic, zero unless all three arguments are positive. */
  function ProportionalFloor(total: int, numerator: int, denominator: int): (share: int)
    ensures share >= 0
    ensures total > 0 && numerator > 0 && denominator > 0 ==>
              share * denominator <= total * numerator < (share + 1) * denominator
  {
    if total <= 0 || numerator <= 0 || denominator <= 0 then 0
    else
      FloorBounds(total * numerator, denominator);
      (total * numerator) / denominator
  }

  lemma FloorBounds(n: nat, d: nat)
    requires d > 0
    ensures n / d >= 0 && n / d * d <= n < (n / d + 1) * d
  {
    var q, r := n / d, n % d;
    assert n == q * d + r && 0 <= r < d && q >= 0;
    Distribute(q, 1, d);
  }

  lemma Product(a: int, b: int)
    requires a >= 0 && b >= 0
    ensures a * b >= 0
  {
  }

  /** Multiplying both sides by the same non-negative number. */
  lemma Scale(a: int, b: int, c: int)
    requires a <= b && c >= 0
    ensures a * c <= b * c
  {
    Product(b - a, c);
  }

  lemma Distribute(a: int, b: int, c: int)
    ensures (a + b) * c == a * c + b * c
  {
  }

  lemma Cancel(a: int, b: int, c: int)
    requires c > 0 && a * c < b * c
    ensures a < b
  {
    if b <= a {
      Scale(b, a, c);
    }
  }

  /** The share is the only integer within one denominator below the exact product. */
  lemma ShareUnique(total: int, numerator: int, denominator: int, share: int)
    requires total >= 0 && numerator >= 0 && denominator > 0
    requires share * denominator <= total * numerator < (share + 1) * denominator
    ensures share == ProportionalFloor(total, numerator, denominator)
  {
    var f := ProportionalFloor(total, numerator, denominator);
    if total == 0 || numerator == 0 {
      assert total * numerator == 0;
    }
    if f < share {
      Scale(f + 1, share, denominator);
    } else if share < f {
      Scale(share + 1, f, denominator);
    }
  }

  /** More returned means at least as much refunded. */
  lemma ShareMonotone(total: int, n1: int, n2: int, denominator: int)
    requires denominator > 0 && n1 <= n2
    ensures ProportionalFloor(total, n1, denominator) <= ProportionalFloor(total, n2, denominator)
  {
    var f, g := ProportionalFloor(total, n1, denominator), ProportionalFloor(total, n2, denominator);
    if total > 0 && n1 > 0 && g < f {
      Scale(n1, n2, total);
      Scale(g + 1, f, denominator);
    }
  }

  /** The same amount is a smaller share of a larger whole. */
  lemma ShareOfMore(amount: int, numerator: int, small: int, large: int)
    requires 0 < small <= large
    ensures ProportionalFloor(amount, numerator, large) <= ProportionalFloor(amount, numerator, small)
  {
    var f, g := ProportionalFloor(amount, numerator, small), ProportionalFloor(amount, numerator, large);
    if amount > 0 && numerator > 0 {
      Scale(small, large, f + 1);
      assert small * (f + 1) == (f + 1) * small && large * (f + 1) == (f + 1) * large;
      Cancel(g, f + 1, large);
    }
  }

  /** A part of the whole never refunds more than the whole, and the whole refunds exactly. */
  lemma ShareBounded(total: int, numerator: int, denominator: int)
    requires total >= 0 && denominator > 0 && numerator <= denominator
    ensures 0 <= ProportionalFloor(total, numerator, denominator) <= total
    ensures numerator == denominator ==> ProportionalFloor(total, numerator, denominator) == total
  {
    ShareMonotone(total, numerator, denominator, denominator);
    ShareUnique(total, denominator, denominator, total);
  }
}
