/**
 * How a cumulative refund is spread over the captures of a sale: every capture but the last gets
 * its proportional share rounded down, the last gets what remains.
 */
module Tenders {
  import opened Rounding
  import opened Sums

  function Itself(amount: int): int { amount }

  function Sum(amounts: seq<int>): int { SumOf(amounts, Itself) }

  predicate Positive(amounts: seq<int>) {
    forall i | 0 <= i < |amounts| :: amounts[i] > 0
  }

  /** What the captures before `k` get when `refund` out of `total` goes back. */
  function FloorSum(amounts: seq<int>, refund: int, total: int, k: nat): int
    requires k <= |amounts|
  {
    if k == 0 then 0 else FloorSum(amounts, refund, total, k - 1) + ProportionalFloor(amounts[k - 1], refund, total)
  }

  /** The target of capture `i`. */
  function Target(amounts: seq<int>, refund: int, i: nat): int
    requires i < |amounts|
  {
    if i == |amounts| - 1 then refund - FloorSum(amounts, refund, Sum(amounts), i)
    else ProportionalFloor(amounts[i], refund, Sum(amounts))
  }

  function Targets(amounts: seq<int>, refund: int): (t: seq<int>)
    ensures |t| == |amounts|
  {
    seq(|amounts|, i requires 0 <= i < |amounts| => Target(amounts, refund, i))
  }

  lemma {:induction false} SumPositive(amounts: seq<int>)
    requires Positive(amounts)
    ensures Sum(amounts) >= |amounts|
  {
    if |amounts| > 0 {
      SumPositive(amounts[..|amounts| - 1]);
    }
  }

  lemma {:induction false} SumPrefix(amounts: seq<int>, k: nat)
    requires k <= |amounts| && Positive(amounts)
    ensures 0 <= Sum(amounts[..k]) <= Sum(amounts)
    ensures k < |amounts| ==> Sum(amounts[..k]) + amounts[k] <= Sum(amounts)
    decreases |amounts|
  {
    if k == |amounts| {
      assert amounts[..k] == amounts;
      SumPositive(amounts);
    } else {
      var front := amounts[..|amounts| - 1];
      assert amounts[..k] == front[..k];
      SumPrefix(front, k);
      if k == |amounts| - 1 {
        assert amounts[..k] == front;
      }
    }
  }

  /** The rounded shares of `k` captures miss their exact sum by less than one unit each. */
  lemma {:induction false} FloorSumBounds(amounts: seq<int>, refund: int, total: int, k: nat)
    requires k <= |amounts| && Positive(amounts) && refund >= 0 && total > 0
    ensures FloorSum(amounts, refund, total, k) >= 0
    ensures FloorSum(amounts, refund, total, k) * total <= Sum(amounts[..k]) * refund
    ensures Sum(amounts[..k]) * refund <= FloorSum(amounts, refund, total, k) * total + k * (total - 1)
  {
    if k > 0 {
      FloorSumBounds(amounts, refund, total, k - 1);
      assert amounts[..k][..k - 1] == amounts[..k - 1];
      var f, s, a := FloorSum(amounts, refund, total, k - 1), Sum(amounts[..k - 1]), amounts[k - 1];
      var p := ProportionalFloor(a, refund, total);
      ShareBelow(a, refund, total);
      Distribute(f, p, total);
      Distribute(s, a, refund);
      Distribute(k - 1, 1, total - 1);
    }
  }

  lemma ShareBelow(a: int, refund: int, total: int)
    requires a > 0 && refund >= 0 && total > 0
    ensures var p := ProportionalFloor(a, refund, total);
            p * total <= a * refund <= p * total + (total - 1)
  {
    if refund > 0 {
      Distribute(ProportionalFloor(a, refund, total), 1, total);
    }
  }

  lemma {:induction false} TargetsPrefix(amounts: seq<int>, refund: int, k: nat)
    requires k < |amounts|
    ensures Sum(Targets(amounts, refund)[..k]) == FloorSum(amounts, refund, Sum(amounts), k)
  {
    if k > 0 {
      TargetsPrefix(amounts, refund, k - 1);
      var t := Targets(amounts, refund);
      assert t[..k][..k - 1] == t[..k - 1];
    }
  }

  /** Whatever is refunded is allocated in full. */
  lemma TargetsSumToRefund(amounts: seq<int>, refund: int)
    requires |amounts| > 0
    ensures Sum(Targets(amounts, refund)) == refund
  {
    TargetsPrefix(amounts, refund, |amounts| - 1);
  }

  /** All captures but the last stay within their amount and only grow as more is refunded. */
  lemma EarlierTargetsBounded(amounts: seq<int>, r1: int, r2: int, i: nat)
    requires Positive(amounts) && i < |amounts| - 1 && 0 <= r1 <= r2 <= Sum(amounts)
    ensures 0 <= Target(amounts, r1, i) <= Target(amounts, r2, i) <= amounts[i]
  {
    SumPositive(amounts);
    ShareMonotone(amounts[i], r1, r2, Sum(amounts));
    ShareBounded(amounts[i], r2, Sum(amounts));
  }

  /**
   * The remainder capture gets at least its exact share and less than one unit more for each
   * other capture, so at most its amount plus the number of captures beyond the second.
   */
  lemma LastTargetBounds(amounts: seq<int>, refund: int)
    requires Positive(amounts) && |amounts| > 0 && 0 <= refund <= Sum(amounts)
    ensures var n, total := |amounts|, Sum(amounts);
            var last := Target(amounts, refund, n - 1);
            && amounts[n - 1] * refund <= last * total <= amounts[n - 1] * refund + (n - 1) * (total - 1)
            && 0 <= last <= amounts[n - 1] + (if n >= 2 then n - 2 else 0)
  {
    var n, total := |amounts|, Sum(amounts);
    var k := n - 1;
    SumPositive(amounts);
    FloorSumBounds(amounts, refund, total, k);
    var f, s, a := FloorSum(amounts, refund, total, k), Sum(amounts[..k]), amounts[k];
    var last := refund - f;
    SumPrefix(amounts, k);
    assert total == s + a by { assert amounts[..k] == amounts[..n - 1]; }
    Distribute(last, f, total);
    Distribute(s, a, refund);
    assert refund * total == total * refund;
    assert a * refund <= last * total <= a * refund + k * (total - 1);
    RemainderWithin(a, refund, total, k, last);
  }

  lemma RemainderWithin(a: int, refund: int, total: int, others: nat, last: int)
    requires a > 0 && 0 <= refund <= total && total > 0
    requires a * refund <= last * total <= a * refund + others * (total - 1)
    ensures 0 <= last <= a + (if others >= 1 then others - 1 else 0)
  {
    Product(a, refund);
    Scale(refund, total, a);
    Cancel(-1, last, total);
    if others == 0 {
      Distribute(a, 1, total);
      Cancel(last, a + 1, total);
    } else {
      Distribute(a, others, total);
      assert others * (total - 1) < others * total by { Distribute(total, -1, others); }
      Cancel(last, a + others, total);
    }
  }

  /** Once everything goes back, every capture gets back exactly its amount. */
  lemma {:induction false} FullRefundPrefix(amounts: seq<int>, k: nat)
    requires Positive(amounts) && k <= |amounts| && |amounts| > 0
    ensures FloorSum(amounts, Sum(amounts), Sum(amounts), k) == Sum(amounts[..k])
  {
    SumPositive(amounts);
    if k > 0 {
      FullRefundPrefix(amounts, k - 1);
      assert amounts[..k][..k - 1] == amounts[..k - 1];
      ShareBounded(amounts[k - 1], Sum(amounts), Sum(amounts));
    }
  }

  lemma FullRefundReturnsEachCapture(amounts: seq<int>)
    requires Positive(amounts)
    ensures Targets(amounts, Sum(amounts)) == amounts
  {
    forall i | 0 <= i < |amounts| ensures Targets(amounts, Sum(amounts))[i] == amounts[i] {
      SumPositive(amounts);
      FullRefundPrefix(amounts, i);
      ShareBounded(amounts[i], Sum(amounts), Sum(amounts));
    }
  }

  /** With one or two captures the remainder capture too stays within its amount and only grows. */
  lemma TwoTendersNeverOverRefund(amounts: seq<int>, r1: int, r2: int, i: nat)
    requires Positive(amounts) && |amounts| <= 2 && i < |amounts| && 0 <= r1 <= r2 <= Sum(amounts)
    ensures 0 <= Target(amounts, r1, i) <= Target(amounts, r2, i) <= amounts[i]
  {
    if i < |amounts| - 1 {
      EarlierTargetsBounded(amounts, r1, r2, i);
    } else {
      LastTargetBounds(amounts, r1);
      LastTargetBounds(amounts, r2);
      if |amounts| == 2 {
        var a, total := amounts[0], Sum(amounts);
        assert amounts[..1] == [a];
        SumPrefix(amounts, 0);
        var f1, f2 := ProportionalFloor(a, r1, total), ProportionalFloor(a, r2, total);
        assert FloorSum(amounts, r1, total, 1) == f1 && FloorSum(amounts, r2, total, 1) == f2;
        StepAtMostNumerator(a, r1, r2, total);
      }
    }
  }

  /** A share of a part grows by no more than the numerator does. */
  lemma StepAtMostNumerator(a: int, r1: int, r2: int, total: int)
    requires 0 < a <= total && 0 <= r1 <= r2
    ensures ProportionalFloor(a, r2, total) - ProportionalFloor(a, r1, total) <= r2 - r1
  {
    var f1, f2, k := ProportionalFloor(a, r1, total), ProportionalFloor(a, r2, total), r2 - r1;
    assert a * r1 < (f1 + 1) * total && f2 * total <= a * r2 by {
      ShareBelow(a, r1, total);
      ShareBelow(a, r2, total);
      Distribute(f1, 1, total);
    }
    hide ProportionalFloor;
    assert a * r2 == a * r1 + a * k by { Distribute(r1, k, a); }
    Scale(a, total, k);
    assert (f1 + 1 + k) * total == (f1 + 1) * total + total * k by { Distribute(f1 + 1, k, total); }
    Cancel(f2, f1 + 1 + k, total);
  }

  /** A capture that arrives last takes from the target of every earlier one, and gives to none. */
  lemma LaterCaptureTakesOver(amounts: seq<int>, late: int, refund: int, j: nat)
    requires Positive(amounts) && late > 0 && j < |amounts| && 0 <= refund <= Sum(amounts)
    ensures Target(amounts + [late], refund, j) <= Target(amounts, refund, j)
  {
    var all := amounts + [late];
    assert all[..|amounts|] == amounts;
    var total := Sum(amounts);
    SumPositive(amounts);
    ShareOfMore(amounts[j], refund, total, total + late);
    if j == |amounts| - 1 {
      LastTargetBounds(amounts, refund);
      var share, last := ProportionalFloor(amounts[j], refund, total), Target(amounts, refund, j);
      if share > last {
        Scale(last + 1, share, total);
        Distribute(last, 1, total);
      }
    }
  }

  // ---- captures that arrive anywhere ------------------------------------------------------------------

  /**
   * Whether a refund leaves every capture what it has had back, if the captures before the last get
   * their rounded shares of `total` and the last gets the rest.
   */
  predicate Fits(amounts: seq<int>, back: seq<int>, refund: int, total: int)
    requires |back| == |amounts| > 0
  {
    var last := |amounts| - 1;
    && (forall j | 0 <= j < last :: back[j] <= ProportionalFloor(amounts[j], refund, total))
    && back[last] <= refund - FloorSum(amounts, refund, total, last)
  }

  lemma FitsAtTheTotal(amounts: seq<int>, back: seq<int>, refund: int)
    requires |back| == |amounts| > 0
    ensures Fits(amounts, back, refund, Sum(amounts)) <==>
            forall j | 0 <= j < |amounts| :: back[j] <= Target(amounts, refund, j)
  {
    hide ProportionalFloor, FloorSum;
    if forall j | 0 <= j < |amounts| :: back[j] <= Target(amounts, refund, j) {
      var last := |amounts| - 1;
      assert back[last] <= Target(amounts, refund, last);
      forall j | 0 <= j < last ensures back[j] <= ProportionalFloor(amounts[j], refund, Sum(amounts)) {
        assert back[j] <= Target(amounts, refund, j);
      }
    }
  }

  lemma {:induction false} FloorSumPrefix(a: seq<int>, b: seq<int>, refund: int, total: int, k: nat)
    requires k <= |a| && k <= |b| && a[..k] == b[..k]
    ensures FloorSum(a, refund, total, k) == FloorSum(b, refund, total, k)
  {
    if k > 0 {
      assert a[..k - 1] == a[..k][..k - 1] == b[..k - 1] && a[k - 1] == a[..k][k - 1] == b[k - 1];
      FloorSumPrefix(a, b, refund, total, k - 1);
    }
  }

  lemma {:induction false} FloorSumInserted(amounts: seq<int>, k: nat, x: int, refund: int, total: int, m: nat)
    requires k <= m <= |amounts|
    ensures FloorSum(Inserted(amounts, k, x), refund, total, m + 1)
            == FloorSum(amounts, refund, total, m) + ProportionalFloor(x, refund, total)
  {
    var all := Inserted(amounts, k, x);
    InsertedAt(amounts, k, x);
    hide ProportionalFloor;
    if m == k {
      assert all[..k] == amounts[..k];
      FloorSumPrefix(all, amounts, refund, total, k);
    } else {
      FloorSumInserted(amounts, k, x, refund, total, m - 1);
      assert all[m] == amounts[m - 1];
    }
  }

  /** A new capture makes no room that its amount in the total would not make. */
  lemma RoomWithoutNewCapture(amounts: seq<int>, back: seq<int>, k: nat, x: int, refund: int, total: int)
    requires Positive(amounts) && |back| == |amounts| > 0 && k <= |amounts| && x > 0
    requires 0 <= refund <= total && Sum(amounts) <= total
    requires Fits(Inserted(amounts, k, x), Inserted(back, k, 0), refund, total)
    ensures Fits(amounts, back, refund, total)
  {
    hide ProportionalFloor, FloorSum, Inserted;
    var all, backs, last := Inserted(amounts, k, x), Inserted(back, k, 0), |amounts| - 1;
    InsertedAt(amounts, k, x);
    InsertedAt(back, k, 0);
    forall j | 0 <= j < last ensures back[j] <= ProportionalFloor(amounts[j], refund, total) {
      var i := if j < k then j else j + 1;
      assert all[i] == amounts[j] && backs[i] == back[j];
    }
    if k <= last {
      FloorSumInserted(amounts, k, x, refund, total, last);
      assert backs[last + 1] == back[last];
    } else {
      assert all[last] == amounts[last] && backs[last] == back[last];
      SharesWithinRefund(amounts, refund, total);
    }
  }

  /** The rounded shares of all captures come to no more than the refund. */
  lemma SharesWithinRefund(amounts: seq<int>, refund: int, total: int)
    requires Positive(amounts) && |amounts| > 0 && 0 <= refund && Sum(amounts) <= total
    ensures var last := |amounts| - 1;
            FloorSum(amounts, refund, total, last) + ProportionalFloor(amounts[last], refund, total) <= refund
  {
    SumPositive(amounts);
    FloorSumBounds(amounts, refund, total, |amounts|);
    assert amounts[..|amounts|] == amounts;
    Scale(Sum(amounts), total, refund);
    var f := FloorSum(amounts, refund, total, |amounts|);
    if f > refund {
      Scale(refund + 1, f, total);
      Distribute(refund, 1, total);
    }
  }

  /** A capture of one unit before the last one takes nothing, but counts in the total. */
  lemma UnitTakesNothing(amounts: seq<int>, back: seq<int>, refund: int, total: int)
    requires |back| == |amounts| > 0 && 0 <= refund < total && Fits(amounts, back, refund, total)
    ensures Fits(Inserted(amounts, |amounts| - 1, 1), Inserted(back, |amounts| - 1, 0), refund, total)
  {
    var last := |amounts| - 1;
    var all, backs := Inserted(amounts, last, 1), Inserted(back, last, 0);
    InsertedAt(amounts, last, 1);
    InsertedAt(back, last, 0);
    ShareUnique(1, refund, total, 0);
    FloorSumInserted(amounts, last, 1, refund, total, last);
    forall j | 0 <= j < last + 1 ensures backs[j] <= ProportionalFloor(all[j], refund, total) {
      if j < last {
        assert all[j] == amounts[j] && backs[j] == back[j];
      }
    }
  }

  lemma {:induction false} NoShares(amounts: seq<int>, refund: int, total: int, k: nat)
    requires k <= |amounts| && refund > 0 && Positive(amounts) && Sum(amounts) * refund < total
    ensures FloorSum(amounts, refund, total, k) == 0
    ensures forall j | 0 <= j < k :: ProportionalFloor(amounts[j], refund, total) == 0
  {
    if k > 0 {
      NoShares(amounts, refund, total, k - 1);
      SumPrefix(amounts, k - 1);
      Scale(amounts[k - 1], Sum(amounts), refund);
      Product(amounts[k - 1], refund);
      ShareUnique(amounts[k - 1], refund, total, 0);
    }
  }

  /** Once no share reaches a unit, a larger total makes no difference. */
  lemma LargeTotalsAgree(amounts: seq<int>, back: seq<int>, refund: int, total: int, larger: int)
    requires Positive(amounts) && |back| == |amounts| > 0 && refund > 0 && Sum(amounts) * refund < total <= larger
    ensures Fits(amounts, back, refund, total) <==> Fits(amounts, back, refund, larger)
  {
    NoShares(amounts, refund, total, |amounts| - 1);
    NoShares(amounts, refund, larger, |amounts| - 1);
    hide ProportionalFloor, FloorSum;
  }

  /** Of two captures, the first alone decides whether room can be made. */
  lemma {:induction false} RoomForTwo(amounts: seq<int>, back: seq<int>, refund: int, total: int) returns (enough: int)
    requires Positive(amounts) && |back| == |amounts| == 2 && 0 <= refund <= total && Sum(amounts) <= total
    requires back[0] <= ProportionalFloor(amounts[0], refund, total) && back[0] >= 0 && back[1] >= 0
             && back[0] + back[1] <= refund
    ensures enough >= total && Fits(amounts, back, refund, enough)
    decreases amounts[0] * refund - total
  {
    var a, share := amounts[0], ProportionalFloor(amounts[0], refund, total);
    assert FloorSum(amounts, refund, total, 1) == share by { assert FloorSum(amounts, refund, total, 0) == 0; }
    if share <= refund - back[1] {
      enough := total;
    } else {
      SumPrefix(amounts, 0);
      ShareFallsSlowly(a, refund, total);
      enough := RoomForTwo(amounts, back, refund, total + 1);
    }
  }

  lemma OneLess(q: int, total: int)
    requires q <= total
    ensures (q - 1) * (total + 1) <= q * total
  {
    assert (q - 1) * (total + 1) == q * total + q - total - 1;
  }

  /** One more unit in the total costs a share at most one unit. */
  lemma ShareFallsSlowly(a: int, refund: int, total: int)
    requires 0 < a <= total && 0 <= refund <= total && ProportionalFloor(a, refund, total) > 0
    ensures ProportionalFloor(a, refund, total + 1) >= ProportionalFloor(a, refund, total) - 1
    ensures a * refund > total - 1
  {
    var q, next := ProportionalFloor(a, refund, total), ProportionalFloor(a, refund, total + 1);
    ShareBounded(a, refund, total);
    assert total <= a * refund by { Scale(1, q, total); }
    OneLess(q, total);
    hide ProportionalFloor;
    if next < q - 1 {
      Scale(next + 1, q - 1, total + 1);
    }
  }

  function Ones(n: nat): seq<int> {
    seq(n, _ => 1)
  }

  lemma {:induction false} OnesSum(n: nat)
    ensures Sum(Ones(n)) == n && Positive(Ones(n))
  {
    if n > 0 {
      OnesSum(n - 1);
      assert Ones(n)[..n - 1] == Ones(n - 1);
    }
  }

  lemma {:induction false} OnesRoundToNothing(n: nat, refund: nat, k: nat)
    requires k <= n && refund < n
    ensures FloorSum(Ones(n), refund, n, k) == 0
  {
    if k > 0 {
      OnesRoundToNothing(n, refund, k - 1);
      ShareUnique(1, refund, n, 0);
    }
  }

  /** The bound is reached for every number of captures: n captures of one unit, n - 1 returned. */
  lemma LastTargetBoundIsReached(n: nat)
    requires n >= 2
    ensures Target(Ones(n), n - 1, n - 1) == Ones(n)[n - 1] + (n - 2)
  {
    OnesSum(n);
    OnesRoundToNothing(n, n - 1, n - 1);
  }
}
