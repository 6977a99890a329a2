/** GST on one order line: half-up rounding, inclusive and exclusive prices. */
module Tax {
  import opened Basics
  import opened Rounding

  datatype TaxPolicy = TaxPolicy(enabled: bool, mode: string, rounding: string)

  datatype TaxError = InvalidTaxPolicy | NegativeTaxable

  datatype Taxed = Taxed(tax: int, total: int)

  /** Integer division as the service uses it; it is only reached with positive operands. */
  function RoundHalfUp(numerator: int, denominator: int): int
    requires denominator > 0
  {
    if numerator <= 0 then 0 else (numerator + denominator / 2) / denominator
  }

  predicate Inclusive(policy: TaxPolicy) { Upper(Trim(policy.mode)) == "INCLUSIVE" }

  predicate Exclusive(policy: TaxPolicy) { Upper(Trim(policy.mode)) == "EXCLUSIVE" }

  predicate HalfUp(policy: TaxPolicy) { Upper(Trim(policy.rounding)) == "HALF_UP" }

  /** No tax is due, whatever the price. */
  predicate TaxFree(policy: TaxPolicy, rate: Option<int>) {
    !policy.enabled || rate.None? || rate.value == 0
  }

  function Denominator(policy: TaxPolicy, rate: int): int {
    if Inclusive(policy) then 10000 + rate else 10000
  }

  function CalculateTax(policy: TaxPolicy, taxable: int, rate: Option<int>): Result<Taxed, TaxError> {
    if taxable < 0 then Err(NegativeTaxable)
    else if !Inclusive(policy) && !Exclusive(policy) then Err(InvalidTaxPolicy)
    else if !HalfUp(policy) then Err(InvalidTaxPolicy)
    else if TaxFree(policy, rate) then Ok(Taxed(0, taxable))
    else if rate.value < 0 || rate.value > 10000 then Err(InvalidTaxPolicy)
    else
      var tax := RoundHalfUp(taxable * rate.value, Denominator(policy, rate.value));
      Ok(Taxed(tax, if Inclusive(policy) then taxable else taxable + tax))
  }

  // ---- what half-up means --------------------------------------------------------------------------

  /** `t` is the nearest integer to n/d, the upper one on a tie. */
  predicate Nearest(n: int, d: int, t: int) {
    2 * (n - d * t) < d && 2 * (d * t - n) <= d
  }

  lemma HalfUpIsNearest(n: int, d: int)
    requires n >= 0 && d > 0
    ensures Nearest(n, d, RoundHalfUp(n, d))
  {
    if n > 0 {
      FloorBounds(n + d / 2, d);
      var t := (n + d / 2) / d;
      Distribute(t, 1, d);
      assert t * d == d * t;
    }
  }

  /** There is only one such integer. */
  lemma NearestIsUnique(n: int, d: int, a: int, b: int)
    requires d > 0 && Nearest(n, d, a) && Nearest(n, d, b)
    ensures a == b
  {
    NearestIsMonotone(n, n, d, a, b);
    NearestIsMonotone(n, n, d, b, a);
  }

  /** A larger amount never rounds lower. */
  lemma NearestIsMonotone(m: int, n: int, d: int, a: int, b: int)
    requires d > 0 && m <= n && Nearest(m, d, a) && Nearest(n, d, b)
    ensures a <= b
  {
    Distribute(b, 1, d);
    assert d * a == a * d && d * b == b * d;
    Cancel(a, b + 1, d);
  }

  lemma RoundsExactly(n: int, d: int, t: int)
    requires n >= 0 && d > 0
    ensures t == RoundHalfUp(n, d) <==> Nearest(n, d, t)
  {
    HalfUpIsNearest(n, d);
    if Nearest(n, d, t) {
      NearestIsUnique(n, d, t, RoundHalfUp(n, d));
    }
  }

  // ---- the tax of a line -----------------------------------------------------------------------------

  /** The tax a policy finds is the half-up nearest amount, within the taxable amount. */
  lemma TaxIsNearestAndBounded(policy: TaxPolicy, taxable: int, rate: Option<int>)
    ensures match CalculateTax(policy, taxable, rate)
            case Err(e) => taxable < 0 || !(Inclusive(policy) || Exclusive(policy)) || !HalfUp(policy)
                           || (!TaxFree(policy, rate) && !(0 <= rate.value <= 10000))
            case Ok(r) =>
              && 0 <= r.tax <= taxable
              && r.total == (if Exclusive(policy) then taxable + r.tax else taxable)
              && (if TaxFree(policy, rate) then r.tax == 0
                  else Nearest(taxable * rate.value, Denominator(policy, rate.value), r.tax))
  {
    var r := CalculateTax(policy, taxable, rate);
    if r.Ok? && !TaxFree(policy, rate) {
      var n, d := taxable * rate.value, Denominator(policy, rate.value);
      Product(taxable, rate.value);
      HalfUpIsNearest(n, d);
      TaxWithin(taxable, rate.value, d, r.value.tax);
    }
  }

  lemma TaxWithin(taxable: int, rate: int, d: int, t: int)
    requires taxable >= 0 && 0 <= rate <= 10000 <= d && Nearest(taxable * rate, d, t)
    ensures 0 <= t <= taxable
  {
    Product(taxable, rate);
    Scale(rate, d, taxable);
    assert Nearest(0, d, 0);
    NearestIsMonotone(0, taxable * rate, d, 0, t);
    assert Nearest(d * taxable, d, taxable);
    assert taxable * rate <= d * taxable;
    NearestIsMonotone(taxable * rate, d * taxable, d, t, taxable);
  }

  /** More taxable never means less tax. */
  lemma TaxIsMonotone(policy: TaxPolicy, a: int, b: int, rate: Option<int>)
    requires a <= b && CalculateTax(policy, a, rate).Ok?
    ensures CalculateTax(policy, b, rate).Ok?
    ensures CalculateTax(policy, a, rate).value.tax <= CalculateTax(policy, b, rate).value.tax
    ensures CalculateTax(policy, a, rate).value.total <= CalculateTax(policy, b, rate).value.total
  {
    if !TaxFree(policy, rate) {
      Scale(a, b, rate.value);
      TaxIsNearestAndBounded(policy, a, rate);
      TaxIsNearestAndBounded(policy, b, rate);
      NearestIsMonotone(a * rate.value, b * rate.value, Denominator(policy, rate.value),
                        CalculateTax(policy, a, rate).value.tax, CalculateTax(policy, b, rate).value.tax);
    }
  }

  /**
   * Exact round trip: the inclusive tax found in an exclusive line total is the exclusive tax, for
   * every amount and rate, odd denominators included.
   */
  lemma InclusiveUndoesExclusive(exclusive: TaxPolicy, inclusive: TaxPolicy, taxable: int, rate: Option<int>)
    requires Exclusive(exclusive) && Inclusive(inclusive) && HalfUp(inclusive) && exclusive.enabled == inclusive.enabled
    requires CalculateTax(exclusive, taxable, rate).Ok?
    ensures var r := CalculateTax(exclusive, taxable, rate).value;
            CalculateTax(inclusive, r.total, rate) == Ok(Taxed(r.tax, r.total)) && r.total - r.tax == taxable
  {
    var r := CalculateTax(exclusive, taxable, rate).value;
    TaxIsNearestAndBounded(exclusive, taxable, rate);
    if !TaxFree(exclusive, rate) {
      var q := rate.value;
      Distribute(taxable, r.tax, q);
      Distribute(10000, q, r.tax);
      Product(r.total, q);
      assert (taxable + r.tax) * q - (10000 + q) * r.tax == taxable * q - 10000 * r.tax by {
        assert r.tax * q == q * r.tax;
      }
      RoundsExactly(r.total * q, 10000 + q, r.tax);
    }
  }

  // ---- 64-bit arithmetic -------------------------------------------------------------------------------

  const MIN64: int := -0x8000_0000_0000_0000
  const MAX64: int := 0x7fff_ffff_ffff_ffff

  function Wrap64(x: int): int {
    (x - MIN64) % 0x1_0000_0000_0000_0000 + MIN64
  }

  lemma WrapFits(x: int)
    requires MIN64 <= x <= MAX64
    ensures Wrap64(x) == x
  {
  }

  /** roundHalfUp on int64 operands. */
  function RoundHalfUp64(numerator: int, denominator: int): int
    requires denominator > 0
  {
    if numerator <= 0 then 0
    else
      var n := Wrap64(numerator + denominator / 2);
      if n >= 0 then n / denominator else -(-n / denominator)
  }

  const TAXABLE_LIMIT: int := (MAX64 - 10000) / 10000

  /** Up to about 9.2e14 minor units the machine computes the exact tax and total at any rate. */
  lemma NoOverflow(taxable: int, rate: int, denominator: int)
    requires 0 <= taxable <= TAXABLE_LIMIT && 0 <= rate <= 10000 <= denominator <= 20000
    ensures RoundHalfUp64(Wrap64(taxable * rate), denominator) == RoundHalfUp(taxable * rate, denominator)
    ensures MIN64 <= taxable + RoundHalfUp(taxable * rate, denominator) <= MAX64
  {
    Product(taxable, rate);
    Scale(rate, 10000, taxable);
    assert taxable * rate <= TAXABLE_LIMIT * 10000 by {
      assert taxable * rate == rate * taxable && 10000 * taxable <= 10000 * TAXABLE_LIMIT;
    }
    WrapFits(taxable * rate);
    WrapFits(taxable * rate + denominator / 2);
    HalfUpIsNearest(taxable * rate, denominator);
    TaxWithin(taxable, rate, denominator, RoundHalfUp(taxable * rate, denominator));
  }

  /** The limit is exact: one minor unit above it an inclusive price at the highest rate wraps to a negative tax. */
  lemma OverflowAboveTheLimit()
    ensures var taxable := TAXABLE_LIMIT + 1;
            RoundHalfUp64(Wrap64(taxable * 10000), 20000) < 0 <= RoundHalfUp(taxable * 10000, 20000)
  {
    var n := (TAXABLE_LIMIT + 1) * 10000;
    WrapFits(n);
    assert Wrap64(n + 10000) == n + 10000 - 0x1_0000_0000_0000_0000;
  }
}
