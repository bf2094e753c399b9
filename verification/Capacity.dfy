/** Checked 64-bit arithmetic behind the capacity commitments. */
module Capacity {
  import opened Identity

  /** `add_checked` on unsigned 64-bit values: the comparison never overflows. */
  function AddChecked(a: U64, b: U64): Option<U64> {
    if a > U64_MAX - b then None else Some(a + b)
  }

  /** `mul_checked`: tested by division, so the product itself never wraps. */
  function MulChecked(a: U64, b: U64): (r: Option<U64>)
    ensures r.None? <==> a * b > U64_MAX
    ensures r.Some? ==> r.value == a * b
  {
    DivisionTest(a, b, U64_MAX);
    if a != 0 && b > U64_MAX / a then None else Some(a * b)
  }

  lemma DivisionTest(a: nat, b: nat, limit: nat)
    ensures a != 0 ==> (b > limit / a <==> a * b > limit)
    ensures a == 0 ==> a * b <= limit
  {
    if a != 0 {
      var quotient := limit / a;
      assert limit == a * quotient + limit % a;
      if b > quotient {
        assert a * b >= a * (quotient + 1) by { MulMonotone(a, quotient + 1, b); }
      } else {
        assert a * b <= a * quotient by { MulMonotone(a, b, quotient); }
      }
    }
  }

  lemma MulMonotone(a: nat, x: nat, y: nat)
    requires x <= y
    ensures a * x <= a * y
  {
  }

  /** The headroom rule of the validator, including the addition that the source
      performs without a check. */
  function ApplyHeadroom(required: U64, numerator: U64, denominator: U64): U64 {
    if denominator == 0 then required
    else
      var product := MulChecked(required, numerator);
      if product.None? then U64_MAX
      else
        var wrapped := (product.value + denominator - 1) % 0x1_0000_0000_0000_0000;
        QuotientBound(wrapped, denominator);
        wrapped / denominator
  }

  lemma QuotientBound(a: nat, d: nat)
    requires d > 0
    ensures a / d <= a
  {
    if a / d > a {
      MulMonotone(a / d, 1, d);
    }
  }

  /** The smallest integer at or above x / d. */
  ghost predicate IsCeiling(r: nat, x: nat, d: nat) {
    r * d >= x && (r > 0 ==> (r - 1) * d < x)
  }

  lemma RoundUpIsCeiling(x: nat, d: nat)
    requires d > 0
    ensures IsCeiling((x + d - 1) / d, x, d)
  {
    var q := (x + d - 1) / d;
    assert x + d - 1 == d * q + (x + d - 1) % d;
  }

  /** The headroom is the rounded-up ratio exactly when the rounding addition
      does not wrap. When it does, the requirement collapses to zero; when the
      product itself overflows, it saturates. */
  lemma HeadroomExact(required: U64, numerator: U64, denominator: U64)
    requires denominator > 0
    requires required * numerator <= U64_MAX
    ensures IsCeiling(ApplyHeadroom(required, numerator, denominator), required * numerator, denominator)
            <==> required * numerator + denominator - 1 <= U64_MAX
    ensures required * numerator + denominator - 1 > U64_MAX ==>
              ApplyHeadroom(required, numerator, denominator) == 0
  {
    RoundingExact(required * numerator, denominator);
  }

  lemma RoundingExact(x: U64, d: U64)
    requires d > 0
    ensures x + d - 1 <= U64_MAX ==> IsCeiling((x + d - 1) % 0x1_0000_0000_0000_0000 / d, x, d)
    ensures x + d - 1 > U64_MAX ==> (x + d - 1) % 0x1_0000_0000_0000_0000 / d == 0 && !IsCeiling(0, x, d)
  {
    if x + d - 1 <= U64_MAX {
      RoundUpIsCeiling(x, d);
    } else {
      var wrapped := x + d - 1 - 0x1_0000_0000_0000_0000;
      assert (x + d - 1) % 0x1_0000_0000_0000_0000 == wrapped;
      SmallQuotient(wrapped, d);
    }
  }

  lemma SmallQuotient(a: nat, d: nat)
    requires a < d
    ensures a / d == 0
  {
  }

  lemma HeadroomSaturates(required: U64, numerator: U64, denominator: U64)
    requires denominator > 0 && required * numerator > U64_MAX
    ensures ApplyHeadroom(required, numerator, denominator) == U64_MAX
  {
  }

  /** The plain sum, without a bound. */
  function Sum(values: seq<U64>): nat {
    if values == [] then 0 else Sum(values[..|values| - 1]) + values[|values| - 1]
  }

  /** The accumulating sum of the pool check: sticks at the maximum on overflow. */
  function SaturatingSum(values: seq<U64>): U64 {
    if values == [] then 0
    else
      var total := AddChecked(SaturatingSum(values[..|values| - 1]), values[|values| - 1]);
      if total.Some? then total.value else U64_MAX
  }

  function Min(a: nat, b: nat): nat {
    if a < b then a else b
  }

  /** For every member sequence the accumulated capacity is the true sum, capped. */
  lemma {:induction false} SaturatingSumIsCappedSum(values: seq<U64>)
    ensures SaturatingSum(values) == Min(Sum(values), U64_MAX)
  {
    if values != [] {
      SaturatingSumIsCappedSum(values[..|values| - 1]);
    }
  }

  /** Within the bound, the pool comparison decides the question it stands for in
      unbounded arithmetic: is the remaining capacity, times the denominator, at
      least the requirement times the numerator? */
  lemma PoolComparisonExact(values: seq<U64>, required: U64, numerator: U64, denominator: U64)
    requires denominator > 0
    requires required * numerator + denominator - 1 <= U64_MAX
    ensures SaturatingSum(values) >= ApplyHeadroom(required, numerator, denominator)
            <==> Sum(values) * denominator >= required * numerator
  {
    var needed := ApplyHeadroom(required, numerator, denominator);
    var product := required * numerator;
    HeadroomExact(required, numerator, denominator);
    SaturatingSumIsCappedSum(values);
    CeilingBelow(needed, product, denominator, Sum(values));
    assert needed <= U64_MAX;
  }

  /** Comparing with a ceiling is comparing with the ratio. */
  lemma CeilingBelow(r: nat, x: nat, d: nat, total: nat)
    requires d > 0 && IsCeiling(r, x, d)
    ensures total >= r <==> total * d >= x
  {
    if total >= r {
      MulMonotone(d, r, total);
    } else {
      MulMonotone(d, total, r - 1);
    }
  }

  /** Outside the bound the comparison can pass with nothing left: a pool that
      requires 2^64 - 1 units at ratio 1/2 is satisfied by an empty one. */
  lemma WrapAdmitsEmptyPool()
    ensures ApplyHeadroom(U64_MAX, 1, 2) == 0
    ensures SaturatingSum([]) >= ApplyHeadroom(U64_MAX, 1, 2)
    ensures !(Sum([]) * 2 >= U64_MAX * 1)
  {
    HeadroomExact(U64_MAX, 1, 2);
  }
}
