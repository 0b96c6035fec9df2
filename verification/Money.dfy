/** Cent arithmetic: rounding, the tax split of tax-inclusive prices, and payment fees.
    Amounts are in cents and rates in hundredths of a percent. */
module Money {

  /** Quotient rounded to the nearest integer, a tie going up. */
  function RoundHalfUp(n: nat, d: nat): nat
    requires d > 0
  {
    (2 * n + d) / (2 * d)
  }

  /** Quotient rounded to the nearest integer, a tie going to the even neighbour. */
  function RoundHalfEven(n: nat, d: nat): nat
    requires d > 0
  {
    var q := n / d;
    var twice := 2 * (n % d);
    if twice < d || (twice == d && q % 2 == 0) then q else q + 1
  }

  predicate IsTie(n: nat, d: nat)
    requires d > 0
  {
    2 * (n % d) == d
  }

  /** `r` is as close to n/d as an integer can be. */
  predicate IsNearest(r: nat, n: nat, d: nat)
  {
    -(d as int) <= 2 * (r * d - n) <= d
  }

  lemma HalfUpIsNearest(n: nat, d: nat)
    requires d > 0
    ensures IsNearest(RoundHalfUp(n, d), n, d)
    ensures IsTie(n, d) ==> RoundHalfUp(n, d) == n / d + 1
  {
    var q, m := n / d, n % d;
    assert n == q * d + m;
    assert 2 * n + d == 2 * d * q + (2 * m + d);
    if 2 * m < d {
      DivUnique(2 * n + d, 2 * d, q, 2 * m + d);
      assert q * d - n == -m;
    } else {
      assert 2 * d * (q + 1) == 2 * d * q + 2 * d;
      DivUnique(2 * n + d, 2 * d, q + 1, 2 * m - d);
      assert (q + 1) * d == q * d + d;
    }
  }

  lemma DivUnique(a: int, b: int, q: int, r: int)
    requires 0 <= r < b && a == b * q + r
    ensures a / b == q && a % b == r
  {
    var p := a / b;
    assert a == b * p + a % b;
    Times(q + 1, p, b);
    Times(p + 1, q, b);
  }

  lemma Times(x: int, y: int, b: nat)
    ensures x <= y ==> b * x <= b * y
    ensures b * (x + 1) == b * x + b
  {
    assert x <= y ==> b * (y - x) >= 0;
  }

  lemma HalfEvenIsNearest(n: nat, d: nat)
    requires d > 0
    ensures IsNearest(RoundHalfEven(n, d), n, d)
    ensures IsTie(n, d) ==> RoundHalfEven(n, d) % 2 == 0
  {
    var q, m := n / d, n % d;
    assert n == q * d + m;
    assert (q + 1) * d == q * d + d;
    assert q * d - n == -m;
  }

  /** Away from ties the nearest integer is unique, so the two roundings agree. */
  lemma RoundingsAgree(n: nat, d: nat)
    requires d > 0 && !IsTie(n, d)
    ensures RoundHalfEven(n, d) == RoundHalfUp(n, d)
  {
    var q, m := n / d, n % d;
    assert n == q * d + m;
    assert 2 * n + d == 2 * d * q + (2 * m + d);
    if 2 * m < d {
      DivUnique(2 * n + d, 2 * d, q, 2 * m + d);
    } else {
      assert 2 * d * (q + 1) == 2 * d * q + 2 * d;
      DivUnique(2 * n + d, 2 * d, q + 1, 2 * m - d);
    }
  }

  lemma NearestIsMonotone(r: nat, n: nat, r': nat, n': nat, d: nat)
    requires d > 0 && n < n' && IsNearest(r, n, d) && IsNearest(r', n', d)
    ensures r <= r'
  {
    var x, y := r * d, r' * d;
    assert x < y + d;
    Times(r' + 1, r, d);
    Times(r', r, d);
    assert d * (r' + 1) == y + d && d * r == x;
  }

  // ---------------------------------------------------------------- tax-inclusive totals

  /** The net part of a total whose price includes the 18% tax. */
  function Subtotal(total: nat): nat
  {
    RoundHalfEven(100 * total, 118)
  }

  function Tax(total: nat): int
  {
    total - Subtotal(total)
  }

  /** The split is exact, its tax is within 0.59 of a cent of 18% of the net part (the
      difference is stated in hundredths of a cent), and no total divides to a half cent,
      so the rounding mode does not matter. */
  lemma TaxSplit(total: nat)
    ensures Subtotal(total) + Tax(total) == total && Tax(total) >= 0
    ensures -59 <= 100 * Tax(total) - 18 * Subtotal(total) <= 59
    ensures !IsTie(100 * total, 118)
    ensures Subtotal(total) == RoundHalfUp(100 * total, 118)
  {
    HalfEvenIsNearest(100 * total, 118);
    var q, m := 100 * total / 118, 100 * total % 118;
    assert 100 * total == 118 * q + m;
    assert m == 2 * (50 * total - 59 * q);
    RoundingsAgree(100 * total, 118);
  }

  lemma SubtotalIsMonotone(total: nat, larger: nat)
    requires total <= larger
    ensures Subtotal(total) <= Subtotal(larger) && Tax(total) <= Tax(larger) + 1
  {
    HalfEvenIsNearest(100 * total, 118);
    HalfEvenIsNearest(100 * larger, 118);
    if total < larger {
      NearestIsMonotone(Subtotal(total), 100 * total, Subtotal(larger), 100 * larger, 118);
    }
  }

  // ---------------------------------------------------------------- payment fees

  const FULL_RATE: nat := 10_000

  function Fee(amount: nat, rate: nat): nat
  {
    RoundHalfUp(amount * rate, FULL_RATE)
  }

  lemma AtMostFull(amount: nat, rate: nat)
    requires rate <= FULL_RATE
    ensures amount * rate <= amount * FULL_RATE
  {
    Times(rate, FULL_RATE, amount);
  }

  /** `fee` is the amount times the rate to the nearest cent, half a cent going up. */
  predicate IsFee(fee: nat, amount: nat, rate: nat)
  {
    && IsNearest(fee, amount * rate, 10_000)
    && (IsTie(amount * rate, 10_000) ==> fee == amount * rate / 10_000 + 1)
  }

  /** A fee is within half a cent of the exact one, and above it on a tie, which leaves no
      choice; at a rate of at most 100% it never exceeds the amount, so the net amount is
      not negative. */
  lemma FeeBounds(amount: nat, rate: nat, fee: nat)
    ensures IsFee(fee, amount, rate) <==> fee == Fee(amount, rate)
    ensures rate <= FULL_RATE ==> 0 <= Fee(amount, rate) <= amount
  {
    HalfUpIsNearest(amount * rate, FULL_RATE);
    if IsFee(fee, amount, rate) && fee < Fee(amount, rate) {
      OnlyTiesDiffer(fee, Fee(amount, rate), amount * rate, FULL_RATE);
    } else if IsFee(fee, amount, rate) && Fee(amount, rate) < fee {
      OnlyTiesDiffer(Fee(amount, rate), fee, amount * rate, FULL_RATE);
    }
    if rate <= FULL_RATE {
      AtMostFull(amount, rate);
      FeeAtMost(amount, rate);
    }
  }

  lemma FeeAtMost(amount: nat, rate: nat)
    requires amount * rate <= amount * FULL_RATE
    ensures Fee(amount, rate) <= amount
  {
  }

  /** Two different integers are both nearest only on a tie. */
  lemma OnlyTiesDiffer(r: nat, r': nat, n: nat, d: nat)
    requires d > 0 && r < r' && IsNearest(r, n, d) && IsNearest(r', n, d)
    ensures IsTie(n, d)
  {
    var x, y, m := d * r, d * r', n - d * r;
    assert r * d == x && r' * d == y;
    assert y >= x + d by {
      Times(r + 1, r', d);
      Times(r, r, d);
    }
    assert 2 * m == d;
    DivUnique(n, d, r, m);
  }

  lemma FeeIsMonotone(amount: nat, rate: nat, amount': nat, rate': nat)
    requires amount <= amount' && rate <= rate'
    ensures Fee(amount, rate) <= Fee(amount', rate')
  {
    assert amount * rate <= amount' * rate <= amount' * rate' by {
      assert (amount' - amount) * rate >= 0;
      assert amount' * (rate' - rate) >= 0;
    }
    HalfUpIsNearest(amount * rate, FULL_RATE);
    HalfUpIsNearest(amount' * rate', FULL_RATE);
    if amount * rate < amount' * rate' {
      NearestIsMonotone(Fee(amount, rate), amount * rate, Fee(amount', rate'), amount' * rate', FULL_RATE);
    }
  }
}
