/** Rounding a fraction of naturals to an integer. */
module Rounding {

  import opened Arith

  datatype Mode = Down | Up | Nearest

  /**
    r is n/d rounded: the greatest integer not above it, the least integer not
    below it, or the closest integer with halves going up.
   */
  ghost predicate IsRounded(mode: Mode, n: nat, d: nat, r: nat)
    requires d > 0
  {
    match mode
    case Down => r * d <= n < r * d + d
    case Up => n <= r * d < n + d
    case Nearest => 2 * (r * d) <= 2 * n + d < 2 * (r * d) + 2 * d
  }

  function RoundDiv(mode: Mode, n: nat, d: nat): (r: nat)
    requires d > 0
  {
    match mode
    case Down => n / d
    case Up => (n + d - 1) / d
    case Nearest => (2 * n + d) / (2 * d)
  }

  lemma RoundDivMeaning(mode: Mode, n: nat, d: nat)
    requires d > 0
    ensures IsRounded(mode, n, d, RoundDiv(mode, n, d))
  {
    match mode
    case Down => DivBounds(n, d);
    case Up => DivBounds(n + d - 1, d);
    case Nearest =>
      DivBounds(2 * n + d, 2 * d);
      Reassociate(RoundDiv(mode, n, d), 2, d);
  }

  /** At most one integer is the rounding of a fraction. */
  lemma RoundedUnique(mode: Mode, n: nat, d: nat, r: nat, r': nat)
    requires d > 0 && IsRounded(mode, n, d, r) && IsRounded(mode, n, d, r')
    ensures r == r'
  {
    FactorOrder(r, r', d);
    FactorOrder(r', r, d);
  }

  lemma RoundedIs(mode: Mode, n: nat, d: nat, r: nat)
    requires d > 0 && IsRounded(mode, n, d, r)
    ensures RoundDiv(mode, n, d) == r
  {
    RoundDivMeaning(mode, n, d);
    RoundedUnique(mode, n, d, r, RoundDiv(mode, n, d));
  }

  /** Whether a remainder m of a division by d adds one to the floor. */
  predicate Extra(mode: Mode, m: nat, d: nat) {
    match mode
    case Down => false
    case Up => m != 0
    case Nearest => 2 * m >= d
  }

  lemma RoundFromFloor(mode: Mode, n: nat, d: nat)
    requires d > 0
    ensures RoundDiv(mode, n, d) == n / d + (if Extra(mode, n % d, d) then 1 else 0)
  {
    DivBounds(n, d);
    Distribute(n / d, 1, d);
    RoundedIs(mode, n, d, n / d + (if Extra(mode, n % d, d) then 1 else 0));
  }

  /** Rounding respects the order of fractions. */
  lemma RoundDivMonotone(mode: Mode, n: nat, d: nat, n': nat, d': nat)
    requires d > 0 && d' > 0 && n * d' <= n' * d
    ensures RoundDiv(mode, n, d) <= RoundDiv(mode, n', d')
  {
    match mode
    case Down => RoundDownMonotone(n, d, n', d');
    case Up => RoundUpMonotone(n, d, n', d');
    case Nearest =>
      // half-up rounding of n/d is the floor of (2n + d)/2d
      Distribute(2 * n, d, 2 * d');
      Distribute(2 * n', d', 2 * d);
      Reassociate(2 * n, 2, d');
      Reassociate(2 * n', 2, d);
      Reassociate(2, n, d');
      Reassociate(2, n', d);
      Reassociate(d, 2, d');
      Reassociate(d', 2, d);
      RoundDownMonotone(2 * n + d, 2 * d, 2 * n' + d', 2 * d');
  }

  lemma RoundDownMonotone(n: nat, d: nat, n': nat, d': nat)
    requires d > 0 && d' > 0 && n * d' <= n' * d
    ensures n / d <= n' / d'
  {
    var r, r' := n / d, n' / d';
    DivBounds(n, d);
    DivBounds(n', d');
    MulOrder(r * d, n, d');
    MulStrict(n', r' * d' + d', d);
    Distribute(r' * d', d', d);
    Reassociate(r, d, d');
    Reassociate(r', d', d);
    assert 0 < d * d' by { MulStrict(0, d, d'); }
    FactorOrder(r, r', d * d');
  }

  lemma RoundUpMonotone(n: nat, d: nat, n': nat, d': nat)
    requires d > 0 && d' > 0 && n * d' <= n' * d
    ensures RoundDiv(Up, n, d) <= RoundDiv(Up, n', d')
  {
    var r, r' := RoundDiv(Up, n, d), RoundDiv(Up, n', d');
    RoundDivMeaning(Up, n, d);
    RoundDivMeaning(Up, n', d');
    MulStrict(r * d, n + d, d');
    Distribute(n, d, d');
    MulOrder(n', r' * d', d);
    Reassociate(r, d, d');
    Reassociate(r', d', d);
    assert 0 < d * d' by { MulStrict(0, d, d'); }
    FactorOrder(r, r', d * d');
  }
}
