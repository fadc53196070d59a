/**
 app/trust/ledger.py: Beta scores with exponential decay towards a cold-start prior and
 asymmetric updates, over exact reals.
 */
module BetaScores {
  import opened Common

  datatype BetaScore = BetaScore(alpha: real, beta: real)

  const COLD_START_PRIOR: BetaScore := BetaScore(1.0, 3.0)

  /** math.sqrt and `0.5 ** x`, as functions with the laws the proofs use. */
  datatype Maths = Maths(sqrt: real -> real, halfPower: real -> real) {

    ghost predicate AddsUp(x: real, y: real) {
      halfPower(x + y) == halfPower(x) * halfPower(y)
    }

    ghost predicate Valid() {
      && (forall x :: x >= 0.0 ==> sqrt(x) >= 0.0 && sqrt(x) * sqrt(x) == x)
      && halfPower(0.0) == 1.0 && halfPower(1.0) == 0.5
      && (forall x :: x >= 0.0 ==> 0.0 < halfPower(x) <= 1.0)
      && (forall x, y :: x >= 0.0 && y >= 0.0 ==> AddsUp(x, y))
    }
  }

  type Positive = x: real | x > 0.0 witness 1.0

  datatype LedgerPolicy = LedgerPolicy(
    fallMultiplier: Positive, reliabilityHalfLifeDays: Positive, honestyHalfLifeDays: Positive)
  {
    function HalfLifeFor(criterion: string): Positive {
      if criterion == HONESTY then honestyHalfLifeDays else reliabilityHalfLifeDays
    }
  }

  const RELIABILITY: string := "reliability"
  const HONESTY: string := "honesty"
  const DEFAULT_LEDGER_POLICY: LedgerPolicy := LedgerPolicy(4.0, 30.0, 60.0)

  /** Accumulated evidence mass beyond the prior. */
  function Observations(s: BetaScore): real {
    (s.alpha - COLD_START_PRIOR.alpha) + (s.beta - COLD_START_PRIOR.beta)
  }

  function Mean(s: BetaScore): real
    requires s.alpha + s.beta != 0.0
  {
    s.alpha / (s.alpha + s.beta)
  }

  /** The term under the square root of the standard deviation. */
  function Variance(s: BetaScore): real
    requires s.alpha + s.beta != 0.0 && s.alpha + s.beta + 1.0 != 0.0
  {
    var n := s.alpha + s.beta;
    NonZeroProduct(n);
    s.alpha * s.beta / (n * n * (n + 1.0))
  }

  lemma NonZeroProduct(n: real)
    requires n != 0.0 && n + 1.0 != 0.0
    ensures n * n * (n + 1.0) != 0.0
  {
  }

  /** lower_bound with z = 1; None where Python raises (division by zero, negative root). */
  function LowerBound(m: Maths, s: BetaScore): Option<real> {
    var n := s.alpha + s.beta;
    if n == 0.0 || n + 1.0 == 0.0 || Variance(s) < 0.0 then None
    else
      var raw := Mean(s) - m.sqrt(Variance(s));
      Some(if raw > 0.0 then raw else 0.0)
  }

  /** Scores without a lower bound: a zero denominator, or a negative term under the root. */
  predicate NoLowerBound(s: BetaScore) {
    var n := s.alpha + s.beta;
    || n == 0.0 || n == -1.0
    || (n > -1.0 && OppositeSigns(s)) || (n < -1.0 && SameSigns(s))
  }

  predicate OppositeSigns(s: BetaScore) {
    (s.alpha < 0.0 < s.beta) || (s.beta < 0.0 < s.alpha)
  }

  predicate SameSigns(s: BetaScore) {
    (s.alpha < 0.0 && s.beta < 0.0) || (s.alpha > 0.0 && s.beta > 0.0)
  }

  function Update(s: BetaScore, positive: bool, weight: real, policy: LedgerPolicy): BetaScore {
    if positive then BetaScore(s.alpha + weight, s.beta)
    else BetaScore(s.alpha, s.beta + weight * policy.fallMultiplier)
  }

  function Decay(m: Maths, s: BetaScore, elapsedDays: real, halfLifeDays: Positive): BetaScore {
    if elapsedDays <= 0.0 then s
    else
      var factor := m.halfPower(elapsedDays / halfLifeDays);
      BetaScore(
        COLD_START_PRIOR.alpha + (s.alpha - COLD_START_PRIOR.alpha) * factor,
        COLD_START_PRIOR.beta + (s.beta - COLD_START_PRIOR.beta) * factor)
  }

  /** The region every score built from non-negative weights stays in. */
  predicate AtLeastPrior(s: BetaScore) {
    s.alpha >= 1.0 && s.beta >= 3.0
  }

  // ---- the lower bound ----

  lemma MeanOfScore(s: BetaScore)
    requires AtLeastPrior(s)
    ensures 0.0 < Mean(s) < 1.0 && Mean(s) * (s.alpha + s.beta) == s.alpha
  {
  }

  lemma VarianceOfScore(s: BetaScore)
    requires AtLeastPrior(s)
    ensures Variance(s) > 0.0
    ensures var n := s.alpha + s.beta; Variance(s) * (n * n * (n + 1.0)) == s.alpha * s.beta
  {
  }

  lemma Quotient(x: real, y: real)
    requires y > 0.0
    ensures x / y * y == x
    ensures x > 0.0 ==> x / y > 0.0
  {
  }

  /**
   The lower bound as mean times (1 - r), where r is the ratio of deviation to mean:
   r squared is b / (a (a + b + 1)), which is below 1.
   */
  lemma Decompose(m: Maths, s: BetaScore) returns (mean: real, r: real)
    requires m.Valid() && AtLeastPrior(s)
    ensures mean == Mean(s) && 0.0 < mean < 1.0 && mean * (s.alpha + s.beta) == s.alpha
    ensures 0.0 <= r < 1.0 && r * r * (s.alpha * (s.alpha + s.beta + 1.0)) == s.beta
    ensures mean > m.sqrt(Variance(s)) && mean - m.sqrt(Variance(s)) == mean * (1.0 - r)
    ensures LowerBound(m, s) == Some(mean * (1.0 - r))
  {
    MeanOfScore(s);
    VarianceOfScore(s);
    mean := Mean(s);
    r := DecomposeValues(s.alpha, s.beta, mean, Variance(s), m.sqrt(Variance(s)));
    Unclamped(m, s);
  }

  lemma DecomposeValues(a: real, b: real, mean: real, v: real, std: real) returns (r: real)
    requires a >= 1.0 && b >= 3.0 && mean > 0.0 && mean * (a + b) == a
    requires std >= 0.0 && std * std == v
    requires var n := a + b; v * (n * n * (n + 1.0)) == a * b
    ensures 0.0 <= r < 1.0 && r * r * (a * (a + b + 1.0)) == b
    ensures mean > std && mean - std == mean * (1.0 - r)
  {
    r := Ratio(std, mean);
    SpreadFacts(a, b, mean, v, std, r);
  }

  lemma Ratio(x: real, y: real) returns (r: real)
    requires y > 0.0
    ensures x == r * y
  {
    r := x / y;
  }

  lemma Unclamped(m: Maths, s: BetaScore)
    requires AtLeastPrior(s) && Variance(s) > 0.0 && Mean(s) > m.sqrt(Variance(s))
    ensures LowerBound(m, s) == Some(Mean(s) - m.sqrt(Variance(s)))
  {
  }

  lemma SpreadFacts(a: real, b: real, mean: real, v: real, std: real, r: real)
    requires a >= 1.0 && b >= 3.0 && mean > 0.0 && mean * (a + b) == a
    requires std >= 0.0 && std * std == v && std == r * mean
    requires var n := a + b; v * (n * n * (n + 1.0)) == a * b
    ensures 0.0 <= r < 1.0 && r * r * (a * (a + b + 1.0)) == b
    ensures mean > std && mean - std == mean * (1.0 - r)
  {
    var n := a + b;
    SquareOfSpread(r, mean, std, n, a, b);
    RatioInRange(a, b, mean, std, r);
    var slack := 1.0 - r;
    assert mean * slack > 0.0;
    assert mean * slack == mean - r * mean;
  }

  lemma RatioInRange(a: real, b: real, mean: real, std: real, r: real)
    requires a >= 1.0 && b >= 3.0 && mean > 0.0 && std >= 0.0 && std == r * mean
    requires r * r * (a * (a + b + 1.0)) == b
    ensures 0.0 <= r < 1.0
  {
  }

  lemma Less(x: real, y: real, k: real)
    requires x < y && k > 0.0
    ensures x * k < y * k
  {
  }

  lemma SquareOfSpread(r: real, mean: real, std: real, n: real, a: real, b: real)
    requires a > 0.0 && std == r * mean && mean * n == a
    requires std * std * (n * n * (n + 1.0)) == a * b
    ensures r * r * (a * (n + 1.0)) == b
  {
  }

  /** Mean less one deviation, at least 0; the deviation squared is a b / (n^2 (n + 1)) with n = a + b. */
  predicate IsLowerBound(s: BetaScore, mean: real, deviation: real, bound: real) {
    var n := s.alpha + s.beta;
    && mean * n == s.alpha && deviation >= 0.0
    && deviation * deviation * (n * n * (n + 1.0)) == s.alpha * s.beta
    && bound == (if mean > deviation then mean - deviation else 0.0)
  }

  lemma FromQuotient(x: real, y: real)
    requires y != 0.0
    ensures x / y * y == x
  {
  }

  /** Wherever it does not raise, the lower bound is that number. */
  lemma LowerBoundValue(m: Maths, s: BetaScore)
    requires m.Valid() && LowerBound(m, s).Some?
    ensures exists mean, deviation :: IsLowerBound(s, mean, deviation, LowerBound(m, s).value)
  {
    var n, mean, deviation := s.alpha + s.beta, Mean(s), m.sqrt(Variance(s));
    NonZeroProduct(n);
    FromQuotient(s.alpha, n);
    FromQuotient(s.alpha * s.beta, n * n * (n + 1.0));
    assert deviation * deviation == Variance(s);
    assert IsLowerBound(s, mean, deviation, LowerBound(m, s).value);
  }

  /** Mean minus deviation is strictly positive, so the clamp at 0 never bites. */
  lemma LowerBoundPositive(m: Maths, s: BetaScore)
    requires m.Valid() && AtLeastPrior(s)
    ensures LowerBound(m, s).Some? && 0.0 < LowerBound(m, s).value < 1.0
    ensures LowerBound(m, s).value == Mean(s) - m.sqrt(Variance(s))
  {
    var mean, r := Decompose(m, s);
    VarianceOfScore(s);
  }

  predicate Below(low: Option<real>, high: Option<real>) {
    low.Some? && high.Some? && low.value < high.value
  }

  /** Any positive evidence strictly raises the lower bound; any negative one lowers it. */
  lemma EvidenceMovesLowerBound(m: Maths, s: BetaScore, positive: bool, weight: real, policy: LedgerPolicy)
    requires m.Valid() && AtLeastPrior(s) && weight > 0.0
    ensures positive ==> Below(LowerBound(m, s), LowerBound(m, Update(s, true, weight, policy)))
    ensures !positive ==> Below(LowerBound(m, Update(s, false, weight, policy)), LowerBound(m, s))
  {
    if positive {
      MoreAlpha(m, s, Update(s, true, weight, policy));
    } else {
      Less(0.0, weight, policy.fallMultiplier);
      MoreBeta(m, s, Update(s, false, weight, policy));
    }
  }

  lemma MoreAlpha(m: Maths, s: BetaScore, t: BetaScore)
    requires m.Valid() && AtLeastPrior(s) && t.alpha > s.alpha && t.beta == s.beta
    ensures Below(LowerBound(m, s), LowerBound(m, t))
  {
    var x, r := Decompose(m, s);
    var y, q := Decompose(m, t);
    RaisingAlpha(s, t, x, y, r, q);
    InOrder(LowerBound(m, s), LowerBound(m, t), x, y, r, q);
  }

  lemma MoreBeta(m: Maths, s: BetaScore, t: BetaScore)
    requires m.Valid() && AtLeastPrior(s) && t.alpha == s.alpha && t.beta > s.beta
    ensures Below(LowerBound(m, t), LowerBound(m, s))
  {
    var x, r := Decompose(m, s);
    var y, q := Decompose(m, t);
    RaisingBeta(s, t, x, y, r, q);
    InOrder(LowerBound(m, t), LowerBound(m, s), y, x, q, r);
  }

  lemma InOrder(low: Option<real>, high: Option<real>, x: real, y: real, r: real, q: real)
    requires low == Some(x * (1.0 - r)) && high == Some(y * (1.0 - q))
    requires 0.0 < x < y && q <= r < 1.0
    ensures Below(low, high)
  {
    ProductGrows(x, y, 1.0 - r, 1.0 - q);
  }

  lemma ProductGrows(x: real, y: real, u: real, v: real)
    requires 0.0 < x < y && 0.0 < u <= v
    ensures x * u < y * v
  {
  }

  lemma SquareOrder(x: real, y: real)
    requires x >= 0.0 && y >= 0.0 && x * x <= y * y
    ensures x <= y
  {
    if x > y {
      StrictSquares(y, x);
    }
  }

  lemma StrictSquares(y: real, x: real)
    requires 0.0 <= y < x
    ensures y * y < x * x
  {
    var z := x * y;
    assert x * x > z;
    assert z >= y * y;
  }

  /** If `x n` is at most `y n`, then `x` is at most `y`. */
  lemma CancelOrder(x: real, y: real, n: real)
    requires n > 0.0 && x * n <= y * n
    ensures x <= y
  {
  }

  lemma RaisingAlpha(s: BetaScore, t: BetaScore, x: real, y: real, r: real, q: real)
    requires AtLeastPrior(s) && t.alpha > s.alpha && t.beta == s.beta
    requires x * (s.alpha + s.beta) == s.alpha && y * (t.alpha + t.beta) == t.alpha && x < 1.0
    requires r >= 0.0 && r * r * (s.alpha * (s.alpha + s.beta + 1.0)) == s.beta
    requires q >= 0.0 && q * q * (t.alpha * (t.alpha + t.beta + 1.0)) == t.beta
    ensures x < y && q <= r
  {
    var w := t.alpha - s.alpha;
    MeanRises(x, y, s.alpha, s.alpha + s.beta, w);
    var n, n' := s.alpha + s.beta + 1.0, t.alpha + t.beta + 1.0;
    FactorsGrow(s.alpha, t.alpha, n, n');
    InverseOrder(r * r, q * q, s.alpha * n, t.alpha * n');
    SquareOrder(q, r);
  }

  lemma FactorsGrow(x: real, x': real, y: real, y': real)
    requires 0.0 < x < x' && 0.0 < y < y'
    ensures 0.0 < x * y < x' * y'
  {
  }

  lemma MeanRises(x: real, y: real, a: real, n: real, w: real)
    requires w > 0.0 && n > 0.0 && x < 1.0 && x * n == a && y * (n + w) == a + w
    ensures x < y
  {
    Less(x, 1.0, w);
    if y <= x {
      AtMost(y, x, n + w);
    }
  }

  lemma AtMost(x: real, y: real, k: real)
    requires x <= y && k >= 0.0
    ensures x * k <= y * k
  {
  }

  lemma MeanFalls(x: real, y: real, a: real, n: real, w: real)
    requires w > 0.0 && n > 0.0 && x > 0.0 && x * n == a && y * (n + w) == a
    ensures y < x
  {
  }

  /** Two equal products with a larger second factor have a smaller first one. */
  lemma InverseOrder(u: real, v: real, c: real, d: real)
    requires 0.0 < c < d && u * c == v * d && v >= 0.0
    ensures v <= u
  {
    AtMost(c, d, v);
    CancelOrder(v, u, c);
  }

  lemma RaisingBeta(s: BetaScore, t: BetaScore, x: real, y: real, r: real, q: real)
    requires AtLeastPrior(s) && t.alpha == s.alpha && t.beta > s.beta
    requires x * (s.alpha + s.beta) == s.alpha && y * (t.alpha + t.beta) == t.alpha && x > 0.0
    requires r >= 0.0 && r * r * (s.alpha * (s.alpha + s.beta + 1.0)) == s.beta
    requires q >= 0.0 && q * q * (t.alpha * (t.alpha + t.beta + 1.0)) == t.beta
    ensures y < x && r <= q
  {
    var w := t.beta - s.beta;
    MeanFalls(x, y, s.alpha, s.alpha + s.beta, w);
    CrossRatio(s.alpha, s.alpha + s.beta + 1.0, w, r * r, q * q, s.beta);
    SquareOrder(r, q);
  }

  /** b / n grows when both grow by the same amount and b is below n. */
  lemma CrossRatio(a: real, n: real, w: real, rr: real, qq: real, b: real)
    requires a > 0.0 && w > 0.0 && 0.0 < b < n
    requires rr * (a * n) == b && qq * (a * (n + w)) == b + w
    ensures rr <= qq
  {
  }

  // ---- when the lower bound raises ----

  lemma LowerBoundExactly(m: Maths, s: BetaScore)
    ensures LowerBound(m, s).None? <==> NoLowerBound(s)
  {
    var n := s.alpha + s.beta;
    if n != 0.0 && n + 1.0 != 0.0 {
      VarianceSign(s, n);
    }
  }

  lemma VarianceSign(s: BetaScore, n: real)
    requires n == s.alpha + s.beta && n != 0.0 && n + 1.0 != 0.0
    ensures Variance(s) < 0.0 <==> (n > -1.0 && OppositeSigns(s)) || (n < -1.0 && SameSigns(s))
  {
    var p, d := s.alpha * s.beta, n * n * (n + 1.0);
    SignOfProduct(s.alpha, s.beta);
    SignOfCube(n);
    SignOfQuotient(p, d);
  }

  lemma SignOfProduct(x: real, y: real)
    ensures x * y < 0.0 <==> (x < 0.0 < y) || (y < 0.0 < x)
    ensures x * y > 0.0 <==> (x < 0.0 && y < 0.0) || (x > 0.0 && y > 0.0)
  {
  }

  lemma SignOfCube(n: real)
    requires n != 0.0 && n + 1.0 != 0.0
    ensures n * n * (n + 1.0) > 0.0 <==> n > -1.0
  {
    SignOfProduct(n, n);
    SignOfProduct(n * n, n + 1.0);
  }

  lemma SignOfQuotient(x: real, y: real)
    requires y != 0.0
    ensures x / y < 0.0 <==> (x < 0.0 < y) || (y < 0.0 < x)
  {
    SignOfProduct(x / y, y);
  }

  /** The axis an event moves, and the one it leaves. */
  function AxisOf(s: BetaScore, positive: bool): real {
    if positive then s.alpha else s.beta
  }

  /**
   From a score at or above the prior, evidence raises exactly when its weight, then
   necessarily negative, takes the moved axis below zero without taking the sum of both
   below -1.
   */
  lemma EvidenceRaisesExactly(s: BetaScore, positive: bool, weight: real, policy: LedgerPolicy)
    requires AtLeastPrior(s)
    ensures var after := Update(s, positive, weight, policy);
            NoLowerBound(after) <==> -(AxisOf(s, !positive) + 1.0) <= AxisOf(after, positive) < 0.0
  {
  }

  // ---- decay ----

  /** Decay keeps the region and never adds mass. */
  lemma DecayShrinks(m: Maths, s: BetaScore, elapsed: real, halfLife: Positive)
    requires m.Valid() && AtLeastPrior(s)
    ensures AtLeastPrior(Decay(m, s, elapsed, halfLife))
    ensures Observations(Decay(m, s, elapsed, halfLife)) <= Observations(s)
  {
    if elapsed > 0.0 {
      Quotient(elapsed, halfLife);
      Shrunk(s, m.halfPower(elapsed / halfLife));
    }
  }

  lemma Shrunk(s: BetaScore, f: real)
    requires AtLeastPrior(s) && 0.0 < f <= 1.0
    ensures var t := BetaScore(1.0 + (s.alpha - 1.0) * f, 3.0 + (s.beta - 3.0) * f);
            AtLeastPrior(t) && Observations(t) <= Observations(s)
  {
    var x, y := (s.alpha - 1.0) * f, (s.beta - 3.0) * f;
    PartOf(s.alpha - 1.0, f, x);
    PartOf(s.beta - 3.0, f, y);
    LessMass(s, x, y);
  }

  lemma LessMass(s: BetaScore, x: real, y: real)
    requires 0.0 <= x <= s.alpha - 1.0 && 0.0 <= y <= s.beta - 3.0
    ensures var t := BetaScore(1.0 + x, 3.0 + y);
            AtLeastPrior(t) && Observations(t) <= Observations(s)
  {
  }

  lemma PartOf(mass: real, f: real, part: real)
    requires mass >= 0.0 && 0.0 < f <= 1.0 && part == mass * f
    ensures 0.0 <= part <= mass
  {
    Scale(mass, f);
  }

  lemma Scale(x: real, f: real)
    requires x >= 0.0 && 0.0 < f <= 1.0
    ensures 0.0 <= x * f <= x
  {
  }

  /** Decay as one multiplication of both masses, the early return included. */
  lemma DecayIsScaling(m: Maths, s: BetaScore, elapsed: real, halfLife: Positive)
    requires m.Valid() && elapsed >= 0.0
    ensures elapsed / halfLife >= 0.0
    ensures var f := m.halfPower(elapsed / halfLife);
            && Decay(m, s, elapsed, halfLife)
               == BetaScore(1.0 + (s.alpha - 1.0) * f, 3.0 + (s.beta - 3.0) * f)
            && Observations(Decay(m, s, elapsed, halfLife)) == Observations(s) * f
  {
  }
}
