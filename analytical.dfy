/**
 * The analytical reliability of a system of independent subsystems
 * (analytical_reliability in reliability.py): the probability that every
 * subsystem works, i.e. the product of (1 - p) over the failure
 * probabilities p, taken in order. Arithmetic is exact over `real`.
 */
module Analytical {

  /** The probability that a subsystem with failure probability `failProb` works. */
  function ProbWorks(failProb: real): real
  {
    1.0 - failProb
  }

  /** The product of ProbWorks over the first `n` subsystems, multiplied in from the left, starting at 1. */
  function PartialProduct(probs: seq<real>, n: nat): real
    requires n <= |probs|
  {
    if n == 0 then 1.0 else PartialProduct(probs, n - 1) * ProbWorks(probs[n - 1])
  }

  /** The exact reliability: the product of ProbWorks over all subsystems. */
  function Product(probs: seq<real>): real
  {
    PartialProduct(probs, |probs|)
  }

  /** The accumulator loop of analytical_reliability. */
  method AnalyticalReliability(failureProbs: seq<real>) returns (reliability: real)
    ensures reliability == Product(failureProbs)
    ensures failureProbs == [] ==> reliability == 1.0
  {
    reliability := 1.0;
    for j := 0 to |failureProbs|
      invariant reliability == PartialProduct(failureProbs, j)
    {
      var probWorks := 1.0 - failureProbs[j];
      reliability := reliability * probWorks;
    }
  }

  /** The first n factors depend only on the first n subsystems. */
  lemma {:induction false} PartialProductPrefix(s: seq<real>, t: seq<real>, n: nat)
    requires n <= |s| && n <= |t|
    requires forall i :: 0 <= i < n ==> s[i] == t[i]
    ensures PartialProduct(s, n) == PartialProduct(t, n)
  {
    if n > 0 {
      PartialProductPrefix(s, t, n - 1);
      assert s[n - 1] == t[n - 1];
    }
  }

  /** The partial product over a + b past all of a is a's product times b's partial product. */
  lemma {:induction false} PartialProductAppend(a: seq<real>, b: seq<real>, m: nat)
    requires m <= |b|
    ensures PartialProduct(a + b, |a| + m) == Product(a) * PartialProduct(b, m)
  {
    if m == 0 {
      PartialProductPrefix(a + b, a, |a|);
    } else {
      PartialProductAppend(a, b, m - 1);
      assert (a + b)[|a| + m - 1] == b[m - 1];
      MulAssoc(Product(a), PartialProduct(b, m - 1), ProbWorks(b[m - 1]));
    }
  }

  /** The product splits over concatenation: subsystems can be grouped freely. */
  lemma ProductAppend(a: seq<real>, b: seq<real>)
    ensures Product(a + b) == Product(a) * Product(b)
  {
    PartialProductAppend(a, b, |b|);
  }

  /** With every failure probability in [0, 1], each partial product is a probability. */
  lemma {:induction false} PartialProductInUnitInterval(probs: seq<real>, n: nat)
    requires n <= |probs|
    requires forall j :: 0 <= j < |probs| ==> 0.0 <= probs[j] <= 1.0
    ensures 0.0 <= PartialProduct(probs, n) <= 1.0
  {
    if n > 0 {
      PartialProductInUnitInterval(probs, n - 1);
      UnitMul(PartialProduct(probs, n - 1), ProbWorks(probs[n - 1]));
    }
  }

  /** With every failure probability in [0, 1], the reliability is a probability. */
  lemma ProductInUnitInterval(probs: seq<real>)
    requires forall j :: 0 <= j < |probs| ==> 0.0 <= probs[j] <= 1.0
    ensures 0.0 <= Product(probs) <= 1.0
  {
    PartialProductInUnitInterval(probs, |probs|);
  }

  /** With every failure probability among the first n below 1, the partial product is positive. */
  lemma {:induction false} PartialProductPositive(probs: seq<real>, n: nat)
    requires n <= |probs|
    requires forall j :: 0 <= j < n ==> probs[j] < 1.0
    ensures PartialProduct(probs, n) > 0.0
  {
    if n > 0 {
      PartialProductPositive(probs, n - 1);
      PositiveMul(PartialProduct(probs, n - 1), ProbWorks(probs[n - 1]));
    }
  }

  /** With every failure probability below 1, the reliability is strictly positive. */
  lemma ProductPositive(probs: seq<real>)
    requires forall j :: 0 <= j < |probs| ==> probs[j] < 1.0
    ensures Product(probs) > 0.0
  {
    PartialProductPositive(probs, |probs|);
  }

  /** With every failure probability among the first n at most 1, the partial product is not negative. */
  lemma {:induction false} PartialProductNonNegative(probs: seq<real>, n: nat)
    requires n <= |probs|
    requires forall j :: 0 <= j < n ==> probs[j] <= 1.0
    ensures PartialProduct(probs, n) >= 0.0
  {
    if n > 0 {
      PartialProductNonNegative(probs, n - 1);
      NonNegativeMul(PartialProduct(probs, n - 1), ProbWorks(probs[n - 1]));
    }
  }

  /** With every failure probability at most 1, the reliability is not negative. */
  lemma ProductNonNegative(probs: seq<real>)
    requires forall j :: 0 <= j < |probs| ==> probs[j] <= 1.0
    ensures Product(probs) >= 0.0
  {
    PartialProductNonNegative(probs, |probs|);
  }

  /** Once a subsystem that fails for certain is multiplied in, the partial product stays 0. */
  lemma {:induction false} PartialProductZero(probs: seq<real>, k: nat, n: nat)
    requires k < n <= |probs| && probs[k] == 1.0
    ensures PartialProduct(probs, n) == 0.0
  {
    if n > k + 1 {
      PartialProductZero(probs, k, n - 1);
    }
  }

  /** A subsystem that fails for certain makes the whole system fail for certain. */
  lemma ProductZeroOnCertainFailure(probs: seq<real>, k: nat)
    requires k < |probs| && probs[k] == 1.0
    ensures Product(probs) == 0.0
  {
    PartialProductZero(probs, k, |probs|);
  }

  /**
   * Past subsystem k, raising its failure probability to q never raises the
   * partial product, provided the subsystems after it fail with probability at most 1.
   */
  lemma {:induction false} PartialProductMonotone(probs: seq<real>, k: nat, q: real, n: nat)
    requires k < n <= |probs| && probs[k] <= q
    requires forall j :: 0 <= j < k ==> probs[j] <= 1.0
    requires forall j :: k < j < n ==> probs[j] <= 1.0
    ensures PartialProduct(probs[k := q], n) <= PartialProduct(probs, n)
  {
    var raised := probs[k := q];
    if n == k + 1 {
      PartialProductPrefix(raised, probs, k);
      PartialProductNonNegative(probs, k);
      ScaledOrder(PartialProduct(raised, n), PartialProduct(probs, n),
        PartialProduct(probs, k), ProbWorks(q), ProbWorks(probs[k]));
    } else {
      PartialProductMonotone(probs, k, q, n - 1);
      assert raised[n - 1] == probs[n - 1];
      ScaledOrderRight(PartialProduct(raised, n), PartialProduct(probs, n),
        ProbWorks(probs[n - 1]), PartialProduct(raised, n - 1), PartialProduct(probs, n - 1));
    }
  }

  /**
   * Raising one subsystem's failure probability, the others fixed (and at
   * most 1), never raises the reliability.
   */
  lemma ProductMonotone(probs: seq<real>, k: nat, q: real)
    requires k < |probs| && probs[k] <= q
    requires forall j :: 0 <= j < |probs| && j != k ==> probs[j] <= 1.0
    ensures Product(probs[k := q]) <= Product(probs)
  {
    PartialProductMonotone(probs, k, q, |probs|);
  }

  /**
   * Past subsystem k, strictly raising its failure probability strictly lowers
   * the partial product, provided every other subsystem fails with probability below 1.
   */
  lemma {:induction false} PartialProductStrictlyMonotone(probs: seq<real>, k: nat, q: real, n: nat)
    requires k < n <= |probs| && probs[k] < q
    requires forall j :: 0 <= j < k ==> probs[j] < 1.0
    requires forall j :: k < j < n ==> probs[j] < 1.0
    ensures PartialProduct(probs[k := q], n) < PartialProduct(probs, n)
  {
    var raised := probs[k := q];
    if n == k + 1 {
      PartialProductPrefix(raised, probs, k);
      PartialProductPositive(probs, k);
      ScaledStrictOrder(PartialProduct(raised, n), PartialProduct(probs, n),
        PartialProduct(probs, k), ProbWorks(q), ProbWorks(probs[k]));
    } else {
      PartialProductStrictlyMonotone(probs, k, q, n - 1);
      assert raised[n - 1] == probs[n - 1];
      ScaledStrictOrderRight(PartialProduct(raised, n), PartialProduct(probs, n),
        ProbWorks(probs[n - 1]), PartialProduct(raised, n - 1), PartialProduct(probs, n - 1));
    }
  }

  /**
   * If the other subsystems' failure probabilities are all below 1, a strict
   * raise of one subsystem's failure probability strictly lowers the reliability.
   */
  lemma ProductStrictlyMonotone(probs: seq<real>, k: nat, q: real)
    requires k < |probs| && probs[k] < q
    requires forall j :: 0 <= j < |probs| && j != k ==> probs[j] < 1.0
    ensures Product(probs[k := q]) < Product(probs)
  {
    PartialProductStrictlyMonotone(probs, k, q, |probs|);
  }

  /** The five-subsystem configuration that reliability.py runs: 0.99 * 0.98 * 0.985 * 0.99 * 0.975. */
  lemma FiveSubsystemExample()
    ensures Product([0.01, 0.02, 0.015, 0.01, 0.025]) == 0.92243826675
  {
    var probs := [0.01, 0.02, 0.015, 0.01, 0.025];
    assert PartialProduct(probs, 1) == 0.99;
    assert PartialProduct(probs, 2) == 0.9702;
    assert PartialProduct(probs, 3) == 0.955647;
    assert PartialProduct(probs, 4) == 0.94609053;
  }

  lemma MulAssoc(a: real, b: real, c: real)
    ensures a * b * c == a * (b * c)
  {
  }

  lemma UnitMul(a: real, b: real)
    requires 0.0 <= a <= 1.0 && 0.0 <= b <= 1.0
    ensures 0.0 <= a * b <= 1.0
  {
    NonNegativeMul(a, b);
    NonNegativeMul(a, 1.0 - b);
    assert a * b == a - a * (1.0 - b);
  }

  lemma PositiveMul(a: real, b: real)
    requires a > 0.0 && b > 0.0
    ensures a * b > 0.0
  {
  }

  lemma NonNegativeMul(a: real, b: real)
    requires a >= 0.0 && b >= 0.0
    ensures a * b >= 0.0
  {
  }

  /** Scaling on the left by a non-negative factor keeps order. */
  lemma ScaledOrder(r: real, p: real, a: real, x: real, y: real)
    requires a >= 0.0 && x <= y && r == a * x && p == a * y
    ensures r <= p
  {
  }

  /** Scaling on the left by a positive factor keeps strict order. */
  lemma ScaledStrictOrder(r: real, p: real, a: real, x: real, y: real)
    requires a > 0.0 && x < y && r == a * x && p == a * y
    ensures r < p
  {
  }

  /** Scaling on the right by a non-negative factor keeps order. */
  lemma ScaledOrderRight(r: real, p: real, a: real, x: real, y: real)
    requires a >= 0.0 && x <= y && r == x * a && p == y * a
    ensures r <= p
  {
  }

  /** Scaling on the right by a positive factor keeps strict order. */
  lemma ScaledStrictOrderRight(r: real, p: real, a: real, x: real, y: real)
    requires a > 0.0 && x < y && r == x * a && p == y * a
    ensures r < p
  {
  }
}
