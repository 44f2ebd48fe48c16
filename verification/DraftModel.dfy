/** bench/step_sim.py, `CostModel.per_position_acc`: the per-position acceptance with a given mean. */
module DraftModel {
  function Power(q: real, n: nat): real {
    if n == 0 then 1.0 else Power(q, n - 1) * q
  }

  /** q^1 + ... + q^k */
  function Geometric(q: real, k: nat): real {
    if k == 0 then 0.0 else Geometric(q, k - 1) + Power(q, k)
  }

  /** The sum over n < m of n * q^n * (1 - q). */
  function FailSum(q: real, m: nat): real {
    if m == 0 then 0.0 else FailSum(q, m - 1) + (m - 1) as real * Power(q, m - 1) * (1.0 - q)
  }

  /** The expected number of accepted tokens: first failure after n < k, or all k. */
  function Expected(q: real, k: nat): real {
    FailSum(q, k) + k as real * Power(q, k)
  }

  /** The expectation is the sum of the probabilities of reaching each position. */
  lemma {:induction false} ExpectedIsGeometric(q: real, k: nat)
    ensures Expected(q, k) == Geometric(q, k)
  {
    if k > 0 {
      ExpectedIsGeometric(q, k - 1);
      var n, p := (k - 1) as real, Power(q, k - 1);
      assert k as real == n + 1.0;
      assert n * p * (1.0 - q) == n * p - n * (p * q);
      assert (n + 1.0) * (p * q) == n * (p * q) + p * q;
    }
  }

  /** Half a square's worth of steepness: 1 + 2 + ... + k. */
  function Steepness(k: nat): real {
    if k == 0 then 0.0 else Steepness(k - 1) + k as real
  }

  lemma {:induction false} SteepnessIs(k: nat)
    ensures 2.0 * Steepness(k) == k as real * (k as real + 1.0)
    ensures Steepness(k) >= 0.0
  {
    if k > 0 {
      SteepnessIs(k - 1);
      var n := (k - 1) as real;
      assert k as real == n + 1.0;
      assert (n + 1.0) * (n + 2.0) == n * (n + 1.0) + 2.0 * (n + 1.0);
    }
  }

  lemma {:induction false} PowerBounds(q: real, n: nat)
    requires 0.0 <= q <= 1.0
    ensures 0.0 <= Power(q, n) <= 1.0
  {
    if n > 0 {
      PowerBounds(q, n - 1);
      var p := Power(q, n - 1);
      assert 0.0 <= p * q;
      assert p * q <= p;
    }
  }

  /** Powers rise with the base, by at most n times the difference. */
  lemma {:induction false} PowerRises(a: real, b: real, n: nat)
    requires 0.0 <= a <= b <= 1.0
    ensures 0.0 <= Power(b, n) - Power(a, n) <= n as real * (b - a)
  {
    if n > 0 {
      PowerRises(a, b, n - 1);
      PowerBounds(a, n - 1);
      PowerBounds(b, n - 1);
      PowersUnfold(a, b, n);
      PowerStep(Power(a, n - 1), Power(b, n - 1), a, b, (n - 1) as real, n as real);
    }
  }

  lemma {:induction false} PowersUnfold(a: real, b: real, n: nat)
    requires n > 0
    ensures Power(b, n) - Power(a, n) == Power(b, n - 1) * b - Power(a, n - 1) * a
  {
  }

  lemma {:induction false} PowerStep(x: real, y: real, a: real, b: real, m: real, n: real)
    requires 0.0 <= x <= y <= 1.0 && 0.0 <= a <= b <= 1.0 && y - x <= m * (b - a) && n == m + 1.0
    ensures 0.0 <= y * b - x * a <= n * (b - a)
  {
    ProductRises(x, y, a, b, m * (b - a));
    OneMore(m, b - a);
  }

  lemma {:induction false} OneMore(m: real, x: real)
    ensures (m + 1.0) * x == m * x + x
  {
  }

  lemma {:induction false} ProductRises(x: real, y: real, a: real, b: real, d: real)
    requires 0.0 <= x <= y <= 1.0 && 0.0 <= a <= b <= 1.0 && y - x <= d
    ensures 0.0 <= y * b - x * a <= d + (b - a)
  {
    var u, v := y - x, b - a;
    var p, r := u * b, v * x;
    assert y * b - x * a == p + r by {
      assert y * b - x * a == (y - x) * b + x * (b - a);
    }
    Shrinks(u, b);
    Shrinks(v, x);
    assert 0.0 <= p <= u && 0.0 <= r <= v;
  }

  lemma {:induction false} Shrinks(x: real, b: real)
    requires 0.0 <= x && 0.0 <= b <= 1.0
    ensures 0.0 <= x * b <= x
  {
    assert x * (1.0 - b) >= 0.0;
    assert x * b == x - x * (1.0 - b);
  }

  /** The expectation rises with q, strictly for k >= 1, by at most k(k+1)/2 times the difference. */
  lemma {:induction false} ExpectedRises(a: real, b: real, k: nat)
    requires 0.0 <= a <= b <= 1.0
    ensures 0.0 <= Expected(b, k) - Expected(a, k) <= Steepness(k) * (b - a)
    ensures k >= 1 && a < b ==> Expected(a, k) < Expected(b, k)
  {
    ExpectedIsGeometric(a, k);
    ExpectedIsGeometric(b, k);
    GeometricRises(a, b, k);
  }

  lemma {:induction false} GeometricRises(a: real, b: real, k: nat)
    requires 0.0 <= a <= b <= 1.0
    ensures 0.0 <= Geometric(b, k) - Geometric(a, k) <= Steepness(k) * (b - a)
    ensures k >= 1 && a < b ==> Geometric(a, k) < Geometric(b, k)
  {
    if k > 0 {
      GeometricRises(a, b, k - 1);
      PowerRises(a, b, k);
      var s, n, d := Steepness(k - 1), k as real, b - a;
      assert (s + n) * d == s * d + n * d;
      if k == 1 {
        assert Power(a, 1) == Power(a, 0) * a && Power(b, 1) == Power(b, 0) * b;
        assert Geometric(a, 0) == 0.0 && Geometric(b, 0) == 0.0;
      }
    }
  }

  const TOP := 1.0 - 0.000000001
  const ROUNDS := 60

  lemma {:induction false} HalfIsPower(n: nat)
    ensures Half(n) * Two(n) == 1.0
  {
    if n > 0 {
      HalfIsPower(n - 1);
      assert Half(n) * Two(n) == Half(n - 1) / 2.0 * (2.0 * Two(n - 1));
    }
  }

  function Two(n: nat): real {
    if n == 0 then 1.0 else 2.0 * Two(n - 1)
  }

  /** 2^-n */
  function Half(n: nat): (h: real)
    ensures h > 0.0
  {
    if n == 0 then 1.0 else Half(n - 1) / 2.0
  }

  /** k(k+1)/2 * 2^-61 */
  function Tolerance(k: nat): real {
    Steepness(k) * Half(ROUNDS + 1)
  }

  lemma {:induction false} ToleranceIs(k: nat)
    ensures 2.0 * Tolerance(k) == k as real * (k as real + 1.0) * Half(61)
  {
    SteepnessIs(k);
    Associates(2.0, Steepness(k), Half(ROUNDS + 1));
  }

  lemma {:induction false} Associates(x: real, y: real, z: real)
    ensures x * (y * z) == x * y * z
  {
  }

  /** `ea` of the loop: the sum as the code adds it up. */
  method ExpectedSum(q: real, k: nat) returns (ea: real)
    ensures ea == Expected(q, k)
  {
    ea := 0.0;
    for n := 0 to k
      invariant ea == FailSum(q, n)
    {
      ea := ea + n as real * Power(q, n) * (1.0 - q);
    }
    ea := ea + k as real * Power(q, k);
  }

  /**
   Sixty bisections: a target that some q in [0, TOP] attains is met within k(k+1)/2 * 2^-61; any
   other target leaves q within 2^-61 of the end that comes closest.
   */
  method PerPositionAcc(k: nat, acc: real) returns (q: real)
    ensures 0.0 <= q <= 0.999999999
    ensures Expected(0.0, k) <= k as real * acc <= Expected(0.999999999, k) ==>
              && Expected(q, k) - k as real * acc <= Tolerance(k)
              && k as real * acc - Expected(q, k) <= Tolerance(k)
    ensures k as real * acc > Expected(0.999999999, k) ==> 0.999999999 - q <= Half(61)
    ensures k as real * acc < Expected(0.0, k) ==> q <= Half(61)
  {
    hide Expected, Tolerance, Steepness;
    var target := k as real * acc;
    var lo, hi := 0.0, TOP;
    for i := 0 to ROUNDS
      invariant 0.0 <= lo <= hi <= TOP && hi - lo <= Half(i)
      invariant Expected(0.0, k) <= target ==> Expected(lo, k) <= target
      invariant target <= Expected(TOP, k) ==> target <= Expected(hi, k)
      invariant target > Expected(TOP, k) ==> hi == TOP
      invariant target < Expected(0.0, k) ==> lo == 0.0
    {
      q := (lo + hi) / 2.0;
      var ea := ExpectedSum(q, k);
      ExpectedRises(0.0, q, k);
      ExpectedRises(q, TOP, k);
      if ea < target {
        lo := q;
      } else {
        hi := q;
      }
    }
    q := (lo + hi) / 2.0;
    if Expected(0.0, k) <= target <= Expected(TOP, k) {
      Bracketed(k, lo, q, hi, target);
    }
  }

  lemma {:induction false} RisesWithin(a: real, b: real, k: nat)
    requires 0.0 <= a <= b <= 1.0 && b - a <= Half(ROUNDS + 1)
    ensures Expected(b, k) - Expected(a, k) <= Tolerance(k)
  {
    hide Expected, Steepness;
    var s, h := Steepness(k), Half(ROUNDS + 1);
    ExpectedRises(a, b, k);
    SteepnessIs(k);
    Scale(s, b - a, h);
  }

  lemma {:induction false} Bracketed(k: nat, lo: real, q: real, hi: real, target: real)
    requires 0.0 <= lo <= q <= hi <= 1.0 && q - lo <= Half(ROUNDS + 1) && hi - q <= Half(ROUNDS + 1)
    requires Expected(lo, k) <= target <= Expected(hi, k)
    ensures Expected(q, k) - target <= Tolerance(k)
    ensures target - Expected(q, k) <= Tolerance(k)
  {
    hide Tolerance, Expected;
    RisesWithin(lo, q, k);
    RisesWithin(q, hi, k);
  }

  lemma {:induction false} Scale(s: real, x: real, y: real)
    requires s >= 0.0 && x <= y
    ensures s * x <= s * y
  {
  }
}
