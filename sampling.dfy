/** The sampling strategies and their systematic "inspect every k-th
    item" rule. */
module Sampling {

  datatype SamplingStrategy = FULL_INSPECTION | AQL_2_5 | AQL_4_0 | RANDOM_10 | RANDOM_25
  {
    /** The percentage of items the strategy samples. */
    function SampleRate(): real {
      match this
      case FULL_INSPECTION => 100.0
      case AQL_2_5 => 2.5
      case AQL_4_0 => 4.0
      case RANDOM_10 => 10.0
      case RANDOM_25 => 25.0
    }
  }

  /** The least integer not below `x` (Java's `Math.ceil` followed by an
      `(int)` cast, for the small positive values used here). */
  function Ceil(x: real): (n: int)
    ensures n as real >= x && (n - 1) as real < x
  {
    -((-x).Floor)
  }

  /** Distance between two inspected item numbers: ceil(100 / sample rate). */
  function Interval(s: SamplingStrategy): (k: int)
    ensures k == match s
                 case FULL_INSPECTION => 1
                 case AQL_2_5 => 40
                 case AQL_4_0 => 25
                 case RANDOM_10 => 10
                 case RANDOM_25 => 4
  {
    Ceil(100.0 / s.SampleRate())
  }

  /** Java's `%` on int, which truncates toward zero (the remainder takes
      the sign of the dividend). */
  function JavaRem(a: int, b: int): (r: int)
    requires b > 0
    ensures -b < r < b
    ensures a >= 0 ==> r == a % b
    ensures a < 0 ==> r <= 0
  {
    if a >= 0 then a % b else -((-a) % b)
  }

  /** For every interval in use, Java's remainder is zero exactly when the
      Euclidean one is. */
  lemma JavaRemZero(a: int, k: int)
    requires k > 0
    ensures JavaRem(a, k) == 0 <==> a % k == 0
  {
    if a < 0 {
      var q, r := a / k, a % k;
      if r == 0 {
        DivModUnique(-a, k, -q, 0);
      } else {
        DivModUnique(-a, k, -q - 1, k - r);
      }
    }
  }

  /** Quotient and remainder are the only ones with the remainder in [0, k). */
  lemma DivModUnique(n: int, k: int, q: int, r: int)
    requires k > 0 && 0 <= r < k && n == k * q + r
    ensures n / k == q && n % k == r
  {
    var q', r' := n / k, n % k;
    assert n == k * q' + r';
    assert k * q - k * q' == r' - r;
    assert k * (q - q') == r' - r;
    assert k * (q' - q) == r - r';
    if q > q' {
      MulAtLeast(k, q - q');
    } else if q < q' {
      MulAtLeast(k, q' - q);
    }
  }

  lemma {:induction false} MulAtLeast(k: int, m: int)
    requires k > 0 && m >= 1
    ensures k * m >= k
  {
    if m > 1 {
      MulAtLeast(k, m - 1);
      assert k * m == k * (m - 1) + k;
    }
  }

  /** Whether item number `itemNumber` is to be inspected. The AQL branch and
      the "random" branch compute the same systematic rule: nothing random
      happens, and `totalItems` is never read. */
  function ShouldInspect(s: SamplingStrategy, itemNumber: int, totalItems: int): (inspect: bool)
    ensures s == FULL_INSPECTION ==> inspect
    ensures s != FULL_INSPECTION ==> (inspect <==> itemNumber % Interval(s) == 0)
  {
    JavaRemZero(itemNumber, Interval(s));
    if s == FULL_INSPECTION then
      true
    else if s == AQL_2_5 || s == AQL_4_0 then
      JavaRem(itemNumber, Interval(s)) == 0
    else
      JavaRem(itemNumber, Interval(s)) == 0
  }

  /** Item 0 is always inspected, and the decision repeats with period
      `Interval(s)` whatever the total number of items. */
  lemma Periodic(s: SamplingStrategy, itemNumber: int, totalItems: int, otherTotal: int)
    ensures ShouldInspect(s, 0, totalItems)
    ensures ShouldInspect(s, itemNumber, totalItems) ==
            ShouldInspect(s, itemNumber + Interval(s), otherTotal)
  {
    var k := Interval(s);
    var q, r := itemNumber / k, itemNumber % k;
    assert itemNumber + k == k * (q + 1) + r;
    DivModUnique(itemNumber + k, k, q + 1, r);
  }

  /** How many of the item numbers 0 .. n-1 the strategy inspects. */
  function CountInspected(s: SamplingStrategy, n: nat): nat {
    if n == 0 then 0
    else CountInspected(s, n - 1) + (if ShouldInspect(s, n - 1, n) then 1 else 0)
  }

  /** Out of the first n items, the strategy inspects exactly ceil(n / k),
      k being its interval: a sample rate of 1/k, rounded up. */
  lemma {:induction false} InspectedFraction(s: SamplingStrategy, n: nat)
    ensures CountInspected(s, n) == (n + Interval(s) - 1) / Interval(s)
  {
    var k := Interval(s);
    if n == 0 {
      DivModUnique(k - 1, k, 0, k - 1);
    } else {
      InspectedFraction(s, n - 1);
      CeilDivStep(n - 1, k);
      if s == FULL_INSPECTION {
        DivModUnique(n - 1, 1, n - 1, 0);
      }
    }
  }

  /** Going from m to m + 1 items, ceil(items / k) grows by one exactly
      when m is a multiple of k. */
  lemma CeilDivStep(m: nat, k: int)
    requires k > 0
    ensures (m + k) / k == (m + k - 1) / k + (if m % k == 0 then 1 else 0)
  {
    var q, r := m / k, m % k;
    assert m == k * q + r;
    assert k * (q + 1) == k * q + k;
    if r == 0 {
      DivModUnique(m + k - 1, k, q, k - 1);
      DivModUnique(m + k, k, q + 1, 0);
    } else {
      DivModUnique(m + k - 1, k, q + 1, r - 1);
      DivModUnique(m + k, k, q + 1, r);
    }
  }
}
