/** The cost estimator of `CostEstimationService`, in exact integer fixed point.
    `BigDecimal` arithmetic is exact, so every intermediate value is an integer
    count of a fixed unit: minutes in units of 10^-4, resolution multipliers in
    tenths, the unrounded total in units of 10^-7 dollars, the result in cents. */
module CostEstimation {
  import opened Common

  /** A `BigDecimal` with a non-negative scale: the number `unscaled / 10^scale`. */
  datatype Decimal = Decimal(unscaled: int, scale: nat)

  function Pow10(k: nat): (p: nat)
    ensures p >= 1
  {
    if k == 0 then 1 else 10 * Pow10(k - 1)
  }

  /** The rational number a decimal stands for. */
  ghost function Value(x: Decimal): real
  {
    x.unscaled as real / Pow10(x.scale) as real
  }

  /** `compareTo(n) > 0`: the decimal is numerically greater than the integer `n`,
      whatever its scale. */
  function Exceeds(x: Decimal, n: int): (exceeds: bool)
    ensures exceeds <==> Value(x) > n as real
    ensures exceeds <==> !AtMost(x, Decimal(n, 0))
    ensures x.scale == 0 ==> (exceeds <==> x.unscaled > n)
  {
    QuotientOrder(x.unscaled, Pow10(x.scale), n, 1);
    x.unscaled > n * Pow10(x.scale)
  }

  /** Numeric `x <= y` between two decimals of any scales, by cross-multiplication. */
  function AtMost(x: Decimal, y: Decimal): (atMost: bool)
    ensures atMost <==> Value(x) <= Value(y)
  {
    QuotientOrder(x.unscaled, Pow10(x.scale), y.unscaled, Pow10(y.scale));
    x.unscaled * Pow10(y.scale) <= y.unscaled * Pow10(x.scale)
  }

  /** Two fractions with positive denominators compare as their cross products. */
  lemma QuotientOrder(a: int, p: int, b: int, q: int)
    requires p > 0 && q > 0
    ensures a as real / p as real <= b as real / q as real <==> a * q <= b * p
  {
    var u, v := a as real / p as real, b as real / q as real;
    assert u * (p as real) == a as real;
    assert v * (q as real) == b as real;
    var pq := (p as real) * (q as real);
    assert pq > 0.0;
    assert u * pq == (a * q) as real;
    assert v * pq == (b * p) as real;
    if u <= v {
      assert u * pq <= v * pq;
    } else {
      assert u * pq > v * pq;
    }
  }

  // Constants of the price list, each in the unit named.
  const PromptCostE7: int := 200000             // 0.02 dollars
  const CostPerMinuteCents: int := 3000         // 30.00 dollars
  const StorageEgressCostE7: int := 10000000    // 1.00 dollars
  const Multiplier480p: nat := 5                // 0.5
  const Multiplier720p: nat := 8                // 0.8
  const Multiplier1080p: nat := 10              // 1.0
  const Multiplier1920p: nat := 30              // 3.0

  /** `n / d` rounded to the nearest integer, ties away from zero
      (`RoundingMode.HALF_UP`). The two ensures pin the result down uniquely. */
  function DivHalfUp(n: int, d: int): (q: int)
    requires d > 0
    ensures n >= 0 ==> 2 * (q * d) - d <= 2 * n < 2 * (q * d) + d
    ensures n < 0 ==> 2 * (q * d) - d < 2 * n <= 2 * (q * d) + d
    ensures n >= 0 ==> q >= 0
    ensures n <= 0 ==> q <= 0
  {
    if n >= 0 then
      HalfUpBounds(n, d);
      (2 * n + d) / (2 * d)
    else
      var q := (2 * (-n) + d) / (2 * d);
      HalfUpBounds(-n, d);
      assert (-q) * d == -(q * d);
      -q
  }

  /** Rounding a non-negative `m / d` half up lands within half a step of it. */
  lemma HalfUpBounds(m: int, d: int)
    requires m >= 0 && d > 0
    ensures var q := (2 * m + d) / (2 * d); q >= 0 && 2 * (q * d) - d <= 2 * m < 2 * (q * d) + d
  {
    var q := (2 * m + d) / (2 * d);
    DivBounds(2 * m + d, 2 * d);
    assert q * (2 * d) == 2 * (q * d);
  }

  lemma DivBounds(a: int, b: int)
    requires a >= 0 && b > 0
    ensures (a / b) * b <= a < (a / b) * b + b
  {
  }

  /** The resolution multiplier in tenths (`getResolutionMultiplier`); a null or
      unlisted resolution gets the 1080p multiplier. */
  function ResolutionMultiplier(resolution: Option<string>): (k: nat)
    ensures k == Multiplier480p || k == Multiplier720p || k == Multiplier1080p || k == Multiplier1920p
  {
    if resolution.None? then Multiplier1080p
    else
      match resolution.value
      case "480x480" => Multiplier480p
      case "480x854" => Multiplier480p
      case "854x480" => Multiplier480p
      case "720x720" => Multiplier720p
      case "720x1280" => Multiplier720p
      case "1280x720" => Multiplier720p
      case "1080x1080" => Multiplier1080p
      case "1080x1920" => Multiplier1080p
      case "1920x1080" => Multiplier1920p
      case _ => Multiplier1080p
  }

  /** The duration in minutes, rounded half-up to four decimals, in units of 10^-4.
      It has the sign of the duration, and whole minutes are exact. */
  function DurationMinutesE4(durationSeconds: int): (m: int)
    ensures m >= 0 <==> durationSeconds >= 0
    ensures durationSeconds % 60 == 0 ==> m == durationSeconds / 60 * 10000
  {
    var n := durationSeconds * 10000;
    var q := DivHalfUp(n, 60);
    assert durationSeconds < 0 ==> q < 0 by {
      if durationSeconds < 0 {
        MulStrict(durationSeconds, 0, 10000);
        if q >= 0 {
          MulLeft(0, q, 60);
        }
      }
    }
    assert durationSeconds % 60 == 0 ==> q == durationSeconds / 60 * 10000 by {
      if durationSeconds % 60 == 0 {
        var w := durationSeconds / 60 * 10000;
        assert n == w * 60;
        DivHalfUpExact(w, 60);
      }
    }
    q
  }

  /** The unrounded total `0.02 + 30.00 * minutes * multiplier + 1.00`, in units of 10^-7.
      For a non-negative duration it is at least the fixed 1.02 overhead, and exactly
      that for zero seconds. */
  function TotalCostE7(resolution: Option<string>, durationSeconds: int): (t: int)
    ensures durationSeconds >= 0 ==> t >= PromptCostE7 + StorageEgressCostE7
    ensures durationSeconds == 0 ==> t == PromptCostE7 + StorageEgressCostE7
  {
    var m := DurationMinutesE4(durationSeconds);
    var k := ResolutionMultiplier(resolution);
    assert durationSeconds >= 0 ==> CostPerMinuteCents * m * k >= 0 by {
      if durationSeconds >= 0 {
        MulLeft(0, CostPerMinuteCents * m, k);
      }
    }
    PromptCostE7 + CostPerMinuteCents * m * k + StorageEgressCostE7
  }

  /** `calculateEstimatedCost`: the total rounded half-up to cents, as a scale-2 decimal. */
  function CalculateEstimatedCost(resolution: Option<string>, durationSeconds: int): (cost: Decimal)
    ensures cost.scale == 2
  {
    Decimal(DivHalfUp(TotalCostE7(resolution, durationSeconds), 100000), 2)
  }

  /** Known resolutions: the keys of the multiplier table. */
  const KnownResolutions: set<string> :=
    {"480x480", "480x854", "854x480", "720x720", "720x1280", "1280x720",
     "1080x1080", "1080x1920", "1920x1080"}

  // ---------------------------------------------------------------------------
  // Warning tiers (`getCostWarning`)

  datatype Tier = Expensive | HighCost | Notice | NoWarning

  const ExpensiveAlert: string :=
    "\U{1F525} EXPENSIVE ALERT: This video generation will cost over $20! Azure Sora pricing can get shockingly expensive for longer or higher-resolution videos. Consider shorter duration or lower resolution to significantly reduce costs."
  const HighCostAlert: string :=
    "\U{26A0}\U{FE0F} High cost alert: This video generation will cost over $10. For reference, a 15-second 1080p video typically costs $7.50. Consider optimizing your specifications."
  const CostNotice: string :=
    "\U{1F4A1} Cost notice: This generation will cost over $5. You can reduce costs with shorter duration or lower resolution."

  /** The tier chosen by the strict comparisons against 20, 10 and 5. */
  function CostWarningTier(cost: Decimal): (t: Tier)
    ensures t == Expensive <==> Exceeds(cost, 20)
    ensures t == HighCost <==> !Exceeds(cost, 20) && Exceeds(cost, 10)
    ensures t == Notice <==> !Exceeds(cost, 10) && Exceeds(cost, 5)
    ensures t == NoWarning <==> !Exceeds(cost, 5)
  {
    if Exceeds(cost, 20) then Expensive
    else if Exceeds(cost, 10) then HighCost
    else if Exceeds(cost, 5) then Notice
    else NoWarning
  }

  /** The text shown for a tier: empty only when there is no warning. */
  function TierText(t: Tier): (s: string)
    ensures s == "" <==> t == NoWarning
  {
    match t
    case Expensive => ExpensiveAlert
    case HighCost => HighCostAlert
    case Notice => CostNotice
    case NoWarning => ""
  }

  /** `getCostWarning`: the text of the tier; empty exactly when the cost is at most 5. */
  function GetCostWarning(cost: Decimal): (w: string)
    ensures w == "" <==> !Exceeds(cost, 5)
    ensures w == ExpensiveAlert <==> Exceeds(cost, 20)
    ensures w == HighCostAlert <==> !Exceeds(cost, 20) && Exceeds(cost, 10)
    ensures w == CostNotice <==> !Exceeds(cost, 10) && Exceeds(cost, 5)
  {
    TierText(CostWarningTier(cost))
  }

  /** Different tiers show different texts. */
  lemma TierTextDistinct(t: Tier, u: Tier)
    ensures TierText(t) == TierText(u) ==> t == u
  {
  }

  function Severity(t: Tier): nat
  {
    match t
    case NoWarning => 0
    case Notice => 1
    case HighCost => 2
    case Expensive => 3
  }

  // ---------------------------------------------------------------------------
  // Arithmetic facts

  lemma MulLeft(x: int, y: int, d: int)
    requires x <= y && d >= 0
    ensures x * d <= y * d
  {
  }

  lemma MulStrict(x: int, y: int, d: int)
    requires x < y && d > 0
    ensures x * d < y * d
  {
  }

  lemma {:induction false} Pow10Add(a: nat, b: nat)
    ensures Pow10(a + b) == Pow10(a) * Pow10(b)
    decreases a
  {
    if a > 0 {
      Pow10Add(a - 1, b);
    }
  }

  /** Rounding half-up never reverses the order of two numerators. */
  lemma DivHalfUpMonotone(a: int, b: int, d: int)
    requires d > 0 && a <= b
    ensures DivHalfUp(a, d) <= DivHalfUp(b, d)
  {
    var qa, qb := DivHalfUp(a, d), DivHalfUp(b, d);
    if qa > qb {
      assert (qb + 1) * d == qb * d + d;
      MulLeft(qb + 1, qa, d);
    }
  }

  /** An exact quotient is returned unrounded. */
  lemma DivHalfUpExact(m: int, d: int)
    requires d > 0
    ensures DivHalfUp(m * d, d) == m
  {
    var n := m * d;
    var q := DivHalfUp(n, d);
    var qd := q * d;
    assert -d <= 2 * (qd - n) <= d;
    assert (q - m) * d == qd - n;
    SmallMultipleIsZero(q - m, d);
  }

  lemma SmallMultipleIsZero(x: int, d: int)
    requires d > 0 && -d <= 2 * (x * d) <= d
    ensures x == 0
  {
    if x >= 1 {
      MulLeft(1, x, d);
    } else if x <= -1 {
      MulLeft(x, -1, d);
    }
  }

  // ---------------------------------------------------------------------------
  // Properties of the estimate

  /** Every listed resolution gets its tier's multiplier. */
  lemma MultiplierTable()
    ensures ResolutionMultiplier(Some("480x480")) == 5
    ensures ResolutionMultiplier(Some("480x854")) == 5
    ensures ResolutionMultiplier(Some("854x480")) == 5
    ensures ResolutionMultiplier(Some("720x720")) == 8
    ensures ResolutionMultiplier(Some("720x1280")) == 8
    ensures ResolutionMultiplier(Some("1280x720")) == 8
    ensures ResolutionMultiplier(Some("1080x1080")) == 10
    ensures ResolutionMultiplier(Some("1080x1920")) == 10
    ensures ResolutionMultiplier(Some("1920x1080")) == 30
  {
  }

  /** A null or unlisted resolution costs exactly what "1080x1080" costs. */
  lemma UnknownResolutionPricedAsSquare1080(resolution: Option<string>, durationSeconds: int)
    requires resolution.None? || resolution.value !in KnownResolutions
    ensures CalculateEstimatedCost(resolution, durationSeconds)
         == CalculateEstimatedCost(Some("1080x1080"), durationSeconds)
  {
  }

  /** A zero-length video costs the fixed 0.02 + 1.00 overhead, at every resolution. */
  lemma ZeroDurationCost(resolution: Option<string>)
    ensures CalculateEstimatedCost(resolution, 0) == Decimal(102, 2)
  {
    DivHalfUpExact(0, 60);
    DivHalfUpExact(102, 100000);
  }

  /** Whole minutes are priced without rounding: 1.02 + 30.00 * n * multiplier. */
  lemma WholeMinutesCost(resolution: Option<string>, n: int)
    ensures CalculateEstimatedCost(resolution, 60 * n).unscaled
         == 102 + 300 * n * ResolutionMultiplier(resolution)
  {
    var k := ResolutionMultiplier(resolution);
    assert 60 * n * 10000 == (10000 * n) * 60;
    DivHalfUpExact(10000 * n, 60);
    assert TotalCostE7(resolution, 60 * n) == (102 + 300 * n * k) * 100000;
    DivHalfUpExact(102 + 300 * n * k, 100000);
  }

  /** For a fixed resolution, a longer video never costs less. */
  lemma CostMonotoneInDuration(resolution: Option<string>, s1: int, s2: int)
    requires s1 <= s2
    ensures CalculateEstimatedCost(resolution, s1).unscaled <= CalculateEstimatedCost(resolution, s2).unscaled
  {
    var k := ResolutionMultiplier(resolution);
    DivHalfUpMonotone(s1 * 10000, s2 * 10000, 60);
    MulLeft(CostPerMinuteCents * DurationMinutesE4(s1), CostPerMinuteCents * DurationMinutesE4(s2), k);
    DivHalfUpMonotone(TotalCostE7(resolution, s1), TotalCostE7(resolution, s2), 100000);
  }

  /** For a fixed non-negative duration, a resolution with a larger multiplier never costs less. */
  lemma CostMonotoneInMultiplier(r1: Option<string>, r2: Option<string>, durationSeconds: int)
    requires durationSeconds >= 0
    requires ResolutionMultiplier(r1) <= ResolutionMultiplier(r2)
    ensures CalculateEstimatedCost(r1, durationSeconds).unscaled <= CalculateEstimatedCost(r2, durationSeconds).unscaled
  {
    var m := DurationMinutesE4(durationSeconds);
    var k1, k2 := ResolutionMultiplier(r1), ResolutionMultiplier(r2);
    assert m >= 0;
    MulLeft(k1, k2, CostPerMinuteCents * m);
    assert CostPerMinuteCents * m * k1 <= CostPerMinuteCents * m * k2;
    DivHalfUpMonotone(TotalCostE7(r1, durationSeconds), TotalCostE7(r2, durationSeconds), 100000);
  }

  /** The four tiers in order: 480p, 720p, 1080p, then landscape "1920x1080". */
  lemma CostOrderedByResolutionTier(durationSeconds: int)
    requires durationSeconds >= 0
    ensures CalculateEstimatedCost(Some("480x480"), durationSeconds).unscaled
         <= CalculateEstimatedCost(Some("720x720"), durationSeconds).unscaled
    ensures CalculateEstimatedCost(Some("720x720"), durationSeconds).unscaled
         <= CalculateEstimatedCost(Some("1080x1080"), durationSeconds).unscaled
    ensures CalculateEstimatedCost(Some("1080x1080"), durationSeconds).unscaled
         <= CalculateEstimatedCost(Some("1920x1080"), durationSeconds).unscaled
  {
    CostMonotoneInMultiplier(Some("480x480"), Some("720x720"), durationSeconds);
    CostMonotoneInMultiplier(Some("720x720"), Some("1080x1080"), durationSeconds);
    CostMonotoneInMultiplier(Some("1080x1080"), Some("1920x1080"), durationSeconds);
  }

  /** Worked figures: ten seconds of "1080x1080" cost 6.02, a minute of "1920x1080" 91.02. */
  lemma CostExamples()
    ensures CalculateEstimatedCost(Some("1080x1080"), 10) == Decimal(602, 2)
    ensures CalculateEstimatedCost(Some("1920x1080"), 60) == Decimal(9102, 2)
    ensures GetCostWarning(CalculateEstimatedCost(Some("1920x1080"), 60)) == ExpensiveAlert
  {
    WholeMinutesCost(Some("1920x1080"), 1);
  }

  /** The bounds are strict: exactly 20 is a high-cost alert, exactly 10 a notice,
      exactly 5 no warning. */
  lemma WarningBoundsAreStrict()
    ensures GetCostWarning(Decimal(2000, 2)) == HighCostAlert
    ensures GetCostWarning(Decimal(1000, 2)) == CostNotice
    ensures GetCostWarning(Decimal(500, 2)) == ""
    ensures GetCostWarning(Decimal(2001, 2)) == ExpensiveAlert
  {
  }

  /** Comparison is by numeric value: padding a decimal with zeros does not change its warning. */
  lemma WarningIgnoresScale(u: int, s: nat, k: nat)
    ensures CostWarningTier(Decimal(u * Pow10(k), s + k)) == CostWarningTier(Decimal(u, s))
  {
    ExceedsRescaled(u, s, k, 5);
    ExceedsRescaled(u, s, k, 10);
    ExceedsRescaled(u, s, k, 20);
  }

  lemma ExceedsRescaled(u: int, s: nat, k: nat, n: int)
    ensures Exceeds(Decimal(u * Pow10(k), s + k), n) <==> Exceeds(Decimal(u, s), n)
  {
    var ps, pk := Pow10(s), Pow10(k);
    Pow10Add(s, k);
    var np := n * ps;
    var big := n * Pow10(s + k);
    assert big == np * pk by {
      assert Pow10(s + k) == ps * pk;
      MulAssoc(n, ps, pk);
    }
    CancelPositive(u, np, pk);
    assert Exceeds(Decimal(u * pk, s + k), n) == (u * pk > big);
    assert Exceeds(Decimal(u, s), n) == (u > np);
  }

  lemma MulAssoc(a: int, b: int, c: int)
    ensures a * (b * c) == (a * b) * c
  {
  }

  lemma CancelPositive(a: int, b: int, c: int)
    requires c > 0
    ensures a * c > b * c <==> a > b
  {
    if a > b {
      MulStrict(b, a, c);
    } else {
      MulLeft(a, b, c);
    }
  }

  lemma ExceedsMonotone(x: Decimal, y: Decimal, n: int)
    requires AtMost(x, y) && Exceeds(x, n)
    ensures Exceeds(y, n)
  {
    var px, py := Pow10(x.scale), Pow10(y.scale);
    MulStrict(n * px, x.unscaled, py);
    assert (n * px) * py == (n * py) * px;
    if y.unscaled <= n * py {
      MulLeft(y.unscaled, n * py, px);
    }
  }

  /** A larger cost never gets a milder warning. */
  lemma WarningMonotone(x: Decimal, y: Decimal)
    requires AtMost(x, y)
    ensures Severity(CostWarningTier(x)) <= Severity(CostWarningTier(y))
  {
    if Exceeds(x, 20) { ExceedsMonotone(x, y, 20); }
    if Exceeds(x, 10) { ExceedsMonotone(x, y, 10); }
    if Exceeds(x, 5) { ExceedsMonotone(x, y, 5); }
  }
}
