/**
 * The home-value estimator of app.py: a price per square foot looked up by ZIP
 * code (Prince George's County table, 220 otherwise), a square footage with a
 * default of 1800 and a floor of 600, one bedroom tier and one bathroom tier
 * added to a base factor of 1, the product rounded, and a low/high range of
 * 93% and 107% of the estimate.
 *
 * Prices per square foot are exact rationals and the adjustment factor is kept
 * in hundredths (1.00 is 100), so the formula is evaluated without rounding
 * error; only the final `round` and the two `int` truncations produce integers.
 */
module AppValuation {
  import opened Wrappers

  /** `PG_PPSF`: price per square foot for the county's ZIP codes. */
  const PG_PPSF: map<string, real> := map[
    "20706" := 255.0, "20707" := 260.0, "20708" := 245.0, "20710" := 240.0, "20712" := 270.0,
    "20715" := 250.0, "20716" := 255.0, "20720" := 265.0, "20721" := 270.0, "20722" := 245.0,
    "20735" := 250.0, "20737" := 255.0, "20740" := 275.0, "20742" := 280.0, "20743" := 235.0,
    "20744" := 245.0, "20745" := 250.0, "20746" := 240.0, "20747" := 238.0, "20748" := 242.0,
    "20769" := 260.0, "20770" := 265.0, "20771" := 270.0, "20772" := 255.0, "20774" := 268.0,
    "20781" := 248.0, "20782" := 252.0, "20783" := 258.0, "20784" := 245.0, "20785" := 240.0
  ]

  const DEFAULT_PPSF: real := 220.0
  const DEFAULT_SQFT: int := 1800
  const MIN_SQFT: int := 600

  /**
   * The dictionary the estimator returns.  `adjustment` is the factor in
   * hundredths: 108 stands for 1.08.
   */
  datatype Valuation = Valuation(
    estimate: int,
    low: int,
    high: int,
    ppsfUsed: real,
    sqftUsed: int,
    adjustment: int
  )

  /** `table.get(zip or "", DEFAULT_PPSF)`. */
  function PpsfFor(table: map<string, real>, zip: Option<string>): (r: real)
    ensures r == DEFAULT_PPSF || exists z :: z in table && table[z] == r
  {
    var key := if zip.Some? then zip.value else "";
    if key in table then table[key] else DEFAULT_PPSF
  }

  /** Without an empty-string key, a missing ZIP falls back like an unknown one. */
  lemma PpsfLookup(table: map<string, real>, zip: Option<string>)
    requires "" !in table
    ensures zip.Some? && zip.value in table ==> PpsfFor(table, zip) == table[zip.value]
    ensures zip.None? || zip.value !in table ==> PpsfFor(table, zip) == DEFAULT_PPSF
  {
  }

  /** `max(600, sqft or 1800)`. */
  function SqftUsed(sqft: Option<int>): (s: int)
    ensures s >= MIN_SQFT
    ensures sqft.None? || sqft.value == 0 ==> s == DEFAULT_SQFT
    ensures sqft.Some? && sqft.value != 0 ==> s >= sqft.value
    ensures sqft.Some? && sqft.value >= MIN_SQFT ==> s == sqft.value
    ensures sqft.Some? && sqft.value != 0 && sqft.value < MIN_SQFT ==> s == MIN_SQFT
  {
    var given := if sqft.Some? && sqft.value != 0 then sqft.value else DEFAULT_SQFT;
    if MIN_SQFT >= given then MIN_SQFT else given
  }

  /** The bedroom tier, in hundredths: `if beds:` then +0.08, +0.05, +0.02 or nothing. */
  function BedsIncrement(beds: Option<int>): (inc: int)
    ensures inc in {0, 2, 5, 8}
  {
    if beds.None? || beds.value == 0 then 0
    else if beds.value >= 5 then 8
    else if beds.value == 4 then 5
    else if beds.value == 3 then 2
    else 0
  }

  /** The bathroom tier, in hundredths: `if baths:` then +0.05, +0.03 or nothing. */
  function BathsIncrement(baths: Option<real>): (inc: int)
    ensures inc in {0, 3, 5}
  {
    if baths.None? || baths.value == 0.0 then 0
    else if baths.value >= 3.0 then 5
    else if baths.value >= 2.0 then 3
    else 0
  }

  /** Exactly one bedroom tier applies, chosen by the number of bedrooms. */
  lemma BedsTiers(beds: Option<int>)
    ensures BedsIncrement(beds) == 8 <==> beds.Some? && beds.value >= 5
    ensures BedsIncrement(beds) == 5 <==> beds == Some(4)
    ensures BedsIncrement(beds) == 2 <==> beds == Some(3)
    ensures BedsIncrement(beds) == 0 <==> beds.None? || beds.value <= 2
  {
  }

  /** Exactly one bathroom tier applies, chosen by the number of bathrooms. */
  lemma BathsTiers(baths: Option<real>)
    ensures BathsIncrement(baths) == 5 <==> baths.Some? && baths.value >= 3.0
    ensures BathsIncrement(baths) == 3 <==> baths.Some? && 2.0 <= baths.value < 3.0
    ensures BathsIncrement(baths) == 0 <==> baths.None? || baths.value < 2.0
  {
  }

  /** More bedrooms never lower the bedroom tier; a missing count acts as 0. */
  lemma BedsMonotone(b1: int, b2: int)
    requires b1 <= b2
    ensures BedsIncrement(Some(b1)) <= BedsIncrement(Some(b2))
    ensures BedsIncrement(None) == BedsIncrement(Some(0))
  {
  }

  /** More bathrooms never lower the bathroom tier; a missing count acts as 0. */
  lemma BathsMonotone(b1: real, b2: real)
    requires b1 <= b2
    ensures BathsIncrement(Some(b1)) <= BathsIncrement(Some(b2))
    ensures BathsIncrement(None) == BathsIncrement(Some(0.0))
  {
  }

  /** The factor `adj`, in hundredths. */
  function Adjustment(beds: Option<int>, baths: Option<real>): (adj: int)
    ensures 100 <= adj <= 113
    ensures adj - 100 == BedsIncrement(beds) + BathsIncrement(baths)
  {
    100 + BedsIncrement(beds) + BathsIncrement(baths)
  }

  /** Python's `round(x)` on the exact value: nearest integer, ties to the even one. */
  function RoundHalfEven(x: real): (n: int)
    ensures -0.5 <= n as real - x <= 0.5
    ensures n as real - x == 0.5 || n as real - x == -0.5 ==> n % 2 == 0
    ensures x >= 0.0 ==> n >= 0
  {
    var f := x.Floor;
    var frac := x - f as real;
    if frac < 0.5 then f
    else if frac > 0.5 then f + 1
    else if f % 2 == 0 then f
    else f + 1
  }

  /** `int(n * pct / 100)`: the scaled value truncated toward zero. */
  function TruncPercent(n: int, pct: nat): (r: int)
    ensures n >= 0 ==> 0 <= r && r * 100 <= n * pct < (r + 1) * 100
    ensures n < 0 ==> r <= 0 && (-r) * 100 <= -(n * pct) < (1 - r) * 100
  {
    if n >= 0 then (n * pct) / 100 else -(((-n) * pct) / 100)
  }

  /** The unrounded estimate `ppsf * sqft * adj`. */
  function ExactValue(ppsf: real, sqft: int, adj: int): real {
    ppsf * (sqft as real) * (adj as real) / 100.0
  }

  lemma ExactValueNonNegative(ppsf: real, sqft: int, adj: int)
    ensures ppsf >= 0.0 && sqft >= 0 && adj >= 0 ==> ExactValue(ppsf, sqft, adj) >= 0.0
  {
    if ppsf >= 0.0 && sqft >= 0 && adj >= 0 {
      assert ppsf * (sqft as real) >= 0.0;
      assert ppsf * (sqft as real) * (adj as real) >= 0.0;
    }
  }

  /** The range around an estimate: `low` is 93% and `high` 107%, both truncated. */
  function Range(est: int): (r: (int, int))
    ensures est >= 0 ==> r.0 * 100 <= est * 93 < (r.0 + 1) * 100 && r.1 * 100 <= est * 107 < (r.1 + 1) * 100
    ensures est < 0 ==> (-r.0) * 100 <= -(est * 93) < (1 - r.0) * 100 && (-r.1) * 100 <= -(est * 107) < (1 - r.1) * 100
    ensures est >= 0 ==> 0 <= r.0 <= est <= r.1
    ensures est < 0 ==> r.1 <= est <= r.0 <= 0
  {
    (TruncPercent(est, 93), TruncPercent(est, 107))
  }

  /**
   * The last two lines of `estimate_value`: the rounded estimate for a rate,
   * a size and a factor, and its range.
   */
  function Priced(ppsf: real, sqft: int, adj: int): (v: Valuation)
    ensures v.ppsfUsed == ppsf && v.sqftUsed == sqft && v.adjustment == adj
    ensures v.estimate == RoundHalfEven(ExactValue(ppsf, sqft, adj))
    ensures (v.low, v.high) == Range(v.estimate)
    ensures ppsf >= 0.0 && sqft >= 0 && adj >= 0 ==> v.estimate >= 0
  {
    ExactValueNonNegative(ppsf, sqft, adj);
    var est := RoundHalfEven(ExactValue(ppsf, sqft, adj));
    var range := Range(est);
    Valuation(est, range.0, range.1, ppsf, sqft, adj)
  }

  /**
   * `estimate_value` with the lookup table as a parameter: app.py passes
   * `PG_PPSF`, valuation.py the table it loads.
   */
  function EstimateFrom(table: map<string, real>, zip: Option<string>, beds: Option<int>,
                        baths: Option<real>, sqft: Option<int>): (v: Valuation)
    ensures v.ppsfUsed == PpsfFor(table, zip)
    ensures v.sqftUsed >= MIN_SQFT
    ensures 100 <= v.adjustment <= 113
    ensures -0.5 <= v.estimate as real - ExactValue(v.ppsfUsed, v.sqftUsed, v.adjustment) <= 0.5
    ensures v.ppsfUsed >= 0.0 ==> v.estimate >= 0
    ensures v.estimate >= 0 ==> 0 <= v.low <= v.estimate <= v.high
    ensures v.estimate < 0 ==> v.high <= v.estimate <= v.low
  {
    Priced(PpsfFor(table, zip), SqftUsed(sqft), Adjustment(beds, baths))
  }

  /** The record carries the clamped size, the tier factor and the range of its own estimate. */
  lemma EstimateFromParts(table: map<string, real>, zip: Option<string>, beds: Option<int>,
                          baths: Option<real>, sqft: Option<int>)
    ensures var v := EstimateFrom(table, zip, beds, baths, sqft);
      v.sqftUsed == SqftUsed(sqft) && v.adjustment == Adjustment(beds, baths) &&
      (v.low, v.high) == Range(v.estimate) &&
      v.estimate == RoundHalfEven(ExactValue(PpsfFor(table, zip), SqftUsed(sqft), Adjustment(beds, baths)))
  {
  }

  /** Every rate in the county table lies between 235 and 280. */
  lemma PgRatesInRange()
    ensures forall zip :: zip in PG_PPSF ==> 235.0 <= PG_PPSF[zip] <= 280.0
  {
  }

  /** app.py's `estimate_value`: the formula over `PG_PPSF`. */
  function EstimateValue(zip: Option<string>, beds: Option<int>, baths: Option<real>,
                         sqft: Option<int>): (v: Valuation)
    ensures v == EstimateFrom(PG_PPSF, zip, beds, baths, sqft)
    ensures zip.Some? && zip.value in PG_PPSF ==> v.ppsfUsed == PG_PPSF[zip.value]
    ensures zip.None? || zip.value !in PG_PPSF ==> v.ppsfUsed == DEFAULT_PPSF
    ensures 0 <= v.low <= v.estimate <= v.high
  {
    PgRatesInRange();
    assert "" !in PG_PPSF;
    EstimateFrom(PG_PPSF, zip, beds, baths, sqft)
  }

  /** No inputs at all: 220 * 1800 = 396000, range 368280 to 423720. */
  lemma EmptyRequest()
    ensures EstimateValue(None, None, None, None) == Valuation(396000, 368280, 423720, 220.0, 1800, 100)
  {
    assert PpsfFor(PG_PPSF, None) == 220.0;
    assert ExactValue(220.0, 1800, 100) == 396000.0;
    assert RoundHalfEven(396000.0) == 396000;
    assert Range(396000) == (368280, 423720);
  }

  /** A known ZIP and all tiers at their top: 268 * 2000 * 1.13 = 605680. */
  lemma TopTiers()
    ensures EstimateValue(Some("20774"), Some(5), Some(3.0), Some(2000))
         == Valuation(605680, 563282, 648077, 268.0, 2000, 113)
  {
    assert PpsfFor(PG_PPSF, Some("20774")) == 268.0;
    assert Adjustment(Some(5), Some(3.0)) == 113;
    assert ExactValue(268.0, 2000, 113) == 605680.0;
    assert RoundHalfEven(605680.0) == 605680;
    assert Range(605680) == (563282, 648077);
  }

  /** A square footage below the floor is priced as 600 square feet. */
  lemma SmallHouse()
    ensures EstimateValue(None, None, None, Some(100)).sqftUsed == 600
    ensures EstimateValue(None, None, None, Some(100)).estimate == 132000
  {
    assert PpsfFor(PG_PPSF, None) == 220.0;
    assert Adjustment(None, None) == 100;
    assert ExactValue(220.0, 600, 100) == 132000.0;
    assert RoundHalfEven(132000.0) == 132000;
  }
}
