/**
 * The token quality factor shared by the ranking of yield options and of Morpho vaults:
 * three clamped linear sub-factors (total value locked, volume, transaction count),
 * weighted 0.5, 0.3 and 0.2.
 */
module Quality {
  import opened Wrappers
  import opened ApiUniswap

  const MIN_TVL_USD: real := 100000.0
  const GOOD_TVL_USD: real := 1000000.0
  const MIN_VOLUME_USD: real := 50000.0
  const GOOD_VOLUME_USD: real := 500000.0
  const MIN_TX_COUNT: int := 100
  const GOOD_TX_COUNT: int := 1000

  function Min(a: real, b: real): real {
    if a <= b then a else b
  }

  function Max(a: real, b: real): real {
    if a >= b then a else b
  }

  /**
   * `min(1.0, max(0.0, (value - lo) / (good - lo)))`: 0 at or below `lo`, 1 at or above `good`,
   * the linear interpolation in between, so always within [0, 1].
   */
  function SubFactor(value: real, lo: real, good: real): (f: real)
    requires lo < good
    ensures 0.0 <= f <= 1.0
    ensures value <= lo ==> f == 0.0
    ensures value >= good ==> f == 1.0
    ensures lo < value < good ==> f == (value - lo) / (good - lo) && 0.0 < f < 1.0
  {
    RatioBounds(value - lo, good - lo);
    Min(1.0, Max(0.0, (value - lo) / (good - lo)))
  }

  /** Where a quotient by a positive divisor falls, from where the dividend falls. */
  lemma RatioBounds(n: real, d: real)
    requires d > 0.0
    ensures n <= 0.0 ==> n / d <= 0.0
    ensures n >= d ==> n / d >= 1.0
    ensures 0.0 < n < d ==> 0.0 < n / d < 1.0
  {
    if n <= 0.0 {
      RatioAtMost(n, d, 0.0);
    }
    if n >= d {
      RatioAtLeast(n, d, 1.0);
    }
    if 0.0 < n < d {
      RatioAtLeast(n, d, 0.0);
      RatioAtMost(n, d, 1.0);
      assert n / d != 0.0 && n / d != 1.0 by {
        assert (n / d) * d == n;
      }
    }
  }

  lemma RatioAtMost(n: real, d: real, c: real)
    requires d > 0.0 && n <= c * d
    ensures n / d <= c
  {
    var q := n / d;
    assert q * d == n;
    if q > c {
      assert (q - c) * d > 0.0;
    }
  }

  lemma RatioAtLeast(n: real, d: real, c: real)
    requires d > 0.0 && n >= c * d
    ensures n / d >= c
  {
    var q := n / d;
    assert q * d == n;
    if q < c {
      assert (c - q) * d > 0.0;
    }
  }

  /** A sub-factor never decreases when its metric grows. */
  lemma SubFactorMonotone(v1: real, v2: real, lo: real, good: real)
    requires lo < good && v1 <= v2
    ensures SubFactor(v1, lo, good) <= SubFactor(v2, lo, good)
  {
    var d := good - lo;
    assert (v1 - lo) / d <= (v2 - lo) / d by {
      assert (v2 - lo) / d - (v1 - lo) / d == (v2 - v1) / d;
    }
  }

  /** `(tvlFactor * 0.5) + (volumeFactor * 0.3) + (txFactor * 0.2)` for the token's metrics. */
  function WeightedFactor(tvlUsd: real, volumeUsd: real, txCount: int): real {
    SubFactor(tvlUsd, MIN_TVL_USD, GOOD_TVL_USD) * 0.5
    + SubFactor(volumeUsd, MIN_VOLUME_USD, GOOD_VOLUME_USD) * 0.3
    + SubFactor(txCount as real, MIN_TX_COUNT as real, GOOD_TX_COUNT as real) * 0.2
  }

  /**
   * The weighted factor lies in [0, 1]; it is 0 exactly when every metric is at or below its
   * minimum, and 1 exactly when every metric is at or above its good threshold.
   */
  lemma WeightedFactorRange(tvlUsd: real, volumeUsd: real, txCount: int)
    ensures 0.0 <= WeightedFactor(tvlUsd, volumeUsd, txCount) <= 1.0
    ensures WeightedFactor(tvlUsd, volumeUsd, txCount) == 0.0
        <==> tvlUsd <= MIN_TVL_USD && volumeUsd <= MIN_VOLUME_USD && txCount <= MIN_TX_COUNT
    ensures WeightedFactor(tvlUsd, volumeUsd, txCount) == 1.0
        <==> tvlUsd >= GOOD_TVL_USD && volumeUsd >= GOOD_VOLUME_USD && txCount >= GOOD_TX_COUNT
  {
    var t := SubFactor(tvlUsd, MIN_TVL_USD, GOOD_TVL_USD);
    var v := SubFactor(volumeUsd, MIN_VOLUME_USD, GOOD_VOLUME_USD);
    var x := SubFactor(txCount as real, MIN_TX_COUNT as real, GOOD_TX_COUNT as real);
    assert t == 0.0 <==> tvlUsd <= MIN_TVL_USD;
    assert v == 0.0 <==> volumeUsd <= MIN_VOLUME_USD;
    assert x == 0.0 <==> txCount <= MIN_TX_COUNT;
    assert t == 1.0 <==> tvlUsd >= GOOD_TVL_USD;
    assert v == 1.0 <==> volumeUsd >= GOOD_VOLUME_USD;
    assert x == 1.0 <==> txCount >= GOOD_TX_COUNT;
  }

  /** More liquidity, volume or transactions never lower the weighted factor. */
  lemma WeightedFactorMonotone(tvl1: real, vol1: real, tx1: int, tvl2: real, vol2: real, tx2: int)
    requires tvl1 <= tvl2 && vol1 <= vol2 && tx1 <= tx2
    ensures WeightedFactor(tvl1, vol1, tx1) <= WeightedFactor(tvl2, vol2, tx2)
  {
    SubFactorMonotone(tvl1, tvl2, MIN_TVL_USD, GOOD_TVL_USD);
    SubFactorMonotone(vol1, vol2, MIN_VOLUME_USD, GOOD_VOLUME_USD);
    SubFactorMonotone(tx1 as real, tx2 as real, MIN_TX_COUNT as real, GOOD_TX_COUNT as real);
  }

  /**
   * `_calculate_token_quality_factor` after the lookup results were narrowed to `Token | None`:
   * 0 for an absent token, otherwise the token's weighted factor, which lies in [0, 1].
   */
  function TokenQualityFactor(token: Option<Token>): (f: real)
    ensures token.None? ==> f == 0.0
    ensures token.Some? ==> f == WeightedFactor(token.value.totalValueLockedUSD, token.value.volumeUSD, token.value.txCount)
    ensures 0.0 <= f <= 1.0
  {
    match token
    case None => 0.0
    case Some(t) =>
      WeightedFactorRange(t.totalValueLockedUSD, t.volumeUSD, t.txCount);
      WeightedFactor(t.totalValueLockedUSD, t.volumeUSD, t.txCount)
  }

  /**
   * `max(uniswapFactor, aerodromeFactor)`: the quality of a reward token is the better of its
   * Uniswap and Aerodrome factors.
   */
  function EffectiveQuality(uniswapFactor: real, aerodromeFactor: real): (q: real)
    ensures q >= uniswapFactor && q >= aerodromeFactor
    ensures q == uniswapFactor || q == aerodromeFactor
  {
    Max(uniswapFactor, aerodromeFactor)
  }

  /** `reward.apy * qualityFactor`, with the quality the better of the two market factors. */
  function AdjustedApy(apy: real, uniswapFactor: real, aerodromeFactor: real): real {
    apy * EffectiveQuality(uniswapFactor, aerodromeFactor)
  }

  /**
   * With both factors in [0, 1], the adjusted APY lies between 0 and the APY: a non-negative APY
   * is never increased, a negative one never made more negative; with both factors 0 it is 0.
   */
  lemma AdjustedApyBetween(apy: real, uniswapFactor: real, aerodromeFactor: real)
    requires 0.0 <= uniswapFactor <= 1.0 && 0.0 <= aerodromeFactor <= 1.0
    ensures apy >= 0.0 ==> 0.0 <= AdjustedApy(apy, uniswapFactor, aerodromeFactor) <= apy
    ensures apy <= 0.0 ==> apy <= AdjustedApy(apy, uniswapFactor, aerodromeFactor) <= 0.0
    ensures uniswapFactor == 0.0 && aerodromeFactor == 0.0 ==> AdjustedApy(apy, uniswapFactor, aerodromeFactor) == 0.0
    ensures uniswapFactor == 1.0 || aerodromeFactor == 1.0 ==> AdjustedApy(apy, uniswapFactor, aerodromeFactor) == apy
  {
    var quality := EffectiveQuality(uniswapFactor, aerodromeFactor);
    assert AdjustedApy(apy, uniswapFactor, aerodromeFactor) == apy * quality;
    assert 0.0 <= quality <= 1.0;
    ScaleBetween(apy, quality);
    if uniswapFactor == 0.0 && aerodromeFactor == 0.0 {
      assert quality == 0.0;
    }
    if uniswapFactor == 1.0 || aerodromeFactor == 1.0 {
      assert quality == 1.0;
    }
  }

  lemma ScaleBetween(apy: real, quality: real)
    requires 0.0 <= quality <= 1.0
    ensures apy >= 0.0 ==> 0.0 <= apy * quality <= apy
    ensures apy <= 0.0 ==> apy <= apy * quality <= 0.0
  {
    assert apy - apy * quality == apy * (1.0 - quality);
    if apy >= 0.0 {
      ProductNonNegative(apy, 1.0 - quality);
      ProductNonNegative(apy, quality);
    } else {
      ProductNonNegative(-apy, 1.0 - quality);
      ProductNonNegative(-apy, quality);
      assert (-apy) * (1.0 - quality) == -(apy * (1.0 - quality));
      assert (-apy) * quality == -(apy * quality);
    }
  }

  /** The product of two non-negative reals is non-negative. */
  lemma ProductNonNegative(x: real, y: real)
    requires 0.0 <= x && 0.0 <= y
    ensures 0.0 <= x * y
  {
  }
}
