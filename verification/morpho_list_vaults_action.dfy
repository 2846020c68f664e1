/**
 * The ranking core of the agent's `morpho_list_vaults` action: the same scoring as the yield
 * options, but the failed token lookups stay in the maps as exceptions, each vault is reported
 * with per-reward details, and the vaults are ranked by risk-adjusted APY.
 */
module MorphoListVaultsAction {
  import opened Wrappers
  import opened Seqs
  import opened Quality
  import ApiUniswap
  import Morpho
  import YieldOptions

  type Token = ApiUniswap.Token

  /** The only wallet network the action serves. */
  const BASE_MAINNET := "base-mainnet"

  /** The details of one reward of a vault. */
  datatype RewardDetail = RewardDetail(
    asset: Morpho.Asset,
    originalApy: real,
    qualityFactor: real,
    riskAdjustedApy: real,
    uniswapFactor: real,
    aerodromeFactor: real)

  /** `{**vault.model_dump(), 'riskAdjustedApy': ..., 'rewardDetails': ...}`. */
  datatype VaultSummary = VaultSummary(vault: Morpho.Vault, riskAdjustedApy: real, rewardDetails: seq<RewardDetail>)

  /**
   * `calculate_token_quality_factor`: 0 for a missing entry or a lookup that raised, otherwise
   * the token's weighted factor; always within [0, 1].
   */
  function CalculateTokenQualityFactor(token: Option<Result<Token>>): (f: real)
    ensures token.None? || token.value.Err? ==> f == 0.0
    ensures token.Some? && token.value.Ok? ==>
              f == WeightedFactor(token.value.value.totalValueLockedUSD, token.value.value.volumeUSD, token.value.value.txCount)
    ensures 0.0 <= f <= 1.0
  {
    if token.None? || token.value.Err? then 0.0 else TokenQualityFactor(Some(token.value.value))
  }

  /** `dict(zip(keys, gather(lookup(k) for k in keys)))`, exceptions kept as values. */
  function ResultMap(keys: seq<string>, lookup: string -> Result<Token>): map<string, Result<Token>> {
    Zip(keys, Map(keys, lookup))
  }

  /** `tokensMap.get(address)`. */
  function LookupResult(tokens: map<string, Result<Token>>, address: string): Option<Result<Token>> {
    if address in tokens then Some(tokens[address]) else None
  }

  /**
   * With distinct keys, each key maps to exactly what its own lookup returned, a raised
   * exception included, so a failed lookup scores 0 and leaves every other key as it was.
   */
  lemma ResultMapAt(keys: seq<string>, lookup: string -> Result<Token>, i: nat)
    requires i < |keys|
    requires forall a, b :: 0 <= a < b < |keys| ==> keys[a] != keys[b]
    ensures LookupResult(ResultMap(keys, lookup), keys[i]) == Some(lookup(keys[i]))
    ensures lookup(keys[i]).Err? ==> CalculateTokenQualityFactor(LookupResult(ResultMap(keys, lookup), keys[i])) == 0.0
  {
    ZipAt(keys, Map(keys, lookup), i);
  }

  /** One reward's details: both factors, the better of the two, and the APY scaled by it. */
  function DetailFor(reward: Morpho.VaultReward, uniswapTokens: map<string, Result<Token>>,
                     aerodromeTokens: map<string, Result<Token>>): (d: RewardDetail)
    ensures d.asset == reward.asset && d.originalApy == reward.apy
    ensures d.uniswapFactor == CalculateTokenQualityFactor(LookupResult(uniswapTokens, reward.asset.address))
    ensures d.aerodromeFactor == CalculateTokenQualityFactor(LookupResult(aerodromeTokens, reward.asset.address))
    ensures d.qualityFactor == EffectiveQuality(d.uniswapFactor, d.aerodromeFactor)
    ensures d.riskAdjustedApy == AdjustedApy(reward.apy, d.uniswapFactor, d.aerodromeFactor)
  {
    var uniswapFactor := CalculateTokenQualityFactor(LookupResult(uniswapTokens, reward.asset.address));
    var aerodromeFactor := CalculateTokenQualityFactor(LookupResult(aerodromeTokens, reward.asset.address));
    RewardDetail(reward.asset, reward.apy, EffectiveQuality(uniswapFactor, aerodromeFactor),
                 AdjustedApy(reward.apy, uniswapFactor, aerodromeFactor), uniswapFactor, aerodromeFactor)
  }

  /** The reward details, parallel to the vault's reward lines. */
  function DetailsFor(rewards: seq<Morpho.VaultReward>, uniswapTokens: map<string, Result<Token>>,
                      aerodromeTokens: map<string, Result<Token>>): (ds: seq<RewardDetail>)
    ensures |ds| == |rewards|
    ensures forall i :: 0 <= i < |rewards| ==> ds[i] == DetailFor(rewards[i], uniswapTokens, aerodromeTokens)
  {
    if |rewards| == 0 then []
    else [DetailFor(rewards[0], uniswapTokens, aerodromeTokens)] + DetailsFor(rewards[1..], uniswapTokens, aerodromeTokens)
  }

  /** The sum of the details' risk-adjusted APYs. */
  function SumDetailRisk(ds: seq<RewardDetail>): real {
    if |ds| == 0 then 0.0 else ds[0].riskAdjustedApy + SumDetailRisk(ds[1..])
  }

  lemma {:induction false} SumDetailRiskAppend(ds: seq<RewardDetail>, d: RewardDetail)
    ensures SumDetailRisk(ds + [d]) == SumDetailRisk(ds) + d.riskAdjustedApy
  {
    if |ds| > 0 {
      assert (ds + [d])[1..] == ds[1..] + [d];
      SumDetailRiskAppend(ds[1..], d);
    }
  }

  /** A vault's summary: the base APY plus the details' adjusted APYs, and the details. */
  function SummaryFor(vault: Morpho.Vault, uniswapTokens: map<string, Result<Token>>,
                      aerodromeTokens: map<string, Result<Token>>): VaultSummary {
    var details := DetailsFor(vault.rewardApys, uniswapTokens, aerodromeTokens);
    VaultSummary(vault, vault.baseApy + SumDetailRisk(details), details)
  }

  /** One summary per vault, in vault order. */
  function SummariesFor(vaults: seq<Morpho.Vault>, uniswapTokens: map<string, Result<Token>>,
                        aerodromeTokens: map<string, Result<Token>>): (ss: seq<VaultSummary>)
    ensures |ss| == |vaults|
    ensures forall i :: 0 <= i < |vaults| ==> ss[i] == SummaryFor(vaults[i], uniswapTokens, aerodromeTokens)
  {
    if |vaults| == 0 then []
    else SummariesFor(vaults[..|vaults| - 1], uniswapTokens, aerodromeTokens)
         + [SummaryFor(vaults[|vaults| - 1], uniswapTokens, aerodromeTokens)]
  }

  /** The sort key: `x['riskAdjustedApy']`. */
  function SummaryRisk(s: VaultSummary): real {
    s.riskAdjustedApy
  }

  // ---------------------------------------------------------------------------
  // Agreement with the yield-option ranking
  // ---------------------------------------------------------------------------

  /**
   * Keeping exceptions in the map scores every address as narrowing them to None does: the
   * action and the yield options give each reward token the same factor.
   */
  lemma FactorsAgree(keys: seq<string>, lookup: string -> Result<Token>, address: string)
    requires forall a, b :: 0 <= a < b < |keys| ==> keys[a] != keys[b]
    ensures CalculateTokenQualityFactor(LookupResult(ResultMap(keys, lookup), address))
         == TokenQualityFactor(YieldOptions.Lookup(YieldOptions.TokenMap(keys, lookup), address))
  {
    if address in keys {
      var i :| 0 <= i < |keys| && keys[i] == address;
      ResultMapAt(keys, lookup, i);
      YieldOptions.TokenMapAt(keys, lookup, i);
    }
  }

  lemma {:induction false} SumRiskAgree(rewards: seq<Morpho.VaultReward>, keys: seq<string>, up: YieldOptions.Upstream)
    requires forall a, b :: 0 <= a < b < |keys| ==> keys[a] != keys[b]
    ensures SumDetailRisk(DetailsFor(rewards, ResultMap(keys, up.uniswapToken), ResultMap(keys, up.aerodromeToken)))
         == YieldOptions.SumRisk(YieldOptions.ScoreRewards(rewards, YieldOptions.TokenMap(keys, up.uniswapToken),
                                                           YieldOptions.TokenMap(keys, up.aerodromeToken)))
  {
    if |rewards| > 0 {
      var u, a := ResultMap(keys, up.uniswapToken), ResultMap(keys, up.aerodromeToken);
      var u', a' := YieldOptions.TokenMap(keys, up.uniswapToken), YieldOptions.TokenMap(keys, up.aerodromeToken);
      var ds := DetailsFor(rewards, u, a);
      var ys := YieldOptions.ScoreRewards(rewards, u', a');
      assert ds[1..] == DetailsFor(rewards[1..], u, a);
      assert ys[1..] == YieldOptions.ScoreRewards(rewards[1..], u', a');
      FactorsAgree(keys, up.uniswapToken, rewards[0].asset.address);
      FactorsAgree(keys, up.aerodromeToken, rewards[0].asset.address);
      SumRiskAgree(rewards[1..], keys, up);
    }
  }

  /** Over the same keys and lookups, a vault's summary and its yield option carry the same risk-adjusted APY. */
  lemma RiskAdjustedAgrees(vault: Morpho.Vault, keys: seq<string>, up: YieldOptions.Upstream)
    requires forall a, b :: 0 <= a < b < |keys| ==> keys[a] != keys[b]
    ensures SummaryFor(vault, ResultMap(keys, up.uniswapToken), ResultMap(keys, up.aerodromeToken)).riskAdjustedApy
         == YieldOptions.OptionFor(vault, YieldOptions.TokenMap(keys, up.uniswapToken),
                                   YieldOptions.TokenMap(keys, up.aerodromeToken)).riskAdjustedApy
  {
    SumRiskAgree(vault.rewardApys, keys, up);
  }

  // ---------------------------------------------------------------------------
  // morpho_list_vaults
  // ---------------------------------------------------------------------------

  /** The summaries of the loaded vaults, before sorting, with both maps built over `allRewardAssets`. */
  function UnsortedSummaries(up: YieldOptions.Upstream, vaults: seq<Morpho.Vault>): seq<VaultSummary> {
    var keys := YieldOptions.RewardAssets(vaults).keys;
    SummariesFor(vaults, ResultMap(keys, up.uniswapToken), ResultMap(keys, up.aerodromeToken))
  }

  /**
   * What the ranking core of `morpho_list_vaults` produces: UnsupportedNetwork for any wallet
   * network but Base mainnet, before any lookup; else the failure of the USDC lookup or of the
   * vault listing; else the vault summaries sorted by risk-adjusted APY, non-increasing.
   */
  function MorphoListVaultsResult(networkId: string, up: YieldOptions.Upstream): Result<seq<VaultSummary>> {
    if networkId != BASE_MAINNET then Err(UnsupportedNetwork)
    else if up.usdcAsset.Err? then Err(up.usdcAsset.error)
    else
      var vaults := up.vaultsOf(up.usdcAsset.value.address);
      if vaults.Err? then Err(vaults.error)
      else Ok(SortDesc(UnsortedSummaries(up, vaults.value), SummaryRisk))
  }

  /**
   * One summary per listed vault, each exactly once, ordered by risk-adjusted APY,
   * non-increasing, ties in vault order; the i-th unsorted summary is the i-th vault's.
   */
  lemma MorphoListVaultsRanked(networkId: string, up: YieldOptions.Upstream, k: real)
    requires MorphoListVaultsResult(networkId, up).Ok?
    ensures networkId == BASE_MAINNET
    ensures var vaults := up.vaultsOf(up.usdcAsset.value.address).value;
            var ranked := MorphoListVaultsResult(networkId, up).value;
            && |ranked| == |vaults|
            && multiset(ranked) == multiset(UnsortedSummaries(up, vaults))
            && (forall i :: 0 <= i < |vaults| ==> UnsortedSummaries(up, vaults)[i].vault == vaults[i])
            && SortedDesc(ranked, SummaryRisk)
            && Filter(ranked, KeyIs(SummaryRisk, k)) == Filter(UnsortedSummaries(up, vaults), KeyIs(SummaryRisk, k))
  {
    var vaults := up.vaultsOf(up.usdcAsset.value.address).value;
    var summaries := UnsortedSummaries(up, vaults);
    var ranked := SortDesc(summaries, SummaryRisk);
    assert |ranked| == |multiset(ranked)| == |multiset(summaries)| == |summaries|;
    SortDescStable(summaries, SummaryRisk, k);
  }

  /**
   * Every ranked summary is the summary of one of the listed vaults, and its risk-adjusted APY
   * is that vault's base APY plus the adjusted APYs of its reward details.
   */
  lemma MorphoListVaultsDecompose(networkId: string, up: YieldOptions.Upstream)
    requires MorphoListVaultsResult(networkId, up).Ok?
    ensures var vaults := up.vaultsOf(up.usdcAsset.value.address).value;
            forall s :: s in MorphoListVaultsResult(networkId, up).value ==>
              && s.vault in vaults
              && s.riskAdjustedApy == s.vault.baseApy + SumDetailRisk(s.rewardDetails)
              && |s.rewardDetails| == |s.vault.rewardApys|
  {
    var vaults := up.vaultsOf(up.usdcAsset.value.address).value;
    var summaries := UnsortedSummaries(up, vaults);
    var ranked := MorphoListVaultsResult(networkId, up).value;
    assert ranked == SortDesc(summaries, SummaryRisk);
    forall s | s in ranked
      ensures && s.vault in vaults
              && s.riskAdjustedApy == s.vault.baseApy + SumDetailRisk(s.rewardDetails)
              && |s.rewardDetails| == |s.vault.rewardApys|
    {
      assert s in multiset(ranked);
      SummaryOfListed(vaults, s, YieldOptions.RewardAssets(vaults).keys, up);
    }
  }

  lemma SummaryOfListed(vaults: seq<Morpho.Vault>, s: VaultSummary, keys: seq<string>, up: YieldOptions.Upstream)
    requires s in SummariesFor(vaults, ResultMap(keys, up.uniswapToken), ResultMap(keys, up.aerodromeToken))
    ensures s.vault in vaults
    ensures s.riskAdjustedApy == s.vault.baseApy + SumDetailRisk(s.rewardDetails)
    ensures |s.rewardDetails| == |s.vault.rewardApys|
  {
    var summaries := SummariesFor(vaults, ResultMap(keys, up.uniswapToken), ResultMap(keys, up.aerodromeToken));
    var i :| 0 <= i < |summaries| && summaries[i] == s;
    assert s.vault == vaults[i];
  }

  /** The inner loop: the accumulator gains each reward's adjusted APY as its details are appended. */
  method SummarizeVault(vault: Morpho.Vault, uniswapTokens: map<string, Result<Token>>,
                        aerodromeTokens: map<string, Result<Token>>) returns (summary: VaultSummary)
    ensures summary == SummaryFor(vault, uniswapTokens, aerodromeTokens)
  {
    var riskAdjustedApy := vault.baseApy;
    var rewardDetails: seq<RewardDetail> := [];
    for j := 0 to |vault.rewardApys|
      invariant rewardDetails == DetailsFor(vault.rewardApys[..j], uniswapTokens, aerodromeTokens)
      invariant riskAdjustedApy == vault.baseApy + SumDetailRisk(rewardDetails)
    {
      var reward := vault.rewardApys[j];
      var uniswapFactor := CalculateTokenQualityFactor(LookupResult(uniswapTokens, reward.asset.address));
      var aerodromeFactor := CalculateTokenQualityFactor(LookupResult(aerodromeTokens, reward.asset.address));
      var qualityFactor := EffectiveQuality(uniswapFactor, aerodromeFactor);
      var adjustedRewardApy := AdjustedApy(reward.apy, uniswapFactor, aerodromeFactor);
      riskAdjustedApy := riskAdjustedApy + adjustedRewardApy;
      var detail := RewardDetail(reward.asset, reward.apy, qualityFactor, adjustedRewardApy, uniswapFactor, aerodromeFactor);
      assert detail == DetailFor(reward, uniswapTokens, aerodromeTokens);
      SumDetailRiskAppend(rewardDetails, detail);
      DetailsForStep(vault.rewardApys, j, uniswapTokens, aerodromeTokens);
      rewardDetails := rewardDetails + [detail];
    }
    assert vault.rewardApys[..|vault.rewardApys|] == vault.rewardApys;
    summary := VaultSummary(vault, riskAdjustedApy, rewardDetails);
  }

  /** The details of a prefix of the rewards grow by one detail per reward. */
  lemma {:induction false} DetailsForStep(rewards: seq<Morpho.VaultReward>, j: nat, uniswapTokens: map<string, Result<Token>>,
                                          aerodromeTokens: map<string, Result<Token>>)
    requires j < |rewards|
    ensures DetailsFor(rewards[..j + 1], uniswapTokens, aerodromeTokens)
         == DetailsFor(rewards[..j], uniswapTokens, aerodromeTokens) + [DetailFor(rewards[j], uniswapTokens, aerodromeTokens)]
  {
    var a := DetailsFor(rewards[..j + 1], uniswapTokens, aerodromeTokens);
    var b := DetailsFor(rewards[..j], uniswapTokens, aerodromeTokens) + [DetailFor(rewards[j], uniswapTokens, aerodromeTokens)];
    assert |a| == |b|;
    forall i | 0 <= i < |a| ensures a[i] == b[i] {
      assert rewards[..j + 1][i] == rewards[i];
    }
  }

  /** The outer loop: one summary appended per vault, in vault order. */
  method SummarizeVaults(vaults: seq<Morpho.Vault>, uniswapTokens: map<string, Result<Token>>,
                         aerodromeTokens: map<string, Result<Token>>) returns (vaultDicts: seq<VaultSummary>)
    ensures vaultDicts == SummariesFor(vaults, uniswapTokens, aerodromeTokens)
  {
    vaultDicts := [];
    for i := 0 to |vaults|
      invariant vaultDicts == SummariesFor(vaults[..i], uniswapTokens, aerodromeTokens)
    {
      var vaultDict := SummarizeVault(vaults[i], uniswapTokens, aerodromeTokens);
      assert vaults[..i + 1][..i] == vaults[..i];
      vaultDicts := vaultDicts + [vaultDict];
    }
    assert vaults[..|vaults|] == vaults;
  }

  /** The ranking core of `morpho_list_vaults`, for the wallet's network id. */
  method MorphoListVaults(networkId: string, up: YieldOptions.Upstream) returns (r: Result<seq<VaultSummary>>)
    ensures r == MorphoListVaultsResult(networkId, up)
  {
    if networkId != BASE_MAINNET {
      return Err(UnsupportedNetwork);
    }
    var usdcAsset := up.usdcAsset;
    if usdcAsset.Err? {
      return Err(usdcAsset.error);
    }
    var vaults := up.vaultsOf(usdcAsset.value.address);
    if vaults.Err? {
      return Err(vaults.error);
    }
    var allRewardAssets := YieldOptions.CollectRewardAssets(vaults.value);
    var uniswapRewardTokensMap := Zip(allRewardAssets.keys, Map(allRewardAssets.keys, up.uniswapToken));
    var aerodromeRewardTokensMap := Zip(allRewardAssets.keys, Map(allRewardAssets.keys, up.aerodromeToken));
    var vaultDicts := SummarizeVaults(vaults.value, uniswapRewardTokensMap, aerodromeRewardTokensMap);
    r := Ok(SortDesc(vaultDicts, SummaryRisk));
  }
}
